/** The option lists of the panel's editor: the entries of the field
    drop-downs and the first non-time field of the data. */
module OptionLists {
  import opened Wrappers
  import opened GrafanaData
  import opened Search
  import DynamicImagePanel

  /** One drop-down entry: its `value` and its `label` text. */
  datatype Choice<V> = Choice(value: V, text: string)

  /** The value of a `listFieldsNew` entry: a display name and the type that
      Grafana guesses for the field (absent when it cannot guess). */
  datatype FieldRef = FieldRef(name: string, fieldType: Option<FieldType>)

  /** What `findFirstNonTimeField` returns when it finds a field. */
  datatype NameAndType = NameAndType(name: string, fieldType: FieldType)

  /** The editor context; `data` is absent before a query has run. */
  datatype Context = Context(data: Option<seq<DataFrame>>)

  /** The frames the builders visit: none when the context or its data is
      absent. */
  function ContextFrames(context: Option<Context>): seq<DataFrame> {
    if context.Some? && context.value.data.Some? then context.value.data.value else []
  }

  /** The icon-field drop-down's sentinel entry and the option's default. */
  const IconFieldSentinel: Choice<string> := Choice("", "First non time field")
  const IconFieldDefault: string := ""

  /** The sentinel entry of the alt-field and tooltip-field drop-downs. */
  const UseIconFieldSentinel: Choice<string> := Choice("", "Use icon field")

  /** The `listFields` entry of one field: value and label are both its
      display name. */
  function NameChoice(p: FieldAt, frames: seq<DataFrame>,
                      displayName: (Field, DataFrame, seq<DataFrame>) -> string): Choice<string>
  {
    var name := displayName(p.field, p.frame, frames);
    Choice(name, name)
  }

  function NameChoices(ps: seq<FieldAt>, frames: seq<DataFrame>,
                       displayName: (Field, DataFrame, seq<DataFrame>) -> string): seq<Choice<string>>
  {
    seq(|ps|, k requires 0 <= k < |ps| => NameChoice(ps[k], frames, displayName))
  }

  /** The `listFieldsNew` entry of one field: its display name and guessed
      type as value, its display name as label. */
  function TypedChoice(p: FieldAt, frames: seq<DataFrame>,
                       displayName: (Field, DataFrame, seq<DataFrame>) -> string,
                       guessFieldType: Field -> Option<FieldType>): Choice<FieldRef>
  {
    var name := displayName(p.field, p.frame, frames);
    Choice(FieldRef(name, guessFieldType(p.field)), name)
  }

  function TypedChoices(ps: seq<FieldAt>, frames: seq<DataFrame>,
                        displayName: (Field, DataFrame, seq<DataFrame>) -> string,
                        guessFieldType: Field -> Option<FieldType>): seq<Choice<FieldRef>>
  {
    seq(|ps|, k requires 0 <= k < |ps| => TypedChoice(ps[k], frames, displayName, guessFieldType))
  }

  /** The list `listFields` builds. */
  function FieldOptions(context: Option<Context>, first: Choice<string>,
                        displayName: (Field, DataFrame, seq<DataFrame>) -> string): seq<Choice<string>>
  {
    var frames := ContextFrames(context);
    [first] + NameChoices(FieldsOf(frames), frames, displayName)
  }

  /** The list `listFieldsNew` builds. */
  function TypedFieldOptions(context: Option<Context>,
                             displayName: (Field, DataFrame, seq<DataFrame>) -> string,
                             guessFieldType: Field -> Option<FieldType>): seq<Choice<FieldRef>>
  {
    var frames := ContextFrames(context);
    TypedChoices(FieldsOf(frames), frames, displayName, guessFieldType)
  }

  /** The raw name and type of the first non-time field, frames in order and
      fields in order within each frame. */
  function FirstNonTimeField(frames: seq<DataFrame>): Option<NameAndType> {
    var ps := FieldsOf(frames);
    var k := FirstIndex(ps, (p: FieldAt) => p.field.fieldType != Time);
    if k == -1 then None else Some(NameAndType(ps[k].field.name, ps[k].field.fieldType))
  }

  /** `listFields`: the `first` entry, then one entry per field of every
      frame. */
  method ListFields(context: Option<Context>, first: Choice<string>,
                    displayName: (Field, DataFrame, seq<DataFrame>) -> string)
    returns (options: seq<Choice<string>>)
    ensures options == FieldOptions(context, first, displayName)
  {
    options := [first];
    if context.Some? && context.value.data.Some? {
      var frames := context.value.data.value;
      for i := 0 to |frames|
        invariant |options| == 1 + |FieldsOf(frames[..i])| && options[0] == first
        invariant forall k :: 0 <= k < |FieldsOf(frames[..i])| ==>
                    options[k + 1] == NameChoice(FieldsOf(frames[..i])[k], frames, displayName)
      {
        var frame := frames[i];
        ghost var done := FieldsOf(frames[..i]);
        FieldsOfPrefix(frames, i);
        for j := 0 to |frame.fields|
          invariant |options| == 1 + |done| + j && options[0] == first
          invariant forall k :: 0 <= k < |done| ==> options[k + 1] == NameChoice(done[k], frames, displayName)
          invariant forall k :: 0 <= k < j ==>
                      options[|done| + k + 1] == NameChoice(FieldAt(frame, frame.fields[k]), frames, displayName)
        {
          var name := displayName(frame.fields[j], frame, frames);
          options := options + [Choice(name, name)];
        }
        ghost var now := FieldsOf(frames[..i + 1]);
        assert now == done + FieldsIn(frame);
        forall k | 0 <= k < |now|
          ensures options[k + 1] == NameChoice(now[k], frames, displayName)
        {
          if k >= |done| {
            assert now[k] == FieldAt(frame, frame.fields[k - |done|]);
          }
        }
      }
      assert frames[..|frames|] == frames;
    }
    assert options[1..] == NameChoices(FieldsOf(ContextFrames(context)), ContextFrames(context), displayName);
  }

  /** `listFieldsNew`: one typed entry per field of every frame, no sentinel. */
  method ListFieldsNew(context: Option<Context>,
                       displayName: (Field, DataFrame, seq<DataFrame>) -> string,
                       guessFieldType: Field -> Option<FieldType>)
    returns (options: seq<Choice<FieldRef>>)
    ensures options == TypedFieldOptions(context, displayName, guessFieldType)
  {
    options := [];
    if context.Some? && context.value.data.Some? {
      var frames := context.value.data.value;
      for i := 0 to |frames|
        invariant |options| == |FieldsOf(frames[..i])|
        invariant forall k :: 0 <= k < |FieldsOf(frames[..i])| ==>
                    options[k] == TypedChoice(FieldsOf(frames[..i])[k], frames, displayName, guessFieldType)
      {
        var frame := frames[i];
        ghost var done := FieldsOf(frames[..i]);
        FieldsOfPrefix(frames, i);
        for j := 0 to |frame.fields|
          invariant |options| == |done| + j
          invariant forall k :: 0 <= k < |done| ==> options[k] == TypedChoice(done[k], frames, displayName, guessFieldType)
          invariant forall k :: 0 <= k < j ==>
                      options[|done| + k] == TypedChoice(FieldAt(frame, frame.fields[k]), frames, displayName, guessFieldType)
        {
          var name := displayName(frame.fields[j], frame, frames);
          var t := guessFieldType(frame.fields[j]);
          assert Choice(FieldRef(name, t), name) == TypedChoice(FieldAt(frame, frame.fields[j]), frames, displayName, guessFieldType);
          options := options + [Choice(FieldRef(name, t), name)];
        }
        ghost var now := FieldsOf(frames[..i + 1]);
        assert now == done + FieldsIn(frame);
        forall k | 0 <= k < |now|
          ensures options[k] == TypedChoice(now[k], frames, displayName, guessFieldType)
        {
          if k >= |done| {
            assert now[k] == FieldAt(frame, frame.fields[k - |done|]);
          }
        }
      }
      assert frames[..|frames|] == frames;
      assert options == TypedChoices(FieldsOf(frames), frames, displayName, guessFieldType);
    }
  }

  /** `findFirstNonTimeField`: scan frames, then fields, and stop at the first
      field that is not a time field. */
  method FindFirstNonTimeField(context: Option<Context>) returns (r: Option<NameAndType>)
    ensures r == FirstNonTimeField(ContextFrames(context))
  {
    if context.Some? && context.value.data.Some? {
      var frames := context.value.data.value;
      for i := 0 to |frames|
        invariant forall a, b :: 0 <= a < i && 0 <= b < |frames[a].fields| ==> frames[a].fields[b].fieldType == Time
      {
        var frame := frames[i];
        for j := 0 to |frame.fields|
          invariant forall b :: 0 <= b < j ==> frame.fields[b].fieldType == Time
        {
          if frame.fields[j].fieldType != Time {
            FirstNonTimeAt(frames, i, j);
            return Some(NameAndType(frame.fields[j].name, frame.fields[j].fieldType));
          }
        }
      }
      NoNonTimeField(frames);
    }
    return None;
  }

  /** A non-time field `j` of frame `i`, preceded in visiting order only by
      time fields, is the one `FirstNonTimeField` reports. */
  lemma FirstNonTimeAt(frames: seq<DataFrame>, i: nat, j: nat)
    requires i < |frames| && j < |frames[i].fields| && frames[i].fields[j].fieldType != Time
    requires forall a, b :: 0 <= a < i && 0 <= b < |frames[a].fields| ==> frames[a].fields[b].fieldType == Time
    requires forall b :: 0 <= b < j ==> frames[i].fields[b].fieldType == Time
    ensures FirstNonTimeField(frames) == Some(NameAndType(frames[i].fields[j].name, frames[i].fields[j].fieldType))
  {
    var ps := FieldsOf(frames);
    var before := FieldsOf(frames[..i]);
    var pos := FieldCount(frames[..i]) + j;
    FieldsOfAt(frames, i, j);
    FieldsOfLength(frames[..i]);
    assert frames == frames[..i] + frames[i..];
    FieldsOfAppend(frames[..i], frames[i..]);
    assert frames[i..][0] == frames[i];
    var p := (q: FieldAt) => q.field.fieldType != Time;
    forall k | 0 <= k < pos
      ensures !p(ps[k])
    {
      if k < |before| {
        FieldsOfMember(frames[..i], k);
        var a, b :| 0 <= a < i && 0 <= b < |frames[..i][a].fields| &&
                    before[k] == FieldAt(frames[..i][a], frames[..i][a].fields[b]);
        assert frames[..i][a] == frames[a];
        assert ps[k] == before[k];
      } else {
        assert ps[k] == FieldsIn(frames[i])[k - |before|];
      }
    }
    assert p(ps[pos]);
  }

  /** When every field is a time field there is no first non-time field. */
  lemma NoNonTimeField(frames: seq<DataFrame>)
    requires forall a, b :: 0 <= a < |frames| && 0 <= b < |frames[a].fields| ==> frames[a].fields[b].fieldType == Time
    ensures FirstNonTimeField(frames) == None
  {
    var ps := FieldsOf(frames);
    forall k | 0 <= k < |ps|
      ensures ps[k].field.fieldType == Time
    {
      FieldsOfMember(frames, k);
    }
  }
}
