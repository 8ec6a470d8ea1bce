/** What the editor's option lists guarantee: their length, their order, the
    entries they hold, the empty context, and how the icon field's sentinel
    lines up with the renderer's default. */
module OptionListProperties {
  import opened Wrappers
  import opened GrafanaData
  import opened Search
  import opened OptionLists
  import DynamicImagePanel

  /** `listFields` starts with `first`, then has one entry per field, whose
      value and label are both that field's display name. */
  lemma ListFieldsEntries(context: Option<Context>, first: Choice<string>,
                          displayName: (Field, DataFrame, seq<DataFrame>) -> string)
    ensures var frames := ContextFrames(context);
      var options := FieldOptions(context, first, displayName);
      var ps := FieldsOf(frames);
      && |options| == 1 + FieldCount(frames) && |ps| == FieldCount(frames)
      && options[0] == first
      && forall k :: 1 <= k < |options| ==>
           options[k].value == options[k].text == displayName(ps[k - 1].field, ps[k - 1].frame, frames)
  {
    FieldsOfLength(ContextFrames(context));
  }

  /** Entries follow frame order, then field order within each frame: field
      `j` of frame `i` comes after the sentinel and all fields of the frames
      before `i`. */
  lemma ListFieldsOrder(context: Option<Context>, first: Choice<string>,
                        displayName: (Field, DataFrame, seq<DataFrame>) -> string, i: nat, j: nat)
    requires i < |ContextFrames(context)| && j < |ContextFrames(context)[i].fields|
    ensures var frames := ContextFrames(context);
      var options := FieldOptions(context, first, displayName);
      var name := displayName(frames[i].fields[j], frames[i], frames);
      && 1 + FieldCount(frames[..i]) + j < |options|
      && options[1 + FieldCount(frames[..i]) + j] == Choice(name, name)
  {
    FieldsOfAt(ContextFrames(context), i, j);
  }

  /** `listFieldsNew` has no sentinel and one entry per field: the value is
      the display name with the guessed type, the label the display name. */
  lemma ListFieldsNewEntries(context: Option<Context>,
                             displayName: (Field, DataFrame, seq<DataFrame>) -> string,
                             guessFieldType: Field -> Option<FieldType>)
    ensures var frames := ContextFrames(context);
      var options := TypedFieldOptions(context, displayName, guessFieldType);
      var ps := FieldsOf(frames);
      && |options| == FieldCount(frames) && |ps| == FieldCount(frames)
      && forall k :: 0 <= k < |options| ==>
           && options[k].value.name == options[k].text == displayName(ps[k].field, ps[k].frame, frames)
           && options[k].value.fieldType == guessFieldType(ps[k].field)
  {
    FieldsOfLength(ContextFrames(context));
  }

  /** `listFieldsNew` visits the fields in the same order as `listFields`. */
  lemma ListFieldsNewOrder(context: Option<Context>,
                           displayName: (Field, DataFrame, seq<DataFrame>) -> string,
                           guessFieldType: Field -> Option<FieldType>, i: nat, j: nat)
    requires i < |ContextFrames(context)| && j < |ContextFrames(context)[i].fields|
    ensures var frames := ContextFrames(context);
      var options := TypedFieldOptions(context, displayName, guessFieldType);
      var field := frames[i].fields[j];
      var name := displayName(field, frames[i], frames);
      && FieldCount(frames[..i]) + j < |options|
      && options[FieldCount(frames[..i]) + j] == Choice(FieldRef(name, guessFieldType(field)), name)
  {
    FieldsOfAt(ContextFrames(context), i, j);
  }

  /** Without a context or without data, `listFields` is just the sentinel and
      `listFieldsNew` is empty; an empty frame list gives the same. */
  lemma AbsentContext(context: Option<Context>, first: Choice<string>,
                      displayName: (Field, DataFrame, seq<DataFrame>) -> string,
                      guessFieldType: Field -> Option<FieldType>)
    requires context.None? || context.value.data.None? || context.value.data == Some([])
    ensures FieldOptions(context, first, displayName) == [first]
    ensures TypedFieldOptions(context, displayName, guessFieldType) == []
  {
  }

  /** There is no first non-time field exactly when every field of every
      frame is a time field. */
  lemma {:induction false} FirstNonTimeFieldNone(frames: seq<DataFrame>)
    ensures FirstNonTimeField(frames) == None <==>
              forall a, b :: 0 <= a < |frames| && 0 <= b < |frames[a].fields| ==> frames[a].fields[b].fieldType == Time
  {
    if forall a, b :: 0 <= a < |frames| && 0 <= b < |frames[a].fields| ==> frames[a].fields[b].fieldType == Time {
      NoNonTimeField(frames);
    } else {
      var a, b :| 0 <= a < |frames| && 0 <= b < |frames[a].fields| && frames[a].fields[b].fieldType != Time;
      FieldsOfAt(frames, a, b);
      var ps := FieldsOf(frames);
      var p := (q: FieldAt) => q.field.fieldType != Time;
      assert p(ps[FieldCount(frames[..a]) + b]);
    }
  }

  /** The icon-field drop-down offers `''` first, which is also the option's
      default, and a panel left at that default looks up the icon with the
      empty name. */
  lemma IconSentinelIsDefault(context: Option<Context>,
                              displayName: (Field, DataFrame, seq<DataFrame>) -> string,
                              options: DynamicImagePanel.Options, fields: seq<Field>)
    requires options.iconField == IconFieldDefault
    ensures FieldOptions(context, IconFieldSentinel, displayName)[0].value == IconFieldDefault == ""
    ensures IconFieldSentinel.text == "First non time field"
    ensures var r := DynamicImagePanel.Resolve(options, fields);
      r.Success? ==> r.value.icon == DynamicImagePanel.FieldIndex("", fields)
  {
  }

  /** For a single frame whose fields all have a non-empty name and label,
      the field the renderer takes by default for the icon is the one
      `findFirstNonTimeField` reports. */
  lemma {:induction false} DefaultIconIsFirstNonTimeField(frame: DataFrame)
    requires forall j :: 0 <= j < |frame.fields| ==> frame.fields[j].name != "" && frame.fields[j].labelName != Some("")
    ensures var k := DynamicImagePanel.FieldIndex(IconFieldDefault, frame.fields);
      && (k == -1 <==> FirstNonTimeField([frame]) == None)
      && (0 <= k ==> FirstNonTimeField([frame]) == Some(NameAndType(frame.fields[k].name, frame.fields[k].fieldType)))
  {
    var k := DynamicImagePanel.FieldIndex(IconFieldDefault, frame.fields);
    assert forall j :: 0 <= j < |frame.fields| ==>
      (DynamicImagePanel.FieldMatches("", frame.fields[j]) <==> frame.fields[j].fieldType != Time);
    if k == -1 {
      NoNonTimeField([frame]);
    } else {
      FirstNonTimeAt([frame], 0, k);
      FirstNonTimeFieldNone([frame]);
    }
  }

  /** The alt-field and tooltip-field drop-downs offer `''` first, labelled
      "Use icon field", and a role left at that entry reads the icon column. */
  lemma UseIconSentinelReadsIconColumn(options: DynamicImagePanel.Options, fields: seq<Field>)
    requires DynamicImagePanel.Resolve(options, fields).Success?
    ensures UseIconFieldSentinel.text == "Use icon field"
    ensures var c := DynamicImagePanel.Resolve(options, fields).value;
      && (options.altField == UseIconFieldSentinel.value ==> c.alt == c.icon)
      && (options.tooltipField == UseIconFieldSentinel.value ==> c.tooltip == c.icon)
  {
  }
}
