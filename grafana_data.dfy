/** The part of Grafana's data model that the panel reads: typed columns
    ("fields") grouped in frames ("series"). */
module GrafanaData {
  import opened Wrappers

  datatype FieldType = Time | Number | String | Boolean | Trace | Other

  /** A column: its `name`, its `type`, the value of its `name` label when it
      has one, and its cells in row order. */
  datatype Field = Field(name: string, fieldType: FieldType, labelName: Option<string>, values: seq<string>)

  /** One series of the query result. */
  datatype DataFrame = DataFrame(name: Option<string>, fields: seq<Field>)

  /** Grafana guarantees that every field of a frame has the frame's length. */
  predicate Rectangular(frame: DataFrame) {
    forall k :: 0 <= k < |frame.fields| ==> |frame.fields[k].values| == |frame.fields[0].values|
  }

  /** A field together with the frame it belongs to. */
  datatype FieldAt = FieldAt(frame: DataFrame, field: Field)

  /** The fields of one frame, in order. */
  function FieldsIn(frame: DataFrame): seq<FieldAt> {
    seq(|frame.fields|, j requires 0 <= j < |frame.fields| => FieldAt(frame, frame.fields[j]))
  }

  /** Every field of every frame: frames in order, and fields in order within
      each frame (the visiting order of a `for frame / for field` loop). */
  function FieldsOf(frames: seq<DataFrame>): seq<FieldAt> {
    if frames == [] then [] else FieldsIn(frames[0]) + FieldsOf(frames[1..])
  }

  /** The total number of fields over all frames. */
  function FieldCount(frames: seq<DataFrame>): nat {
    if frames == [] then 0 else |frames[0].fields| + FieldCount(frames[1..])
  }

  lemma {:induction false} FieldsOfLength(frames: seq<DataFrame>)
    ensures |FieldsOf(frames)| == FieldCount(frames)
  {
    if frames != [] {
      FieldsOfLength(frames[1..]);
    }
  }

  lemma {:induction false} FieldsOfAppend(a: seq<DataFrame>, b: seq<DataFrame>)
    ensures FieldsOf(a + b) == FieldsOf(a) + FieldsOf(b)
  {
    if a == [] {
      assert a + b == b;
    } else {
      assert (a + b)[0] == a[0];
      assert (a + b)[1..] == a[1..] + b;
      FieldsOfAppend(a[1..], b);
    }
  }

  /** Visiting the frames one more step adds exactly that frame's fields. */
  lemma FieldsOfPrefix(frames: seq<DataFrame>, i: nat)
    requires i < |frames|
    ensures FieldsOf(frames[..i + 1]) == FieldsOf(frames[..i]) + FieldsIn(frames[i])
  {
    assert frames[..i + 1] == frames[..i] + [frames[i]];
    FieldsOfAppend(frames[..i], [frames[i]]);
    assert [frames[i]][1..] == [];
  }

  /** Field `j` of frame `i` sits at position FieldCount(frames[..i]) + j of
      the flattened sequence. */
  lemma {:induction false} FieldsOfAt(frames: seq<DataFrame>, i: nat, j: nat)
    requires i < |frames| && j < |frames[i].fields|
    ensures FieldCount(frames[..i]) + j < |FieldsOf(frames)|
    ensures FieldsOf(frames)[FieldCount(frames[..i]) + j] == FieldAt(frames[i], frames[i].fields[j])
  {
    FieldsOfLength(frames[1..]);
    if i == 0 {
      assert frames[..0] == [];
    } else {
      FieldsOfAt(frames[1..], i - 1, j);
      assert frames[..i][0] == frames[0];
      assert frames[..i][1..] == frames[1..][..i - 1];
    }
  }

  /** Every position of the flattened sequence holds some field `b` of some
      frame `a`. */
  lemma {:induction false} FieldsOfMember(frames: seq<DataFrame>, k: nat)
    requires k < |FieldsOf(frames)|
    ensures exists a, b :: 0 <= a < |frames| && 0 <= b < |frames[a].fields| &&
                           FieldsOf(frames)[k] == FieldAt(frames[a], frames[a].fields[b])
  {
    var n := |frames[0].fields|;
    if k < n {
      assert FieldsOf(frames)[k] == FieldAt(frames[0], frames[0].fields[k]);
    } else {
      FieldsOfMember(frames[1..], k - n);
      var a, b :| 0 <= a < |frames| - 1 && 0 <= b < |frames[1..][a].fields| &&
                  FieldsOf(frames[1..])[k - n] == FieldAt(frames[1..][a], frames[1..][a].fields[b]);
      assert FieldsOf(frames)[k] == FieldAt(frames[a + 1], frames[a + 1].fields[b]);
    }
  }
}
