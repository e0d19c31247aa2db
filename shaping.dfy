/**
 * What `insertToNotion` and `insertToNotion_gongzi` do to the records before
 * sending them: flatten records that carry a nested `data` list, and turn
 * the `标签` of a salary record into the `{name: ..}` objects of a Notion
 * multi-select.
 */
module Shaping {
  import opened Json

  const DataField: string := "data"
  const TagField: string := "标签"
  const NameKey: string := "name"

  /** One record's contribution to the flat list: its nested records, or itself. */
  function Expand(e: Record): seq<Record> {
    if DataField in e && e[DataField].RecordList? then e[DataField].records else [e]
  }

  /** The flat list the insert loops walk. */
  function Flattened(es: seq<Record>): seq<Record>
    decreases |es|
  {
    if es == [] then [] else Expand(es[0]) + Flattened(es[1..])
  }

  /** Flattening a concatenation flattens each part. */
  lemma {:induction false} FlattenedAppend(a: seq<Record>, b: seq<Record>)
    ensures Flattened(a + b) == Flattened(a) + Flattened(b)
    decreases |a|
  {
    if a == [] {
      assert a + b == b;
    } else {
      assert (a + b)[1..] == a[1..] + b;
      FlattenedAppend(a[1..], b);
    }
  }

  /** A single record flattens to its own contribution. */
  lemma FlattenedSingle(e: Record)
    ensures Flattened([e]) == Expand(e)
  {
    assert [e][1..] == [];
  }

  /** The flattening loop of both insert helpers. */
  method Flatten(expenses: seq<Record>) returns (flat: seq<Record>)
    ensures flat == Flattened(expenses)
  {
    flat := [];
    for i := 0 to |expenses|
      invariant flat == Flattened(expenses[..i])
    {
      var expense := expenses[i];
      if DataField in expense && expense[DataField].RecordList? {
        flat := flat + expense[DataField].records;
      } else {
        flat := flat + [expense];
      }
      assert expenses[..i + 1] == expenses[..i] + [expense];
      FlattenedAppend(expenses[..i], [expense]);
      FlattenedSingle(expense);
    }
    assert expenses[..|expenses|] == expenses;
  }

  /** A record with a nested record list is replaced by those records, in order; every other record stays in place. */
  lemma {:induction false} FlattenedSplices(a: seq<Record>, e: Record, b: seq<Record>)
    ensures Flattened(a + [e] + b) == Flattened(a) + Expand(e) + Flattened(b)
  {
    FlattenedAppend(a + [e], b);
    FlattenedAppend(a, [e]);
    FlattenedSingle(e);
  }

  /** Records decoded from JSON never carry a record list, so flattening leaves them as they are. */
  lemma {:induction false} FlattenDecodedIsIdentity(es: seq<Record>)
    requires forall i | 0 <= i < |es| :: DecodedRecord(es[i])
    ensures Flattened(es) == es
    decreases |es|
  {
    if es != [] {
      assert DecodedRecord(es[0]);
      if DataField in es[0] {
        assert Decoded(es[0][DataField]);
      }
      FlattenDecodedIsIdentity(es[1..]);
      assert [es[0]] + es[1..] == es;
    }
  }

  /** The `{name: tag}` objects for a tag value: one per element of a list, else exactly one. */
  function TagObjects(tag: Value): seq<Record> {
    if tag.Array? then seq(|tag.items|, i requires 0 <= i < |tag.items| => map[NameKey := tag.items[i]])
    else [map[NameKey := tag]]
  }

  /** The names the objects carry, read back. */
  function TagNames(objs: seq<Record>): seq<Value> {
    seq(|objs|, i requires 0 <= i < |objs| => Lookup(objs[i], NameKey))
  }

  /** Every tag object holds only the `name` key. */
  lemma TagObjectsShape(tag: Value)
    ensures forall i | 0 <= i < |TagObjects(tag)| :: TagObjects(tag)[i].Keys == {NameKey}
  {
  }

  /** Reading the names back gives the list's elements in order, or the single non-list value. */
  lemma TagNamesRecovered(tag: Value)
    ensures TagNames(TagObjects(tag)) == if tag.Array? then tag.items else [tag]
  {
  }

  /** The tag loop of `insertToNotion_gongzi`; an absent `标签` reads as nil. */
  method ShapeTags(entry: Record) returns (tags: seq<Record>)
    ensures tags == TagObjects(Lookup(entry, TagField))
  {
    tags := [];
    var tag := Lookup(entry, TagField);
    if tag.Array? {
      for i := 0 to |tag.items|
        invariant tags == TagObjects(Lookup(entry, TagField))[..i]
      {
        tags := tags + [map[NameKey := tag.items[i]]];
      }
    } else {
      tags := tags + [map[NameKey := tag]];
    }
  }
}
