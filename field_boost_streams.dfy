/** The stream form of a field-to-boost map, shared by `PhraseBoostDefinition`
    and `Generated`: after the count, one name and one boost per entry, in
    the map's iteration order; read back by successive `put`s. */
module FieldBoostStreams {
  import opened Wrappers
  import opened JavaLang
  import opened Collections
  import opened Streams
  import opened RequestUtils

  /** `order` is an iteration order of `fields`: each key exactly once. A
      `HashMap`'s order is not specified, so the model takes it as given. */
  predicate Enumerates(order: seq<string>, fields: QueryFields) {
    && Distinct(order)
    && |order| == |fields|
    && (forall k :: k in order ==> k in fields)
    && (forall k :: k in fields ==> k in order)
  }

  /** The name and the boost of the entries in `order`. */
  function EntriesStream(order: seq<string>, fields: QueryFields): Stream
    requires forall k :: k in order ==> k in fields
  {
    if order == [] then []
    else WriteString(order[0]) + WriteFloat(fields[order[0]]) + EntriesStream(order[1..], fields)
  }

  /** The entries of `fields` named in `order`. */
  function Restricted(fields: QueryFields, order: seq<string>): QueryFields
    requires forall k :: k in order ==> k in fields
  {
    map k | k in order :: fields[k]
  }

  /** Reading `count` entries and putting each into `into`, in turn. */
  function ReadEntries(st: Stream, count: nat, into: QueryFields): Option<(QueryFields, Stream)> {
    if count == 0 then Some((into, st))
    else
      var (name, st1) :- ReadString(st);
      var (boost, st2) :- ReadFloat(st1);
      ReadEntries(st2, count - 1, into[name := boost])
  }

  lemma {:induction false} EntriesStreamSnoc(order: seq<string>, k: string, fields: QueryFields)
    requires forall j :: j in order ==> j in fields
    requires k in fields
    ensures EntriesStream(order + [k], fields) == EntriesStream(order, fields) + WriteString(k) + WriteFloat(fields[k])
  {
    if order == [] {
      assert order + [k] == [k];
      assert [k][1..] == [];
    } else {
      assert (order + [k])[1..] == order[1..] + [k];
      EntriesStreamSnoc(order[1..], k, fields);
    }
  }

  /** Reading one written entry puts it and goes on with the rest. */
  lemma ReadEntriesStep(k: string, boost: Float32, tail: Stream, count: nat, into: QueryFields)
    ensures ReadEntries(WriteString(k) + (WriteFloat(boost) + tail), count + 1, into)
      == ReadEntries(tail, count, into[k := boost])
  {
    StringRoundTrip(k, WriteFloat(boost) + tail);
    FloatRoundTrip(boost, tail);
  }

  lemma RestrictedCons(fields: QueryFields, order: seq<string>, into: QueryFields)
    requires order != [] && forall k :: k in order ==> k in fields
    ensures into[order[0] := fields[order[0]]] + Restricted(fields, order[1..]) == into + Restricted(fields, order)
  {
  }

  /** Reading back the written entries puts each of them, whatever the
      reader had already, and leaves what follows. */
  lemma {:induction false} EntriesRoundTrip(order: seq<string>, fields: QueryFields, into: QueryFields, rest: Stream)
    requires forall k :: k in order ==> k in fields
    ensures ReadEntries(EntriesStream(order, fields) + rest, |order|, into) == Some((into + Restricted(fields, order), rest))
  {
    if order == [] {
      assert Restricted(fields, order) == map[];
      assert into + map[] == into;
      assert EntriesStream(order, fields) + rest == rest;
    } else {
      var k := order[0];
      var tail := EntriesStream(order[1..], fields) + rest;
      assert EntriesStream(order, fields) + rest == WriteString(k) + (WriteFloat(fields[k]) + tail);
      ReadEntriesStep(k, fields[k], tail, |order[1..]|, into);
      EntriesRoundTrip(order[1..], fields, into[k := fields[k]], rest);
      RestrictedCons(fields, order, into);
    }
  }

  /** With an iteration order of the whole map, the map is read back. */
  lemma FieldsRoundTrip(order: seq<string>, fields: QueryFields, rest: Stream)
    requires Enumerates(order, fields)
    ensures ReadEntries(EntriesStream(order, fields) + rest, |fields|, map[]) == Some((fields, rest))
  {
    EntriesRoundTrip(order, fields, map[], rest);
    assert map[] + Restricted(fields, order) == fields;
  }

  /** The loop of `writeTo` over the entry set. */
  method WriteEntries(order: seq<string>, fields: QueryFields) returns (st: Stream)
    requires Enumerates(order, fields)
    ensures st == EntriesStream(order, fields)
  {
    st := [];
    for i := 0 to |order|
      invariant st == EntriesStream(order[..i], fields)
    {
      EntriesStreamSnoc(order[..i], order[i], fields);
      assert order[..i + 1] == order[..i] + [order[i]];
      st := st + WriteString(order[i]) + WriteFloat(fields[order[i]]);
    }
    assert order[..|order|] == order;
  }

  /** The loop of the reading constructors: `count` times a name and a
      boost, each put into the map; a negative count reads nothing. */
  method ReadEntriesLoop(st: Stream, count: int) returns (r: Option<(QueryFields, Stream)>)
    ensures r == ReadEntries(st, if count < 0 then 0 else count, map[])
  {
    var fields: QueryFields := map[];
    var rest := st;
    var i := 0;
    while i < count
      invariant 0 <= i && (count >= 0 ==> i <= count)
      invariant ReadEntries(st, if count < 0 then 0 else count, map[]) == ReadEntries(rest, if count < 0 then 0 else count - i, fields)
    {
      var name := ReadString(rest);
      if name.None? {
        return None;
      }
      var boost := ReadFloat(name.value.1);
      if boost.None? {
        return None;
      }
      fields := fields[name.value.0 := boost.value.0];
      rest := boost.value.1;
      i := i + 1;
    }
    return Some((fields, rest));
  }
}
