/** `Generated`: the settings of the queries Querqy generates from
    rewrites, the fields they search with their boosts and the factor by
    which those boosts are multiplied. */
module GeneratedQueries {
  import opened Wrappers
  import opened JavaLang
  import opened Exceptions
  import opened Values
  import opened Collections
  import opened Streams
  import opened RequestUtils
  import opened FieldBoostStreams

  /** The fields of a `Generated`; `null` is `None`. `equals` compares
      both. */
  datatype GeneratedState = GeneratedState(fields: Option<QueryFields>, fieldBoostFactor: Option<Float32>)

  /** `order` is the iteration order of the field map, if there is one. */
  predicate OrderOf(s: GeneratedState, order: seq<string>) {
    s.fields.Some? ==> Enumerates(order, s.fields.value)
  }

  /** The number of fields `writeTo` announces: 0 for a `null` map. */
  function FieldCount(s: GeneratedState): nat {
    if s.fields.None? then 0 else |s.fields.value|
  }

  /** `getQueryFieldsAndBoostings`: an empty map stands in for `null`. */
  function QueryFieldsAndBoostings(s: GeneratedState): (r: QueryFields)
    ensures s.fields.None? ==> r == map[]
    ensures s.fields.Some? ==> r == s.fields.value
  {
    if s.fields.None? then map[] else s.fields.value
  }

  /** `writeTo`: the field count, the fields when there are any, then the
      optional boost factor. */
  function Write(s: GeneratedState, order: seq<string>): Stream
    requires OrderOf(s, order)
  {
    WriteInt(FieldCount(s))
    + (if FieldCount(s) > 0 then EntriesStream(order, s.fields.value) else [])
    + WriteOptionalFloat(s.fieldBoostFactor)
  }

  /** `new Generated(in)`: a map is built only for a positive count; for
      any other count the fields stay `null`. */
  function Read(st: Stream): Result<(GeneratedState, Stream), JavaException> {
    var (count, st1) :- Expect(ReadInt(st));
    var (fields, st2) :-
      if count > 0 then
        var (entries, st2) :- Expect(ReadEntries(st1, count, map[]));
        Success((Some(entries), st2))
      else Success((None, st1));
    var (fieldBoostFactor, st3) :- Expect(ReadOptionalFloat(st2));
    Success((GeneratedState(fields, fieldBoostFactor), st3))
  }

  /** What a written `Generated` reads back as: an empty map is written like
      a missing one and comes back as `null`. */
  function Normalised(s: GeneratedState): GeneratedState {
    if s.fields == Some(map[]) then s.(fields := None) else s
  }

  lemma ReadSteps(st: Stream, count: int, st1: Stream, fields: Option<QueryFields>, st2: Stream,
                  fieldBoostFactor: Option<Float32>, st3: Stream)
    requires ReadInt(st) == Some((count, st1))
    requires count > 0 ==> fields.Some? && ReadEntries(st1, count, map[]) == Some((fields.value, st2))
    requires count <= 0 ==> fields.None? && st2 == st1
    requires ReadOptionalFloat(st2) == Some((fieldBoostFactor, st3))
    ensures Read(st) == Success((GeneratedState(fields, fieldBoostFactor), st3))
  {
  }

  /** The stream round trip keeps everything but the difference between an
      empty and a missing field map; so it gives back an equal `Generated`
      exactly when the map is not empty. */
  lemma StreamRoundTrip(s: GeneratedState, order: seq<string>, rest: Stream)
    requires OrderOf(s, order)
    ensures Read(Write(s, order) + rest) == Success((Normalised(s), rest))
    ensures Read(Write(s, order) + rest) == Success((s, rest)) <==> s.fields != Some(map[])
  {
    var n := FieldCount(s);
    var entries := if n > 0 then EntriesStream(order, s.fields.value) else [];
    var tail := WriteOptionalFloat(s.fieldBoostFactor) + rest;
    Associative(WriteInt(n) + entries, WriteOptionalFloat(s.fieldBoostFactor), rest);
    Associative(WriteInt(n), entries, tail);
    IntRoundTrip(n, entries + tail);
    OptionalFloatRoundTrip(s.fieldBoostFactor, rest);
    if n > 0 {
      FieldsRoundTrip(order, s.fields.value, tail);
      ReadSteps(Write(s, order) + rest, n, entries + tail, s.fields, tail, s.fieldBoostFactor, rest);
    } else {
      assert entries + tail == tail;
      ReadSteps(Write(s, order) + rest, n, entries + tail, None, tail, s.fieldBoostFactor, rest);
    }
  }

  /** Seen through `getQueryFieldsAndBoostings`, the round trip loses
      nothing. */
  lemma RoundTripKeepsQueryFields(s: GeneratedState, order: seq<string>, rest: Stream)
    requires OrderOf(s, order)
    ensures Read(Write(s, order) + rest).Success?
    ensures QueryFieldsAndBoostings(Read(Write(s, order) + rest).value.0) == QueryFieldsAndBoostings(s)
    ensures Read(Write(s, order) + rest).value.0.fieldBoostFactor == s.fieldBoostFactor
  {
    StreamRoundTrip(s, order, rest);
  }

  /** The text of one field in `toXContent`: the bare name for boost 1,
      otherwise `name^boost`. */
  function FieldText(name: string, boost: Float32, floatToString: Float32 -> string): string {
    if boost == FLOAT_ONE then name else name + "^" + floatToString(boost)
  }

  /** `toXContent`: `query_fields` when there are fields, in the map's
      iteration order, then `field_boost_factor` when it is set. */
  function ToXContent(s: GeneratedState, order: seq<string>, floatToString: Float32 -> string): (fields: seq<(string, Value)>)
    requires OrderOf(s, order)
    ensures var hasFields := s.fields.Some? && s.fields.value != map[];
      && |fields| == (if hasFields then 1 else 0) + (if s.fieldBoostFactor.Some? then 1 else 0)
      && (hasFields ==>
            && fields[0].0 == "query_fields" && fields[0].1.List? && |fields[0].1.items| == |order|
            && forall i :: 0 <= i < |order| ==>
                 fields[0].1.items[i] == Str(FieldText(order[i], s.fields.value[order[i]], floatToString)))
      && (s.fieldBoostFactor.Some? ==> fields[|fields| - 1] == ("field_boost_factor", Float(s.fieldBoostFactor.value)))
  {
    (if s.fields.Some? && s.fields.value != map[] then
       [("query_fields", List(seq(|order|, i requires 0 <= i < |order| => Str(FieldText(order[i], s.fields.value[order[i]], floatToString)))))]
     else [])
    + (if s.fieldBoostFactor.Some? then [("field_boost_factor", Float(s.fieldBoostFactor.value))] else [])
  }

  class Generated {
    var fields: Option<QueryFields>
    var fieldBoostFactor: Option<Float32>

    function State(): GeneratedState
      reads this
    {
      GeneratedState(fields, fieldBoostFactor)
    }

    /** `new Generated()`: neither fields nor boost factor. */
    constructor ()
      ensures State() == GeneratedState(None, None)
    {
      fields, fieldBoostFactor := None, None;
    }

    /** `new Generated(queryFieldsAndBoostings)`, which throws what the
        parsing of the list throws. */
    static method WithFields(queryFieldsAndBoostings: Option<seq<string>>, parseFloat: FloatParser)
      returns (r: Result<Generated, JavaException>)
      ensures QueryFieldsAndBoosting(queryFieldsAndBoostings, parseFloat).Failure? ==>
        r == Failure(QueryFieldsAndBoosting(queryFieldsAndBoostings, parseFloat).error)
      ensures QueryFieldsAndBoosting(queryFieldsAndBoostings, parseFloat).Success? ==>
        && r.Success? && fresh(r.value)
        && r.value.State() == GeneratedState(Some(QueryFieldsAndBoosting(queryFieldsAndBoostings, parseFloat).value), None)
    {
      var g := new Generated();
      var outcome := g.SetQueryFieldsAndBoostings(queryFieldsAndBoostings, parseFloat);
      if outcome.Fail? {
        return Failure(outcome.error);
      }
      return Success(g);
    }

    /** `new Generated(in)`. */
    static method ReadFrom(st: Stream) returns (r: Result<Generated, JavaException>, rest: Stream)
      ensures Read(st).Failure? ==> r == Failure(Read(st).error)
      ensures Read(st).Success? ==>
        r.Success? && fresh(r.value) && r.value.State() == Read(st).value.0 && rest == Read(st).value.1
    {
      var count := ReadInt(st);
      if count.None? {
        return Failure(MALFORMED_STREAM), st;
      }
      var fields: Option<QueryFields> := None;
      var st2 := count.value.1;
      if count.value.0 > 0 {
        var entries := ReadEntriesLoop(count.value.1, count.value.0);
        if entries.None? {
          return Failure(MALFORMED_STREAM), st;
        }
        fields, st2 := Some(entries.value.0), entries.value.1;
      }
      var fieldBoostFactor := ReadOptionalFloat(st2);
      if fieldBoostFactor.None? {
        return Failure(MALFORMED_STREAM), st;
      }
      var g := new Generated();
      g.fields, g.fieldBoostFactor := fields, fieldBoostFactor.value.0;
      return Success(g), fieldBoostFactor.value.1;
    }

    /** `writeTo`, given the iteration order of the field map. */
    method WriteTo(order: seq<string>) returns (st: Stream)
      requires OrderOf(State(), order)
      ensures st == Write(State(), order)
    {
      var numFields := if fields.None? then 0 else |fields.value|;
      st := WriteInt(numFields);
      if numFields > 0 {
        var entries := WriteEntries(order, fields.value);
        st := st + entries;
      }
      st := st + WriteOptionalFloat(fieldBoostFactor);
    }

    /** `setQueryFieldsAndBoostings`: the parsed list, an empty map for
        `null`; nothing changes when parsing throws. */
    method SetQueryFieldsAndBoostings(queryFieldsAndBoostings: Option<seq<string>>, parseFloat: FloatParser)
      returns (outcome: Outcome<JavaException>)
      modifies this
      ensures QueryFieldsAndBoosting(queryFieldsAndBoostings, parseFloat).Failure? ==>
        outcome == Fail(QueryFieldsAndBoosting(queryFieldsAndBoostings, parseFloat).error) && State() == old(State())
      ensures QueryFieldsAndBoosting(queryFieldsAndBoostings, parseFloat).Success? ==>
        outcome == Pass && State() == old(State()).(fields := Some(QueryFieldsAndBoosting(queryFieldsAndBoostings, parseFloat).value))
    {
      var parsed := ParamToQueryFieldsAndBoosting(queryFieldsAndBoostings, parseFloat);
      if parsed.Failure? {
        return Fail(parsed.error);
      }
      fields := Some(parsed.value);
      return Pass;
    }

    method SetFieldBoostFactor(fieldBoostFactor: Option<Float32>)
      modifies this
      ensures State() == old(State()).(fieldBoostFactor := fieldBoostFactor)
    {
      this.fieldBoostFactor := fieldBoostFactor;
    }
  }
}
