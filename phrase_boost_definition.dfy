/** `PhraseBoostDefinition`: the fields (with boosts) and the slop of one
    kind of phrase boosting. */
module PhraseBoostDefinitions {
  import opened Wrappers
  import opened JavaLang
  import opened Exceptions
  import opened Values
  import opened Collections
  import opened Streams
  import opened RequestUtils
  import opened FieldBoostStreams

  /** Querqy's `PhraseBoosting.NGramType`. */
  datatype NGramType = PHRASE | BI_GRAM | TRI_GRAM

  /** Querqy's `PhraseBoosting.PhraseBoostFieldParams`. */
  datatype PhraseBoostFieldParams = PhraseBoostFieldParams(fieldName: string, nGramType: NGramType, slop: int, boost: Float32)

  /** The fields of a definition as a value; `equals` compares both.
      `fields` is `null` until set. */
  datatype DefinitionState = DefinitionState(slop: int, fields: Option<QueryFields>)

  /** The iteration order of a definition's map, when it has one. */
  predicate OrderOf(s: DefinitionState, order: seq<string>) {
    s.fields.Some? ==> Enumerates(order, s.fields.value)
  }

  const NULL_OR_EMPTY_FIELDS := IllegalArgument("Query fields must not be null or empty")

  /** `setFields`: a null or empty list is rejected before the entries
      are parsed. */
  function CheckedFields(fields: Option<seq<string>>, parseFloat: FloatParser): (r: Result<QueryFields, JavaException>)
    ensures fields.None? || fields.value == [] ==> r == Failure(NULL_OR_EMPTY_FIELDS)
    ensures fields.Some? && fields.value != [] ==> r == AddEntries(fields.value, parseFloat)
    ensures r.Success? ==> r.value != map[]
  {
    if fields.None? || fields.value == [] then Failure(NULL_OR_EMPTY_FIELDS)
    else
      var qf :- AddEntries(fields.value, parseFloat);
      ParsedFields(fields.value, parseFloat);
      assert fields.value[0] in fields.value;
      Success(qf)
  }

  /** `toPhraseBoostFieldParams(nGramType)`: one parameter set per field;
      a definition without fields throws. */
  function FieldParams(s: DefinitionState, nGramType: NGramType, order: seq<string>): (r: Result<seq<PhraseBoostFieldParams>, JavaException>)
    requires OrderOf(s, order)
    ensures r.Failure? <==> s.fields.None?
    ensures r.Success? ==> |r.value| == |s.fields.value|
  {
    if s.fields.None? then Failure(JavaException(NullPointerException, ""))
    else
      var fields := s.fields.value;
      Success(seq(|order|, i requires 0 <= i < |order| => PhraseBoostFieldParams(order[i], nGramType, s.slop, fields[order[i]])))
  }

  /** Each field of the definition gets exactly one parameter set, with its
      boost, the definition's slop and the given n-gram type. */
  lemma FieldParamsContents(s: DefinitionState, nGramType: NGramType, order: seq<string>)
    requires OrderOf(s, order)
    requires s.fields.Some?
    ensures var r := FieldParams(s, nGramType, order).value;
      && (forall i :: 0 <= i < |r| ==>
            && r[i].fieldName in s.fields.value
            && r[i] == PhraseBoostFieldParams(r[i].fieldName, nGramType, s.slop, s.fields.value[r[i].fieldName]))
      && (forall k :: k in s.fields.value ==> exists i :: 0 <= i < |r| && r[i].fieldName == k)
      && (forall i, j :: 0 <= i < j < |r| ==> r[i].fieldName != r[j].fieldName)
  {
    var r := FieldParams(s, nGramType, order).value;
    assert forall i :: 0 <= i < |r| ==> r[i].fieldName == order[i];
    assert forall k :: k in s.fields.value ==> exists i :: 0 <= i < |order| && order[i] == k;
  }

  /** `toXContent`: `slop`, then `fields` as `name^boost` strings when
      there are any; the float's text is `Float.toString`, a parameter. */
  function ToXContent(s: DefinitionState, order: seq<string>, floatToString: Float32 -> string): (fields: seq<(string, Value)>)
    requires OrderOf(s, order)
    ensures |fields| == 1 || |fields| == 2
    ensures fields[0] == ("slop", Int(s.slop))
    ensures |fields| == 2 <==> s.fields.Some? && s.fields.value != map[]
    // One `name^boost` string per field, in the map's iteration order.
    ensures |fields| == 2 ==>
      && fields[1].0 == "fields" && fields[1].1.List? && |fields[1].1.items| == |order|
      && forall i :: 0 <= i < |order| ==>
           fields[1].1.items[i] == Str(order[i] + "^" + floatToString(s.fields.value[order[i]]))
  {
    if s.fields.None? || s.fields.value == map[] then [("slop", Int(s.slop))]
    else
      var qf := s.fields.value;
      var items := seq(|order|, i requires 0 <= i < |order| => Str(order[i] + "^" + floatToString(qf[order[i]])));
      [("slop", Int(s.slop)), ("fields", List(items))]
  }

  /** `writeTo`: slop, count, then the entries. A definition without
      fields cannot be written. */
  function Write(s: DefinitionState, order: seq<string>): Result<Stream, JavaException>
    requires OrderOf(s, order)
  {
    if s.fields.None? then Failure(JavaException(NullPointerException, ""))
    else Success(WriteInt(s.slop) + WriteInt(|s.fields.value|) + EntriesStream(order, s.fields.value))
  }

  /** `new PhraseBoostDefinition(in)`: slop, count, then the entries; the
      map is created with the count as its capacity, which must not be
      negative. */
  function Read(st: Stream): Result<(DefinitionState, Stream), JavaException> {
    var (slop, st1) :- Expect(ReadInt(st));
    var (count, st2) :- Expect(ReadInt(st1));
    if count < 0 then Failure(IllegalArgument("Illegal initial capacity: " + IntToString(count)))
    else
      var (fields, st3) :- Expect(ReadEntries(st2, count, map[]));
      Success((DefinitionState(slop, Some(fields)), st3))
  }

  /** A definition with fields is read back equal to itself, whatever the
      iteration order it was written in. */
  lemma StreamRoundTrip(s: DefinitionState, order: seq<string>, rest: Stream)
    requires OrderOf(s, order)
    ensures s.fields.None? <==> Write(s, order).Failure?
    ensures s.fields.Some? ==> Read(Write(s, order).value + rest) == Success((s, rest))
  {
    if s.fields.Some? {
      var fields := s.fields.value;
      var w1, w2, w3 := WriteInt(s.slop), WriteInt(|fields|), EntriesStream(order, fields);
      assert Write(s, order).value + rest == w1 + (w2 + (w3 + rest));
      IntRoundTrip(s.slop, w2 + (w3 + rest));
      IntRoundTrip(|fields|, w3 + rest);
      FieldsRoundTrip(order, fields, rest);
    }
  }

  class PhraseBoostDefinition {
    var slop: int
    var fields: Option<QueryFields>

    function State(): DefinitionState
      reads this
    {
      DefinitionState(slop, fields)
    }

    /** `new PhraseBoostDefinition()`: slop 0, no fields. */
    constructor ()
      ensures State() == DefinitionState(0, None)
    {
      slop, fields := 0, None;
    }

    /** `new PhraseBoostDefinition(slop, fields)`. */
    static method New(slop: int, fields: Option<seq<string>>, parseFloat: FloatParser)
      returns (r: Result<PhraseBoostDefinition, JavaException>)
      ensures CheckedFields(fields, parseFloat).Failure? ==> r == Failure(CheckedFields(fields, parseFloat).error)
      ensures CheckedFields(fields, parseFloat).Success? ==>
        r.Success? && fresh(r.value) && r.value.State() == DefinitionState(slop, Some(CheckedFields(fields, parseFloat).value))
    {
      var d := new PhraseBoostDefinition();
      d.SetSlop(slop);
      var outcome := d.SetFields(fields, parseFloat);
      if outcome.Fail? {
        return Failure(outcome.error);
      }
      return Success(d);
    }

    /** `new PhraseBoostDefinition(in)`, with the reading loop. */
    static method ReadFrom(st: Stream) returns (r: Result<PhraseBoostDefinition, JavaException>, rest: Stream)
      ensures Read(st).Failure? ==> r == Failure(Read(st).error)
      ensures Read(st).Success? ==>
        r.Success? && fresh(r.value) && r.value.State() == Read(st).value.0 && rest == Read(st).value.1
    {
      var slop := ReadInt(st);
      if slop.None? {
        return Failure(MALFORMED_STREAM), st;
      }
      var count := ReadInt(slop.value.1);
      if count.None? {
        return Failure(MALFORMED_STREAM), st;
      }
      if count.value.0 < 0 {
        return Failure(IllegalArgument("Illegal initial capacity: " + IntToString(count.value.0))), st;
      }
      var entries := ReadEntriesLoop(count.value.1, count.value.0);
      if entries.None? {
        return Failure(MALFORMED_STREAM), st;
      }
      var d := new PhraseBoostDefinition();
      d.slop, d.fields := slop.value.0, Some(entries.value.0);
      return Success(d), entries.value.1;
    }

    method SetSlop(slop: int)
      modifies this
      ensures State() == old(State()).(slop := slop)
    {
      this.slop := slop;
    }

    /** `setFields`: the parsed entries replace the fields; a null, empty or
        malformed list throws and changes nothing. */
    method SetFields(fields: Option<seq<string>>, parseFloat: FloatParser) returns (outcome: Outcome<JavaException>)
      modifies this
      ensures CheckedFields(fields, parseFloat).Failure? ==>
        outcome == Fail(CheckedFields(fields, parseFloat).error) && State() == old(State())
      ensures CheckedFields(fields, parseFloat).Success? ==>
        outcome == Pass && State() == old(State()).(fields := Some(CheckedFields(fields, parseFloat).value))
    {
      if fields.None? || fields.value == [] {
        return Fail(NULL_OR_EMPTY_FIELDS);
      }
      var parsed := ParamToQueryFieldsAndBoosting(fields, parseFloat);
      if parsed.Failure? {
        return Fail(parsed.error);
      }
      this.fields := Some(parsed.value);
      return Pass;
    }

    /** `fields(String...)`: a null array throws before `setFields`. */
    method Fields(fields: Option<seq<string>>, parseFloat: FloatParser) returns (outcome: Outcome<JavaException>)
      modifies this
      ensures fields.None? ==> outcome == Fail(IllegalArgument("Query fields must not be null")) && State() == old(State())
      ensures fields.Some? && CheckedFields(fields, parseFloat).Failure? ==>
        outcome == Fail(CheckedFields(fields, parseFloat).error) && State() == old(State())
      ensures fields.Some? && CheckedFields(fields, parseFloat).Success? ==>
        outcome == Pass && State() == old(State()).(fields := Some(CheckedFields(fields, parseFloat).value))
    {
      if fields.None? {
        return Fail(IllegalArgument("Query fields must not be null"));
      }
      outcome := SetFields(fields, parseFloat);
    }

    /** `writeTo`, with the writing loop over the entries in `order`. */
    method WriteTo(order: seq<string>) returns (r: Result<Stream, JavaException>)
      requires OrderOf(State(), order)
      ensures r == Write(State(), order)
    {
      if fields.None? {
        return Failure(JavaException(NullPointerException, ""));
      }
      var entries := WriteEntries(order, fields.value);
      return Success(WriteInt(slop) + WriteInt(|fields.value|) + entries);
    }
  }
}
