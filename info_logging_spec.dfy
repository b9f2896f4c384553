/** `InfoLoggingSpec`, the `info_logging` part of a query: which payload to
    log (`LogPayloadType`), under which id, and whether the message was
    already logged in this request. */
module InfoLoggingSpecs {
  import opened Wrappers
  import opened JavaLang
  import opened Exceptions
  import opened Values
  import opened Streams

  /** `LogPayloadType`. */
  datatype LogPayloadType = NONE | REWRITER_ID | DETAIL {
    /** The constant's `name()`. */
    function Name(): string {
      match this
      case NONE => "NONE"
      case REWRITER_ID => "REWRITER_ID"
      case DETAIL => "DETAIL"
    }
  }

  /** The payload type `setPayloadType(typeName)` selects: `NONE` for `null`,
      otherwise the constant whose name is the upper-cased string. */
  function PayloadTypeOf(typeName: Option<string>): (r: Result<LogPayloadType, JavaException>)
    ensures typeName.None? ==> r == Success(NONE)
    ensures typeName.Some? ==>
      && (r.Success? <==> exists t: LogPayloadType :: ToUpperAscii(typeName.value) == t.Name())
      && (r.Success? ==> ToUpperAscii(typeName.value) == r.value.Name())
      && (r.Failure? ==> r.error == IllegalArgument("Invalid payload type " + typeName.value))
  {
    if typeName.None? then Success(NONE)
    else
      var upper := ToUpperAscii(typeName.value);
      if upper == NONE.Name() then Success(NONE)
      else if upper == REWRITER_ID.Name() then Success(REWRITER_ID)
      else if upper == DETAIL.Name() then Success(DETAIL)
      else
        assert forall t: LogPayloadType :: upper != t.Name();
        Failure(IllegalArgument("Invalid payload type " + typeName.value))
  }

  /** Every constant is selected by its own name, whatever the case of its
      letters. */
  lemma PayloadTypeNamesRoundTrip(t: LogPayloadType, s: string)
    requires ToUpperAscii(s) == t.Name()
    ensures PayloadTypeOf(Some(s)) == Success(t)
    ensures PayloadTypeOf(Some(t.Name())) == Success(t)
  {
    UpperOfUpperName(t);
  }

  /** The names are already upper case. */
  lemma UpperOfUpperName(t: LogPayloadType)
    ensures ToUpperAscii(t.Name()) == t.Name()
  {
    var n := t.Name();
    assert forall i :: 0 <= i < |n| ==> UpperAscii(n[i]) == n[i];
  }

  /** A lower-case spelling is accepted. */
  lemma LowerCaseAccepted()
    ensures PayloadTypeOf(Some("rewriter_id")) == Success(REWRITER_ID)
  {
    var s := "rewriter_id";
    assert ToUpperAscii(s) == "REWRITER_ID" by {
      assert forall i :: 0 <= i < |s| ==> ToUpperAscii(s)[i] == UpperAscii(s[i]);
    }
  }

  /** The fields of a spec as a value: `id`, `payloadType` and `logged`
      (`null`, `true` or `false`). */
  datatype SpecState = SpecState(id: Option<string>, payloadType: LogPayloadType, logged: Option<bool>) {
    /** `equals`, which leaves out `logged` so that a spec can serve as a
        cache key whatever its logging state. */
    predicate Equals(that: SpecState) {
      id == that.id && payloadType == that.payloadType
    }

    /** `hashCode`, `Objects.hash(id, payloadType)`; the enum constants'
        identity hash codes are a parameter. */
    function HashCode(enumHash: LogPayloadType -> int): int {
      var idHash := if id.Some? then StringHash(id.value) else 0;
      WrapInt32(31 * (31 + idHash) + enumHash(payloadType))
    }

    /** `isLogged`. */
    predicate IsLogged() {
      logged == Some(true)
    }
  }

  /** Equality is an equivalence that does not see `logged`, and equal specs
      hash alike. */
  lemma EqualsIgnoresLogged(a: SpecState, b: SpecState, l: Option<bool>, enumHash: LogPayloadType -> int)
    ensures a.Equals(a.(logged := l))
    ensures a.Equals(b) <==> a.(logged := None) == b.(logged := None)
    ensures a.Equals(b) ==> b.Equals(a) && a.HashCode(enumHash) == b.HashCode(enumHash)
  {
  }

  /** `writeTo`: the optional id, the type's name, the optional `logged`. */
  function Write(s: SpecState): Stream {
    WriteOptionalString(s.id) + WriteString(s.payloadType.Name()) + WriteOptionalBoolean(s.logged)
  }

  /** `new InfoLoggingSpec(in)`: read in the same order, the type through
      `setPayloadType`. */
  function Read(st: Stream): Result<(SpecState, Stream), JavaException> {
    var (id, st1) :- Expect(ReadOptionalString(st));
    var (typeName, st2) :- Expect(ReadString(st1));
    var payloadType :- PayloadTypeOf(Some(typeName));
    var (logged, st3) :- Expect(ReadOptionalBoolean(st2));
    Success((SpecState(id, payloadType, logged), st3))
  }

  /** Reading back what was written gives the same id, payload type and
      `logged`, and leaves what follows. */
  lemma StreamRoundTrip(s: SpecState, rest: Stream)
    ensures Read(Write(s) + rest) == Success((s, rest))
  {
    var w1, w2, w3 := WriteOptionalString(s.id), WriteString(s.payloadType.Name()), WriteOptionalBoolean(s.logged);
    assert Write(s) + rest == w1 + (w2 + (w3 + rest));
    OptionalStringRoundTrip(s.id, w2 + (w3 + rest));
    StringRoundTrip(s.payloadType.Name(), w3 + rest);
    PayloadTypeNamesRoundTrip(s.payloadType, s.payloadType.Name());
    OptionalBooleanRoundTrip(s.logged, rest);
  }

  /** `toXContent`: the object's fields in order; `id` only when set, `type`
      always, `_logged` only when set. */
  function ToXContent(s: SpecState): (fields: seq<(string, Value)>)
    ensures |fields| == 1 + (if s.id.Some? then 1 else 0) + (if s.logged.Some? then 1 else 0)
    ensures (s.id.Some? && fields[0] == ("id", Str(s.id.value))) || (s.id.None? && fields[0].0 == "type")
    ensures ("type", Str(s.payloadType.Name())) in fields
    ensures forall i :: 0 <= i < |fields| ==> fields[i].0 in {"id", "type", "_logged"}
    ensures s.logged.Some? ==> fields[|fields| - 1] == ("_logged", Bool(s.logged.value))
    ensures s.logged.None? ==> fields[|fields| - 1] == ("type", Str(s.payloadType.Name()))
  {
    (if s.id.Some? then [("id", Str(s.id.value))] else [])
    + [("type", Str(s.payloadType.Name()))]
    + (if s.logged.Some? then [("_logged", Bool(s.logged.value))] else [])
  }

  class InfoLoggingSpec {
    var id: Option<string>
    var payloadType: LogPayloadType
    /** Whether the message was already logged in this request, so that a
        query parsed twice on a node is logged once; not set by users. */
    var logged: Option<bool>

    function State(): SpecState
      reads this
    {
      SpecState(id, payloadType, logged)
    }

    /** `new InfoLoggingSpec()`. */
    constructor ()
      ensures State() == SpecState(None, NONE, None)
      ensures !State().IsLogged()
    {
      id := None;
      payloadType := NONE;
      logged := None;
    }

    /** `new InfoLoggingSpec(payloadType, id)`. */
    constructor WithType(payloadType: LogPayloadType, id: Option<string>)
      ensures State() == SpecState(id, payloadType, None)
    {
      this.id := id;
      this.payloadType := payloadType;
      logged := None;
    }

    /** `new InfoLoggingSpec(in)`. */
    static method ReadFrom(st: Stream) returns (r: Result<InfoLoggingSpec, JavaException>, rest: Stream)
      ensures Read(st).Failure? ==> r == Failure(Read(st).error)
      ensures Read(st).Success? ==>
        r.Success? && fresh(r.value) && r.value.State() == Read(st).value.0 && rest == Read(st).value.1
    {
      var read := Read(st);
      if read.Failure? {
        return Failure(read.error), st;
      }
      var spec := new InfoLoggingSpec();
      spec.id := read.value.0.id;
      spec.payloadType := read.value.0.payloadType;
      spec.logged := read.value.0.logged;
      return Success(spec), read.value.1;
    }

    method SetId(id: Option<string>)
      modifies this
      ensures State() == old(State()).(id := id)
    {
      this.id := id;
    }

    /** `setPayloadType`: a failed selection throws and leaves the type as
        it was. */
    method SetPayloadType(typeName: Option<string>) returns (outcome: Outcome<JavaException>)
      modifies this
      ensures match PayloadTypeOf(typeName)
        case Success(t) => outcome == Pass && State() == old(State()).(payloadType := t)
        case Failure(e) => outcome == Fail(e) && State() == old(State())
    {
      var selected := PayloadTypeOf(typeName);
      if selected.Failure? {
        return Fail(selected.error);
      }
      payloadType := selected.value;
      return Pass;
    }

    /** `setLogged`: afterwards `isLogged` is the given flag. */
    method SetLogged(logged: bool)
      modifies this
      ensures State() == old(State()).(logged := Some(logged))
      ensures State().IsLogged() == logged
      ensures State().Equals(old(State()))
    {
      this.logged := Some(logged);
    }
  }
}
