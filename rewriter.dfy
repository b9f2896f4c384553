/** `Rewriter`, one entry of a query's rewriter list: a rewriter name and,
    optionally, request parameters for it. */
module Rewriters {
  import opened Wrappers
  import opened Exceptions
  import opened Values
  import opened Streams

  /** The fields of a rewriter as a value; `equals` and `hashCode` depend on
      exactly these two. */
  datatype RewriterState = RewriterState(name: Option<string>, params: Option<JavaMap>) {
    /** `isFragment`: a rewriter without parameters is written as a bare
        name. */
    predicate IsFragment() {
      params.None?
    }
  }

  /** The check of the two-argument constructor. */
  function NewRewriter(name: Option<string>, params: Option<JavaMap>): (r: Result<RewriterState, JavaException>)
    ensures r.Success? <==> name.Some?
    ensures r.Failure? ==> r.error == IllegalArgument("Missing rewriter name")
    ensures r.Success? ==> r.value.name == name && r.value.params == params
  {
    if name.None? then Failure(IllegalArgument("Missing rewriter name"))
    else Success(RewriterState(name, params))
  }

  /** `writeTo`: the name, a has-parameters flag, then the parameters when
      the flag is set. A missing name cannot be written. */
  function Write(s: RewriterState): Result<Stream, JavaException> {
    if s.name.None? then Failure(JavaException(NullPointerException, ""))
    else
      Success(WriteString(s.name.value)
        + (if s.params.Some? then WriteBoolean(true) + WriteMap(s.params.value) else WriteBoolean(false)))
  }

  /** `new Rewriter(in)`. */
  function Read(st: Stream): Result<(RewriterState, Stream), JavaException> {
    var (name, st1) :- Expect(ReadString(st));
    var (hasParams, st2) :- Expect(ReadBoolean(st1));
    if !hasParams then Success((RewriterState(Some(name), None), st2))
    else
      var (params, st3) :- Expect(ReadMap(st2));
      Success((RewriterState(Some(name), Some(params)), st3))
  }

  /** A named rewriter is read back equal to itself, with or without
      parameters, leaving what follows. */
  lemma StreamRoundTrip(s: RewriterState, rest: Stream)
    ensures s.name.None? <==> Write(s).Failure?
    ensures s.name.Some? ==> Read(Write(s).value + rest) == Success((s, rest))
  {
    if s.name.Some? {
      var w1 := WriteString(s.name.value);
      if s.params.Some? {
        var w2, w3 := WriteBoolean(true), WriteMap(s.params.value);
        assert Write(s).value + rest == w1 + (w2 + (w3 + rest));
        StringRoundTrip(s.name.value, w2 + (w3 + rest));
        BooleanRoundTrip(true, w3 + rest);
        MapRoundTrip(s.params.value, rest);
      } else {
        var w2 := WriteBoolean(false);
        assert Write(s).value + rest == w1 + (w2 + rest);
        StringRoundTrip(s.name.value, w2 + rest);
        BooleanRoundTrip(false, rest);
      }
    }
  }

  /** What `toXContent` writes: the bare name, or an object. */
  datatype RewriterXContent = BareValue(value: Value) | ObjectFields(fields: seq<(string, Value)>)

  function NameValue(name: Option<string>): Value {
    if name.Some? then Str(name.value) else Null
  }

  /** `toXContent`: a fragment is its bare name; otherwise an object with
      `name`, and `params` only when there are any. */
  function ToXContent(s: RewriterState): (x: RewriterXContent)
    ensures s.IsFragment() <==> x.BareValue?
    ensures x.BareValue? ==> x.value == NameValue(s.name)
    ensures x.ObjectFields? ==>
      x.fields == [("name", NameValue(s.name))] + (if s.params.value == map[] then [] else [("params", Object(s.params.value))])
  {
    if s.params.None? then BareValue(NameValue(s.name))
    else ObjectFields([("name", NameValue(s.name))] + (if s.params.value == map[] then [] else [("params", Object(s.params.value))]))
  }

  /** The token the query parser is at when it reaches a rewriter: an
      object (already read as a map, `parser.map()`), a string, or any other
      token, by its name. */
  datatype ParserToken = StartObject(definition: JavaMap) | ValueString(text: string) | OtherToken(tokenName: string)

  /** `RewriterParser.parse`. */
  function Parse(token: ParserToken): (r: Result<RewriterState, JavaException>)
    ensures token.ValueString? ==> r == Success(RewriterState(Some(token.text), None))
    ensures token.OtherToken? ==> r == Failure(JavaException(IOException, "Unexpected token type: " + token.tokenName))
    // An object: `name` is cast to a string, then `params` to a map, then
    // the constructor rejects a missing name.
    ensures token.StartObject? ==>
      var name, params := Get(token.definition, "name"), Get(token.definition, "params");
      && (!(name.Null? || name.Str?) ==> r == Failure(ClassCast("java.lang.String")))
      && ((name.Null? || name.Str?) && !(params.Null? || params.Object?) ==> r == Failure(ClassCast("java.util.Map")))
      && (name.Null? && (params.Null? || params.Object?) ==> r == Failure(IllegalArgument("Missing rewriter name")))
      && (name.Str? && (params.Null? || params.Object?) ==>
            r == Success(RewriterState(Some(name.s), if params.Object? then Some(params.fields) else None)))
    ensures token.StartObject? ==>
      (r.Success? <==> Get(token.definition, "name").Str?
                       && (Get(token.definition, "params").Null? || Get(token.definition, "params").Object?))
  {
    match token
    case StartObject(definition) =>
      var name :- CastString(Get(definition, "name"));
      var params :- CastMap(Get(definition, "params"));
      NewRewriter(name, params)
    case ValueString(text) => NewRewriter(Some(text), None)
    case OtherToken(tokenName) => Failure(JavaException(IOException, "Unexpected token type: " + tokenName))
  }

  /** The token the parser sees where a rewriter was written by
      `toXContent`. */
  function TokenOf(x: RewriterXContent): ParserToken {
    match x
    case BareValue(Str(s)) => ValueString(s)
    case BareValue(_) => OtherToken("VALUE_NULL")
    case ObjectFields(fields) => StartObject(FieldsToMap(fields))
  }

  /** The map `parser.map()` reads from an object's fields; a later field
      replaces an earlier one of the same name. */
  function FieldsToMap(fields: seq<(string, Value)>): JavaMap {
    if fields == [] then map[]
    else FieldsToMap(fields[..|fields| - 1])[fields[|fields| - 1].0 := fields[|fields| - 1].1]
  }

  /** A named rewriter written by `toXContent` parses back equal to itself,
      except that empty parameters are not written and so come back as
      none. */
  lemma XContentRoundTrip(s: RewriterState)
    requires s.name.Some?
    ensures Parse(TokenOf(ToXContent(s)))
      == Success(if s.params == Some(map[]) then s.(params := None) else s)
  {
    if s.params.Some? {
      var fields := ToXContent(s).fields;
      var nameField := ("name", Str(s.name.value));
      if s.params.value == map[] {
        assert fields == [nameField];
        assert FieldsToMap(fields) == map["name" := Str(s.name.value)] by {
          assert fields[..0] == [];
        }
      } else {
        assert fields == [nameField, ("params", Object(s.params.value))];
        assert FieldsToMap(fields) == map["name" := Str(s.name.value), "params" := Object(s.params.value)] by {
          assert fields[..1] == [nameField];
          assert fields[..1][..0] == [];
          assert FieldsToMap(fields[..1]) == map["name" := Str(s.name.value)];
        }
      }
    }
  }

  class Rewriter {
    var name: Option<string>
    var params: Option<JavaMap>

    function State(): RewriterState
      reads this
    {
      RewriterState(name, params)
    }

    /** `new Rewriter(name, params)` (and `new Rewriter(name)` with no
        parameters), which throws for a missing name. */
    static method New(name: Option<string>, params: Option<JavaMap>) returns (r: Result<Rewriter, JavaException>)
      ensures NewRewriter(name, params).Failure? ==> r == Failure(NewRewriter(name, params).error)
      ensures NewRewriter(name, params).Success? ==>
        r.Success? && fresh(r.value) && r.value.State() == NewRewriter(name, params).value
    {
      var checked := NewRewriter(name, params);
      if checked.Failure? {
        return Failure(checked.error);
      }
      var rewriter := new Rewriter.FromState(checked.value);
      return Success(rewriter);
    }

    /** The rewriter `new Rewriter(in)` and the parser build. */
    constructor FromState(s: RewriterState)
      ensures State() == s
    {
      name, params := s.name, s.params;
    }

    method SetName(name: Option<string>)
      modifies this
      ensures State() == old(State()).(name := name)
    {
      this.name := name;
    }

    method SetParams(params: Option<JavaMap>)
      modifies this
      ensures State() == old(State()).(params := params)
    {
      this.params := params;
    }
  }
}
