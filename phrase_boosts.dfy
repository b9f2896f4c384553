/** `PhraseBoosts`: the tie breaker and up to three phrase boost
    definitions, for full phrases, bigrams and trigrams. */
module PhraseBoostings {
  import opened Wrappers
  import opened JavaLang
  import opened Exceptions
  import opened Values
  import opened Collections
  import opened Streams
  import opened PhraseBoostDefinitions

  /** The fields of a `PhraseBoosts` as a value; `equals` compares all
      four (the tie breaker by `Float.compare`, that is by its bits). The
      definitions are held as values. */
  datatype BoostsState = BoostsState(
    tie: Float32,
    full: Option<DefinitionState>,
    bigram: Option<DefinitionState>,
    trigram: Option<DefinitionState>)

  /** The iteration orders of the three definitions' field maps. */
  datatype Orders = Orders(full: seq<string>, bigram: seq<string>, trigram: seq<string>)

  predicate OptionalOrderOf(d: Option<DefinitionState>, order: seq<string>) {
    d.Some? ==> OrderOf(d.value, order)
  }

  predicate OrdersOf(s: BoostsState, orders: Orders) {
    && OptionalOrderOf(s.full, orders.full)
    && OptionalOrderOf(s.bigram, orders.bigram)
    && OptionalOrderOf(s.trigram, orders.trigram)
  }

  /** What one definition adds to the parameter list: nothing when it is
      absent. */
  function Contribution(d: Option<DefinitionState>, nGramType: NGramType, order: seq<string>): (r: Result<seq<PhraseBoostFieldParams>, JavaException>)
    requires OptionalOrderOf(d, order)
    ensures d.None? ==> r == Success([])
    ensures d.Some? ==> r == FieldParams(d.value, nGramType, order)
  {
    if d.None? then Success([]) else FieldParams(d.value, nGramType, order)
  }

  /** `toPhraseBoostFieldParams`, as a value. */
  function AllFieldParams(s: BoostsState, orders: Orders): Result<seq<PhraseBoostFieldParams>, JavaException>
    requires OrdersOf(s, orders)
  {
    var full :- Contribution(s.full, PHRASE, orders.full);
    var bigram :- Contribution(s.bigram, BI_GRAM, orders.bigram);
    var trigram :- Contribution(s.trigram, TRI_GRAM, orders.trigram);
    Success(full + bigram + trigram)
  }

  /** The parameters are the full definition's (as `PHRASE`), then the
      bigram definition's (`BI_GRAM`), then the trigram definition's
      (`TRI_GRAM`): as many as their fields, each of its definition's type
      and slop. */
  lemma FieldParamsLayout(s: BoostsState, orders: Orders)
    requires OrdersOf(s, orders)
    requires AllFieldParams(s, orders).Success?
    ensures var r := AllFieldParams(s, orders).value;
      var nf := if s.full.Some? then |s.full.value.fields.value| else 0;
      var nb := if s.bigram.Some? then |s.bigram.value.fields.value| else 0;
      var nt := if s.trigram.Some? then |s.trigram.value.fields.value| else 0;
      && |r| == nf + nb + nt
      && (forall i :: 0 <= i < nf ==> r[i].nGramType == PHRASE && r[i].slop == s.full.value.slop)
      && (forall i :: nf <= i < nf + nb ==> r[i].nGramType == BI_GRAM && r[i].slop == s.bigram.value.slop)
      && (forall i :: nf + nb <= i < |r| ==> r[i].nGramType == TRI_GRAM && r[i].slop == s.trigram.value.slop)
  {
    var f := Contribution(s.full, PHRASE, orders.full).value;
    var b := Contribution(s.bigram, BI_GRAM, orders.bigram).value;
    var t := Contribution(s.trigram, TRI_GRAM, orders.trigram).value;
    assert AllFieldParams(s, orders).value == f + b + t;
    forall i | |f| <= i < |f| + |b| ensures (f + b + t)[i] == b[i - |f|] { }
    forall i | |f| + |b| <= i < |f| + |b| + |t| ensures (f + b + t)[i] == t[i - |f| - |b|] { }
  }

  /** `writeOptionalWriteable(definition)`: a presence flag, then the
      definition. */
  function WriteOptional(d: Option<DefinitionState>, order: seq<string>): Result<Stream, JavaException>
    requires OptionalOrderOf(d, order)
  {
    if d.None? then Success(WriteBoolean(false))
    else
      var w :- Write(d.value, order);
      Success(WriteBoolean(true) + w)
  }

  /** `readOptionalWriteable(PhraseBoostDefinition::new)`. */
  function ReadOptional(st: Stream): Result<(Option<DefinitionState>, Stream), JavaException> {
    var (present, st1) :- Expect(ReadBoolean(st));
    if !present then Success((None, st1))
    else
      var (d, st2) :- Read(st1);
      Success((Some(d), st2))
  }

  /** `writeTo`: the tie breaker, then the three optional definitions. */
  function WriteBoosts(s: BoostsState, orders: Orders): Result<Stream, JavaException>
    requires OrdersOf(s, orders)
  {
    var full :- WriteOptional(s.full, orders.full);
    var bigram :- WriteOptional(s.bigram, orders.bigram);
    var trigram :- WriteOptional(s.trigram, orders.trigram);
    Success(WriteFloat(s.tie) + full + bigram + trigram)
  }

  /** `new PhraseBoosts(in)`. */
  function ReadBoosts(st: Stream): Result<(BoostsState, Stream), JavaException> {
    var (tie, st1) :- Expect(ReadFloat(st));
    var (full, st2) :- ReadOptional(st1);
    var (bigram, st3) :- ReadOptional(st2);
    var (trigram, st4) :- ReadOptional(st3);
    Success((BoostsState(tie, full, bigram, trigram), st4))
  }

  /** A definition that can be written. */
  predicate Writable(d: Option<DefinitionState>) {
    d.Some? ==> d.value.fields.Some?
  }

  lemma OptionalRoundTrip(d: Option<DefinitionState>, order: seq<string>, rest: Stream)
    requires OptionalOrderOf(d, order)
    ensures WriteOptional(d, order).Success? <==> Writable(d)
    ensures Writable(d) ==> ReadOptional(WriteOptional(d, order).value + rest) == Success((d, rest))
  {
    if d.Some? {
      StreamRoundTrip(d.value, order, rest);
      if Writable(d) {
        var w := Write(d.value, order).value;
        assert WriteOptional(d, order).value + rest == WriteBoolean(true) + (w + rest);
        BooleanRoundTrip(true, w + rest);
      }
    } else {
      BooleanRoundTrip(false, rest);
    }
  }

  lemma WriteBoostsSteps(s: BoostsState, orders: Orders, f: Stream, b: Stream, t: Stream)
    requires OrdersOf(s, orders)
    requires WriteOptional(s.full, orders.full) == Success(f)
    requires WriteOptional(s.bigram, orders.bigram) == Success(b)
    requires WriteOptional(s.trigram, orders.trigram) == Success(t)
    ensures WriteBoosts(s, orders) == Success(WriteFloat(s.tie) + f + b + t)
  {
  }

  lemma ReadBoostsSteps(st: Stream, tie: Float32, st1: Stream, full: Option<DefinitionState>, st2: Stream,
                        bigram: Option<DefinitionState>, st3: Stream, trigram: Option<DefinitionState>, st4: Stream)
    requires ReadFloat(st) == Some((tie, st1))
    requires ReadOptional(st1) == Success((full, st2))
    requires ReadOptional(st2) == Success((bigram, st3))
    requires ReadOptional(st3) == Success((trigram, st4))
    ensures ReadBoosts(st) == Success((BoostsState(tie, full, bigram, trigram), st4))
  {
  }

  /** Phrase boosts whose definitions all have fields are read back equal
      to themselves; a definition without fields cannot be written. */
  lemma BoostsRoundTrip(s: BoostsState, orders: Orders, rest: Stream)
    requires OrdersOf(s, orders)
    ensures WriteBoosts(s, orders).Success? <==> Writable(s.full) && Writable(s.bigram) && Writable(s.trigram)
    ensures WriteBoosts(s, orders).Success? ==> ReadBoosts(WriteBoosts(s, orders).value + rest) == Success((s, rest))
  {
    OptionalRoundTrip(s.full, orders.full, []);
    OptionalRoundTrip(s.bigram, orders.bigram, []);
    OptionalRoundTrip(s.trigram, orders.trigram, []);
    if Writable(s.full) && Writable(s.bigram) && Writable(s.trigram) {
      var f := WriteOptional(s.full, orders.full).value;
      var b := WriteOptional(s.bigram, orders.bigram).value;
      var t := WriteOptional(s.trigram, orders.trigram).value;
      WriteBoostsSteps(s, orders, f, b, t);
      var st3 := t + rest;
      var st2 := b + st3;
      var st1 := f + st2;
      Regrouped(WriteFloat(s.tie), f, b, t, rest);
      FloatRoundTrip(s.tie, st1);
      OptionalRoundTrip(s.full, orders.full, st2);
      OptionalRoundTrip(s.bigram, orders.bigram, st3);
      OptionalRoundTrip(s.trigram, orders.trigram, rest);
      ReadBoostsSteps(WriteFloat(s.tie) + st1, s.tie, st1, s.full, st2, s.bigram, st3, s.trigram, rest);
    }
  }

  /** A field of the `toXContent` object: a plain value, or a nested
      definition object. */
  datatype XField = Plain(name: string, value: Value) | Nested(name: string, fields: seq<(string, Value)>)

  /** `toXContent`: `tie_breaker` always, then each present definition. */
  function ToXContent(s: BoostsState, orders: Orders, floatToString: Float32 -> string): (fields: seq<XField>)
    requires OrdersOf(s, orders)
    ensures |fields| == 1 + (if s.full.Some? then 1 else 0) + (if s.bigram.Some? then 1 else 0) + (if s.trigram.Some? then 1 else 0)
    ensures fields[0] == Plain("tie_breaker", Float(s.tie))
    ensures forall i :: 1 <= i < |fields| ==> fields[i].Nested? && fields[i].name in {"full", "bigram", "trigram"}
    ensures s.full.Some? ==> fields[1] == Nested("full", PhraseBoostDefinitions.ToXContent(s.full.value, orders.full, floatToString))
    ensures s.bigram.Some? ==>
      fields[if s.full.Some? then 2 else 1]
        == Nested("bigram", PhraseBoostDefinitions.ToXContent(s.bigram.value, orders.bigram, floatToString))
    ensures s.trigram.Some? ==>
      fields[|fields| - 1] == Nested("trigram", PhraseBoostDefinitions.ToXContent(s.trigram.value, orders.trigram, floatToString))
  {
    [Plain("tie_breaker", Float(s.tie))]
    + (if s.full.Some? then [Nested("full", PhraseBoostDefinitions.ToXContent(s.full.value, orders.full, floatToString))] else [])
    + (if s.bigram.Some? then [Nested("bigram", PhraseBoostDefinitions.ToXContent(s.bigram.value, orders.bigram, floatToString))] else [])
    + (if s.trigram.Some? then [Nested("trigram", PhraseBoostDefinitions.ToXContent(s.trigram.value, orders.trigram, floatToString))] else [])
  }

  class PhraseBoosts {
    var tie: Float32
    var full: Option<DefinitionState>
    var bigram: Option<DefinitionState>
    var trigram: Option<DefinitionState>

    function State(): BoostsState
      reads this
    {
      BoostsState(tie, full, bigram, trigram)
    }

    /** `new PhraseBoosts()`: tie breaker 0, no definitions. */
    constructor ()
      ensures State() == BoostsState(FLOAT_ZERO, None, None, None)
    {
      tie, full, bigram, trigram := FLOAT_ZERO, None, None, None;
    }

    /** `toPhraseBoostFieldParams`: the list filled by one `addAll` per
        present definition. */
    method ToPhraseBoostFieldParams(orders: Orders) returns (r: Result<seq<PhraseBoostFieldParams>, JavaException>)
      requires OrdersOf(State(), orders)
      ensures r == AllFieldParams(State(), orders)
    {
      var params: seq<PhraseBoostFieldParams> := [];
      if full.Some? {
        var f := FieldParams(full.value, PHRASE, orders.full);
        if f.Failure? {
          return Failure(f.error);
        }
        params := params + f.value;
      }
      if bigram.Some? {
        var b := FieldParams(bigram.value, BI_GRAM, orders.bigram);
        if b.Failure? {
          return Failure(b.error);
        }
        params := params + b.value;
      }
      if trigram.Some? {
        var t := FieldParams(trigram.value, TRI_GRAM, orders.trigram);
        if t.Failure? {
          return Failure(t.error);
        }
        params := params + t.value;
      }
      assert params == Contribution(full, PHRASE, orders.full).value
        + Contribution(bigram, BI_GRAM, orders.bigram).value
        + Contribution(trigram, TRI_GRAM, orders.trigram).value;
      return Success(params);
    }

    method SetTieBreaker(tie: Float32)
      modifies this
      ensures State() == old(State()).(tie := tie)
    {
      this.tie := tie;
    }

    method SetFull(full: Option<DefinitionState>)
      modifies this
      ensures State() == old(State()).(full := full)
    {
      this.full := full;
    }

    method SetBigram(bigram: Option<DefinitionState>)
      modifies this
      ensures State() == old(State()).(bigram := bigram)
    {
      this.bigram := bigram;
    }

    method SetTrigram(trigram: Option<DefinitionState>)
      modifies this
      ensures State() == old(State()).(trigram := trigram)
    {
      this.trigram := trigram;
    }
  }
}
