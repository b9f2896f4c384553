/** OpenSearch's transport serialization (`StreamOutput` / `StreamInput`),
    modelled as the sequence of primitive writes. A reader consumes a prefix
    and returns the rest, or `None` where `StreamInput` would throw. */
module Streams {
  import opened Wrappers
  import opened JavaLang
  import opened Exceptions
  import opened Values

  datatype Token =
    | TBoolean(b: bool)
    | TByte(v: int)
    | TString(s: string)
    | TInt(i: int)
    | TFloat(f: Float32)
    | TMap(m: JavaMap)
    /** `writeException`: the exception's message, which may be null. */
    | TException(message: Option<string>)

  type Stream = seq<Token>

  /** What `StreamInput` throws where the stream does not hold the value the
      reader expects; its message is not modelled. */
  const MALFORMED_STREAM := JavaException(IOException, "")

  /** A reader's result as a Java reader delivers it: the value, or the
      exception for a malformed stream. */
  function Expect<T>(read: Option<T>): Result<T, JavaException> {
    match read
    case Some(v) => Success(v)
    case None => Failure(MALFORMED_STREAM)
  }

  function WriteString(s: string): Stream { [TString(s)] }

  function ReadString(st: Stream): Option<(string, Stream)> {
    if |st| > 0 && st[0].TString? then Some((st[0].s, st[1..])) else None
  }

  function WriteBoolean(b: bool): Stream { [TBoolean(b)] }

  function ReadBoolean(st: Stream): Option<(bool, Stream)> {
    if |st| > 0 && st[0].TBoolean? then Some((st[0].b, st[1..])) else None
  }

  function WriteInt(i: int): Stream { [TInt(i)] }

  function ReadInt(st: Stream): Option<(int, Stream)> {
    if |st| > 0 && st[0].TInt? then Some((st[0].i, st[1..])) else None
  }

  function WriteFloat(f: Float32): Stream { [TFloat(f)] }

  function ReadFloat(st: Stream): Option<(Float32, Stream)> {
    if |st| > 0 && st[0].TFloat? then Some((st[0].f, st[1..])) else None
  }

  function WriteMap(m: JavaMap): Stream { [TMap(m)] }

  function ReadMap(st: Stream): Option<(JavaMap, Stream)> {
    if |st| > 0 && st[0].TMap? then Some((st[0].m, st[1..])) else None
  }

  /** `writeOptionalString`: a presence flag, then the string. */
  function WriteOptionalString(s: Option<string>): Stream {
    match s
    case None => WriteBoolean(false)
    case Some(v) => WriteBoolean(true) + WriteString(v)
  }

  function ReadOptionalString(st: Stream): Option<(Option<string>, Stream)> {
    var (present, rest) :- ReadBoolean(st);
    if !present then Some((None, rest))
    else
      var (v, rest') :- ReadString(rest);
      Some((Some(v), rest'))
  }

  /** `writeOptionalFloat`: a presence flag, then the float. */
  function WriteOptionalFloat(f: Option<Float32>): Stream {
    match f
    case None => WriteBoolean(false)
    case Some(v) => WriteBoolean(true) + WriteFloat(v)
  }

  function ReadOptionalFloat(st: Stream): Option<(Option<Float32>, Stream)> {
    var (present, rest) :- ReadBoolean(st);
    if !present then Some((None, rest))
    else
      var (v, rest') :- ReadFloat(rest);
      Some((Some(v), rest'))
  }

  /** `writeOptionalBoolean`: one byte, 2 for null, 1 for true, 0 for false. */
  function WriteOptionalBoolean(b: Option<bool>): Stream {
    match b
    case None => [TByte(2)]
    case Some(v) => [TByte(if v then 1 else 0)]
  }

  /** `readOptionalBoolean`, which rejects any other byte. */
  function ReadOptionalBoolean(st: Stream): Option<(Option<bool>, Stream)> {
    if |st| > 0 && st[0].TByte? then
      if st[0].v == 2 then Some((None, st[1..]))
      else if st[0].v == 1 then Some((Some(true), st[1..]))
      else if st[0].v == 0 then Some((Some(false), st[1..]))
      else None
    else None
  }

  /** `writeException` / `readException`. */
  function WriteException(message: Option<string>): Stream { [TException(message)] }

  function ReadException(st: Stream): Option<(Option<string>, Stream)> {
    if |st| > 0 && st[0].TException? then Some((st[0].message, st[1..])) else None
  }

  // Every reader undoes its writer, whatever follows in the stream.

  lemma StringRoundTrip(s: string, rest: Stream)
    ensures ReadString(WriteString(s) + rest) == Some((s, rest))
  {
  }

  lemma BooleanRoundTrip(b: bool, rest: Stream)
    ensures ReadBoolean(WriteBoolean(b) + rest) == Some((b, rest))
  {
  }

  lemma IntRoundTrip(i: int, rest: Stream)
    ensures ReadInt(WriteInt(i) + rest) == Some((i, rest))
  {
  }

  lemma FloatRoundTrip(f: Float32, rest: Stream)
    ensures ReadFloat(WriteFloat(f) + rest) == Some((f, rest))
  {
  }

  lemma MapRoundTrip(m: JavaMap, rest: Stream)
    ensures ReadMap(WriteMap(m) + rest) == Some((m, rest))
  {
  }

  lemma OptionalStringRoundTrip(s: Option<string>, rest: Stream)
    ensures ReadOptionalString(WriteOptionalString(s) + rest) == Some((s, rest))
  {
    if s.Some? {
      assert (WriteOptionalString(s) + rest)[1..] == WriteString(s.value) + rest;
    }
  }

  lemma OptionalFloatRoundTrip(f: Option<Float32>, rest: Stream)
    ensures ReadOptionalFloat(WriteOptionalFloat(f) + rest) == Some((f, rest))
  {
    if f.Some? {
      assert (WriteOptionalFloat(f) + rest)[1..] == WriteFloat(f.value) + rest;
    }
  }

  lemma OptionalBooleanRoundTrip(b: Option<bool>, rest: Stream)
    ensures ReadOptionalBoolean(WriteOptionalBoolean(b) + rest) == Some((b, rest))
  {
  }

  lemma ExceptionRoundTrip(message: Option<string>, rest: Stream)
    ensures ReadException(WriteException(message) + rest) == Some((message, rest))
  {
  }
}
