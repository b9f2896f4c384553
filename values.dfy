/** The dynamically typed values held in a Java `Map<String, Object>`: the
    loaded `_source` of a stored rewriter definition, a rewriter's
    configuration and the request parameters of a rewriter. */
module Values {
  import opened JavaLang
  import opened Wrappers
  import opened Exceptions

  /** One Java object as far as the plugin inspects it. `Null` is a key that
      is present with a `null` value; an absent key is the key not being in
      the map. */
  datatype Value =
    | Null
    | Str(s: string)
    | Int(i: int)
    | Float(f: Float32)
    | Bool(b: bool)
    | List(items: seq<Value>)
    | Object(fields: map<string, Value>)

  /** `Map<String, Object>`. */
  type JavaMap = map<string, Value>

  /** `m.get(k)`: `null` for an absent key as for a key mapped to `null`. */
  function Get(m: JavaMap, k: string): Value {
    if k in m then m[k] else Null
  }

  /** `m.getOrDefault(k, d)`: the default only for an absent key. */
  function GetOrDefault(m: JavaMap, k: string, d: Value): Value {
    if k in m then m[k] else d
  }

  /** `m.get(k)` and `m.getOrDefault(k, d)` differ exactly when `k` is
      absent and the default is not `null`. */
  lemma GetVersusGetOrDefault(m: JavaMap, k: string, d: Value)
    ensures Get(m, k) == GetOrDefault(m, k, d) <==> k in m || d == Null
  {
  }

  /** `collection.contains(s)` for a list of values. */
  predicate ListContains(items: seq<Value>, s: string) {
    Str(s) in items
  }

  /** `(String) v`: null stays null, a non-string fails. */
  function CastString(v: Value): Result<Option<string>, JavaException> {
    match v
    case Null => Success(None)
    case Str(s) => Success(Some(s))
    case _ => Failure(ClassCast("java.lang.String"))
  }

  /** `(Integer) v`. */
  function CastInt(v: Value): Result<Option<int>, JavaException> {
    match v
    case Null => Success(None)
    case Int(i) => Success(Some(i))
    case _ => Failure(ClassCast("java.lang.Integer"))
  }

  /** `(Map<String, Object>) v`. */
  function CastMap(v: Value): Result<Option<JavaMap>, JavaException> {
    match v
    case Null => Success(None)
    case Object(m) => Success(Some(m))
    case _ => Failure(ClassCast("java.util.Map"))
  }

  /** A cast succeeds exactly on null and on values of the target type. */
  lemma CastsAcceptTheirType(v: Value)
    ensures CastString(v).Success? <==> v.Null? || v.Str?
    ensures CastInt(v).Success? <==> v.Null? || v.Int?
    ensures CastMap(v).Success? <==> v.Null? || v.Object?
    ensures CastString(v) == Success(None) <==> v.Null?
  {
  }
}
