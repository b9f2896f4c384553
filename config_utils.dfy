/** `ConfigUtils`: typed getters over a rewriter's configuration map, each
    with its own rule for absent values and defaults. */
module ConfigUtils {
  import opened Wrappers
  import opened JavaLang
  import opened Exceptions
  import opened Values

  /** `getStringArg(config, name, defaultValue)`: the string under `name`,
      or the default when it is `null` (absent or mapped to `null`); a
      value of another type fails the cast. */
  function GetStringArgOr(config: JavaMap, name: string, defaultValue: Option<string>): (r: Result<Option<string>, JavaException>)
    ensures Get(config, name).Str? ==> r == Success(Some(Get(config, name).s))
    ensures Get(config, name).Null? ==> r == Success(defaultValue)
    ensures !(Get(config, name).Str? || Get(config, name).Null?) ==> r == Failure(ClassCast("java.lang.String"))
  {
    var value :- CastString(Get(config, name));
    Success(if value.None? then defaultValue else value)
  }

  /** `getStringArg(config, name)`: `Optional.ofNullable` of the string. */
  function GetStringArg(config: JavaMap, name: string): (r: Result<Option<string>, JavaException>)
    ensures r == Success(None) <==> Get(config, name).Null?
    ensures r.Success? && r.value.Some? <==> Get(config, name).Str?
    ensures r.Success? && r.value.Some? ==> config[name] == Str(r.value.value)
    ensures !(Get(config, name).Str? || Get(config, name).Null?) ==> r == Failure(ClassCast("java.lang.String"))
  {
    CastString(Get(config, name))
  }

  /** Both string getters read the same value: the defaulting one is the
      optional one with the default filled in. */
  lemma StringArgVariantsAgree(config: JavaMap, name: string, defaultValue: Option<string>)
    ensures GetStringArg(config, name).Success? <==> GetStringArgOr(config, name, defaultValue).Success?
    ensures GetStringArg(config, name).Success? ==>
      GetStringArgOr(config, name, defaultValue).value
        == (if GetStringArg(config, name).value.Some? then GetStringArg(config, name).value else defaultValue)
  {
  }

  /** A Java enum type: its canonical name and the names of its constants. */
  datatype EnumType = EnumType(canonicalName: string, constants: seq<string>)

  /** `getEnumArg`: empty for a `null` value, otherwise `Enum.valueOf`,
      which accepts exactly the name of a constant. */
  function GetEnumArg(config: JavaMap, name: string, enumType: EnumType): (r: Result<Option<string>, JavaException>)
    ensures r == Success(None) <==> Get(config, name).Null?
    ensures r.Success? && r.value.Some? <==>
      Get(config, name).Str? && Get(config, name).s in enumType.constants
    ensures r.Success? && r.value.Some? ==> Get(config, name) == Str(r.value.value)
    ensures Get(config, name).Str? && Get(config, name).s !in enumType.constants ==>
      r == Failure(IllegalArgument("No enum constant " + enumType.canonicalName + "." + Get(config, name).s))
    ensures !(Get(config, name).Str? || Get(config, name).Null?) ==> r == Failure(ClassCast("java.lang.String"))
  {
    var value :- CastString(Get(config, name));
    match value
    case None => Success(None)
    case Some(s) =>
      if s in enumType.constants then Success(Some(s))
      else Failure(IllegalArgument("No enum constant " + enumType.canonicalName + "." + s))
  }

  /** `getArg`: `getOrDefault`, so a key mapped to `null` yields `null` and
      not the default. The unchecked cast to `T` is erased and never fails. */
  function GetArg(config: JavaMap, name: string, defaultValue: Value): (r: Value)
    ensures name in config ==> r == config[name]
    ensures name !in config ==> r == defaultValue
  {
    GetOrDefault(config, name, defaultValue)
  }

  /** `getArg` differs from a plain `get` only on absent keys. */
  lemma GetArgDefaultsOnlyWhenAbsent(config: JavaMap, name: string, defaultValue: Value)
    ensures GetArg(config, name, defaultValue) != Get(config, name) ==> name !in config
  {
  }

  /** The distinct words of a collection. */
  function Words(items: seq<Value>): set<string> {
    set x | x in items && x.Str? :: x.s
  }

  /** The value under `name` is usable as a word collection: `null`, or a
      collection of non-empty strings. */
  predicate IsWordCollection(v: Value) {
    v.Null? || (v.List? && forall i :: 0 <= i < |v.items| ==> v.items[i].Str? && v.items[i].s != "")
  }

  /** The exception `TrieMap.put` raises for a `null` word: it asks the
      word for its length. */
  const NULL_WORD: JavaException := JavaException(NullPointerException, "")

  /** The exception `TrieMap.put` raises for the empty word. */
  const EMPTY_WORD: JavaException := IllegalArgument("Must not put empty sequence into trie")

  /** `getTrieSetArg`: every distinct word of the collection mapped to
      `true`; the words go through a `HashSet`, so they are visited in an
      unspecified order. The trie is modelled by the map it represents. */
  method GetTrieSetArg(config: JavaMap, name: string) returns (result: Result<map<string, bool>, JavaException>)
    ensures result.Success? <==> IsWordCollection(Get(config, name))
    ensures result.Success? ==>
      && result.value.Keys == (if Get(config, name).List? then Words(Get(config, name).items) else {})
      && forall w :: w in result.value ==> result.value[w]
    ensures result.Failure? && Get(config, name).List? ==>
      || (result.error == NULL_WORD && Null in Get(config, name).items)
      || (result.error == EMPTY_WORD && Str("") in Get(config, name).items)
      || (result.error == ClassCast("java.lang.String")
          && exists x :: x in Get(config, name).items && !x.Str? && !x.Null?)
    ensures result.Failure? && !Get(config, name).List? ==> result.error == ClassCast("java.util.Collection")
  {
    var collectionArg := Get(config, name);
    if collectionArg.Null? {
      return Success(map[]);
    }
    if !collectionArg.List? {
      return Failure(ClassCast("java.util.Collection"));
    }
    var items := collectionArg.items;
    var all := set x | x in items;
    var remaining := all;
    var trie: map<string, bool> := map[];
    while remaining != {}
      invariant remaining <= all
      invariant forall x :: x in all - remaining ==> x.Str? && x.s != ""
      invariant trie.Keys == set x | x in all - remaining && x.Str? :: x.s
      invariant forall w :: w in trie ==> trie[w]
      decreases |remaining|
    {
      var word :| word in remaining;
      if word.Null? {
        return Failure(NULL_WORD);
      }
      if !word.Str? {
        return Failure(ClassCast("java.lang.String"));
      }
      if word.s == "" {
        return Failure(EMPTY_WORD);
      }
      trie := trie[word.s := true];
      remaining := remaining - {word};
    }
    forall i | 0 <= i < |items| ensures items[i].Str? && items[i].s != "" {
      assert items[i] in all;
    }
    assert all - remaining == all;
    return Success(trie);
  }

  /** `getInstanceFromArg`: the default when the class name is `null` or
      blank, otherwise a new instance of the class the trimmed name
      denotes. Reflection is replaced by `classes`, the instances of the
      classes that exist; an unknown class fails as `Class.forName` does,
      wrapped in a `RuntimeException`. */
  function GetInstanceFromArg<V>(config: JavaMap, name: string, defaultValue: V, classes: map<string, V>): (r: Result<V, JavaException>)
    ensures Get(config, name).Null? ==> r == Success(defaultValue)
    ensures Get(config, name).Str? && IsBlank(Get(config, name).s) ==> r == Success(defaultValue)
    ensures Get(config, name).Str? && !IsBlank(Get(config, name).s) ==>
      var className := Trim(Get(config, name).s);
      r == if className in classes then Success(classes[className]) else Failure(ClassNotFound(className))
    ensures !(Get(config, name).Str? || Get(config, name).Null?) ==> r == Failure(ClassCast("java.lang.String"))
  {
    var classField :- CastString(Get(config, name));
    if classField.None? then Success(defaultValue)
    else
      var className := Trim(classField.value);
      if className == [] then Success(defaultValue)
      else if className in classes then Success(classes[className])
      else Failure(ClassNotFound(className))
  }

  /** Surrounding whitespace in the class name does not matter. */
  lemma InstanceClassNameIsTrimmed<V>(config: JavaMap, name: string, defaultValue: V, classes: map<string, V>)
    requires Get(config, name).Str?
    ensures GetInstanceFromArg(config, name, defaultValue, classes)
      == GetInstanceFromArg(config[name := Str(Trim(config[name].s))], name, defaultValue, classes)
  {
    var s := config[name].s;
    var trimmed := config[name := Str(Trim(s))];
    assert Get(trimmed, name) == Str(Trim(s));
    TrimIdempotent(s);
  }
}
