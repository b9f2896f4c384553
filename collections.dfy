/** Small facts about sequences and maps that the proofs use in several
    places, stated once over arbitrary element types so that the solver
    does not look inside the elements. */
module Collections {

  lemma SplitLast<T>(a: seq<T>, b: seq<T>)
    requires b != []
    ensures (a + b)[..|a + b| - 1] == a + b[..|b| - 1]
    ensures (a + b)[|a + b| - 1] == b[|b| - 1]
  {
  }

  lemma Associative<T>(x: seq<T>, y: seq<T>, z: seq<T>)
    ensures (x + y) + z == x + (y + z)
  {
  }

  lemma Regrouped<T>(a: seq<T>, b: seq<T>, c: seq<T>, d: seq<T>, e: seq<T>)
    ensures a + b + c + d + e == a + (b + (c + (d + e)))
  {
    Associative(a + b + c, d, e);
    Associative(a + b, c, d + e);
    Associative(a, b, c + (d + e));
  }

  lemma PrefixExtend<T>(s: seq<T>, i: nat)
    requires i < |s|
    ensures s[..i + 1] == s[..i] + [s[i]]
  {
  }

  lemma SnocInit<T>(init: seq<T>, last: T)
    ensures (init + [last])[..|init|] == init
    ensures (init + [last])[|init|] == last
  {
  }

  /** No element occurs twice. */
  predicate Distinct<T(==)>(s: seq<T>) {
    forall i, j :: 0 <= i < j < |s| ==> s[i] != s[j]
  }

  lemma DistinctSnoc<T>(s: seq<T>, x: T)
    ensures Distinct(s + [x]) <==> Distinct(s) && x !in s
  {
    var t := s + [x];
    if Distinct(t) {
      forall i, j | 0 <= i < j < |s| ensures s[i] != s[j] {
        assert t[i] == s[i] && t[j] == s[j];
      }
      forall i | 0 <= i < |s| ensures s[i] != x {
        assert t[i] == s[i] && t[|s|] == x;
      }
    }
  }

  /** `m` maps exactly the keys `keys`, one entry per key, `keys[i]` to
      `values[i]`. */
  ghost predicate Represents<K(!new), V>(keys: seq<K>, values: seq<V>, m: map<K, V>) {
    && |keys| == |values|
    && |m| == |keys|
    && (forall k :: k in m <==> k in keys)
    && (forall i :: 0 <= i < |keys| ==> keys[i] in m && m[keys[i]] == values[i])
  }

  lemma RepresentsEmpty<K(!new), V>()
    ensures Represents<K, V>([], [], map[])
  {
  }

  lemma RepresentsSnoc<K(!new), V>(keys: seq<K>, values: seq<V>, m: map<K, V>, k: K, v: V)
    requires Represents(keys, values, m)
    requires k !in m
    ensures Represents(keys + [k], values + [v], m[k := v])
  {
    var keys', values', m' := keys + [k], values + [v], m[k := v];
    forall i | 0 <= i < |keys'| ensures keys'[i] in m' && m'[keys'[i]] == values'[i] {
      if i < |keys| {
        assert keys'[i] == keys[i] && values'[i] == values[i];
        assert keys[i] != k;
      }
    }
  }
}
