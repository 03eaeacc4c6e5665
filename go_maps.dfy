/**
 * The two ways the Go code writes into a `map[string]string`:
 * a single assignment into a map that is allocated on first use, and a
 * `for k, v := range src { dst[prefix+k] = v }` loop. Go's map iteration
 * order is unspecified, so the loop picks its next key nondeterministically.
 */
module GoMaps {
  import opened Wrappers

  /** `if m == nil { m = make(...) }; m[k] = v`, with `None` for a nil map. */
  function Store(m: Option<map<string, string>>, k: string, v: string): (r: map<string, string>)
    ensures k in r && r[k] == v
    ensures forall j :: j != k ==> (j in r <==> m.Some? && j in m.value)
    ensures forall j :: j != k && j in r ==> r[j] == m.value[j]
  {
    m.GetOr(map[])[k := v]
  }

  /** The entries of `src` with `prefix` put in front of every key. */
  function WithPrefix(prefix: string, src: map<string, string>): (r: map<string, string>)
    ensures forall k :: k in src ==> prefix + k in r && r[prefix + k] == src[k]
  {
    PrefixInjective(prefix);
    map k | k in src :: prefix + k := src[k]
  }
  lemma PrefixInjective(prefix: string)
    ensures forall a, b :: prefix + a == prefix + b ==> a == b
  {
    forall a, b | prefix + a == prefix + b ensures a == b {
      assert (prefix + a)[|prefix|..] == a;
      assert (prefix + b)[|prefix|..] == b;
    }
  }
  /** Every key of `WithPrefix(prefix, src)` is a prefixed key of `src`, holding its value. */
  lemma WithPrefixAt(prefix: string, src: map<string, string>, j: string)
    requires j in WithPrefix(prefix, src)
    ensures |prefix| <= |j| && j == prefix + j[|prefix|..] && j[|prefix|..] in src
    ensures WithPrefix(prefix, src)[j] == src[j[|prefix|..]]
  {
    var k := j[|prefix|..];
    assert j == prefix + k;
  }
  /** `j` is `prefix + k` for some `k` in `keys`. */
  ghost predicate HasPrefixIn(j: string, prefix: string, keys: set<string>) {
    |prefix| <= |j| && j[..|prefix|] == prefix && j[|prefix|..] in keys
  }
  lemma Conclude(dst: map<string, string>, src: map<string, string>, prefix: string, r: map<string, string>)
    requires forall k :: k in src ==> prefix + k in r && r[prefix + k] == src[k]
    requires forall j :: j in r ==> (j in dst && r[j] == dst[j]) || HasPrefixIn(j, prefix, src.Keys)
    requires forall j :: j in dst ==> j in r
    ensures r == dst + WithPrefix(prefix, src)
  {
    var w := dst + WithPrefix(prefix, src);
    forall j | j in r ensures j in w && r[j] == w[j] {
      if HasPrefixIn(j, prefix, src.Keys) {
        assert j == prefix + j[|prefix|..];
      }
    }
    forall j | j in w ensures j in r {
      if j !in dst { WithPrefixAt(prefix, src, j); }
    }
  }
  /**
   * The loop `for k, v := range src { dst[prefix+k] = v }`: afterwards every
   * prefixed entry of `src` is in place, overriding any clash, and every
   * other entry of `dst` is unchanged, whatever order the keys are visited in.
   */
  method CopyPrefixed(dst: map<string, string>, src: map<string, string>, prefix: string)
    returns (r: map<string, string>)
    ensures r == dst + WithPrefix(prefix, src)
  {
    r := dst;
    var todo := src.Keys;
    ghost var done: set<string> := {};
    while todo != {}
      invariant todo !! done && todo + done == src.Keys
      invariant forall k :: k in done ==> prefix + k in r && r[prefix + k] == src[k]
      invariant forall j :: j in r ==> (j in dst && r[j] == dst[j]) || HasPrefixIn(j, prefix, done)
      invariant forall j :: j in dst ==> j in r
      decreases todo
    {
      var k :| k in todo;
      PrefixInjective(prefix);
      r := r[prefix + k := src[k]];
      done := done + {k};
      todo := todo - {k};
    }
    Conclude(dst, src, prefix, r);
  }

  /** The loop `for k, v := range src { dst[k] = v }`: `src` wins every clash. */
  method CopyEntries(dst: map<string, string>, src: map<string, string>) returns (r: map<string, string>)
    ensures r == dst + src
  {
    r := dst;
    var todo := src.Keys;
    ghost var done: set<string> := {};
    while todo != {}
      invariant todo !! done && todo + done == src.Keys
      invariant forall k :: k in done ==> k in r && r[k] == src[k]
      invariant forall j :: j in r ==> (j in dst && r[j] == dst[j]) || j in done
      invariant forall j :: j in dst ==> j in r
      decreases todo
    {
      var k :| k in todo;
      r := r[k := src[k]];
      done := done + {k};
      todo := todo - {k};
    }
  }
}
