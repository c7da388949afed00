/**
 * "First strict minimum" selection, shared by the agent's move choice and by
 * the algorithm comparison. A running minimum that starts at infinity and is
 * replaced only when a key is strictly smaller ends at the earliest position
 * holding the least key; positions without a key (`None`) never win.
 */
module Selection {
  import opened Wrappers

  /**
   * Among the first `n` positions, `k` holds a key, no key is smaller, and
   * every earlier key is larger.
   */
  ghost predicate IsFirstMinUpTo(keys: seq<Option<real>>, n: int, k: int)
    requires 0 <= n <= |keys|
  {
    && 0 <= k < n
    && keys[k].Some?
    && (forall j :: 0 <= j < n && keys[j].Some? ==> keys[k].value <= keys[j].value)
    && (forall j :: 0 <= j < k && keys[j].Some? ==> keys[k].value < keys[j].value)
  }

  ghost predicate NoKeyUpTo(keys: seq<Option<real>>, n: int)
    requires 0 <= n <= |keys|
  {
    forall j :: 0 <= j < n ==> keys[j].None?
  }

  ghost predicate IsFirstMin(keys: seq<Option<real>>, k: int)
  {
    IsFirstMinUpTo(keys, |keys|, k)
  }

  ghost predicate NoKey(keys: seq<Option<real>>)
  {
    NoKeyUpTo(keys, |keys|)
  }

  /** The outcome of a running minimum over `keys`: the winning key and the name at its position. */
  ghost predicate Winner<N>(keys: seq<Option<real>>, names: seq<N>, best: Option<real>, who: Option<N>)
    requires |names| == |keys|
  {
    && (who.None? <==> NoKey(keys))
    && (who.None? ==> best.None?)
    && (who.Some? ==> exists k :: IsFirstMin(keys, k) && who.value == names[k] && best == keys[k])
  }

  /** The running minimum after the first `n` positions, with its (ghost) winning position `k`. */
  ghost predicate WinnerUpTo<N>(keys: seq<Option<real>>, names: seq<N>, n: int, best: Option<real>, who: Option<N>, k: int)
    requires 0 <= n <= |keys| == |names|
  {
    if NoKeyUpTo(keys, n) then best.None? && who.None?
    else IsFirstMinUpTo(keys, n, k) && best == keys[k] && who == Some(names[k])
  }

  /** A present key replaces the running minimum `best` (infinity when `None`) only when strictly smaller. */
  predicate Improves(best: Option<real>, key: Option<real>)
  {
    key.Some? && (best.None? || key.value < best.value)
  }

  /** One step of the running minimum: position `n` replaces the minimum only when strictly smaller. */
  lemma WinnerStep<N>(keys: seq<Option<real>>, names: seq<N>, n: int, best: Option<real>, who: Option<N>, k: int)
    requires 0 <= n < |keys| == |names| && WinnerUpTo(keys, names, n, best, who, k)
    ensures Improves(best, keys[n]) ==> WinnerUpTo(keys, names, n + 1, keys[n], Some(names[n]), n)
    ensures !Improves(best, keys[n]) ==> WinnerUpTo(keys, names, n + 1, best, who, k)
  {
  }

  lemma WinnerAtEnd<N>(keys: seq<Option<real>>, names: seq<N>, best: Option<real>, who: Option<N>, k: int)
    requires |keys| == |names| && WinnerUpTo(keys, names, |keys|, best, who, k)
    ensures Winner(keys, names, best, who)
  {
  }

  /** At most one position is the first minimum. */
  lemma FirstMinUnique(keys: seq<Option<real>>, k1: int, k2: int)
    requires IsFirstMin(keys, k1) && IsFirstMin(keys, k2)
    ensures k1 == k2
  {
  }

  /** Some position is the first minimum as soon as any key is present. */
  lemma {:induction false} FirstMinExists(keys: seq<Option<real>>, n: int)
    requires 0 <= n <= |keys| && !NoKeyUpTo(keys, n)
    ensures exists k :: IsFirstMinUpTo(keys, n, k)
  {
    var m := n - 1;
    if NoKeyUpTo(keys, m) {
      assert keys[m].Some?;
      assert IsFirstMinUpTo(keys, n, m);
    } else {
      FirstMinExists(keys, m);
      var k :| IsFirstMinUpTo(keys, m, k);
      if keys[m].Some? && keys[m].value < keys[k].value {
        assert IsFirstMinUpTo(keys, n, m);
      } else {
        assert IsFirstMinUpTo(keys, n, k);
      }
    }
  }

  lemma PrefixStep<T>(s: seq<T>, i: int)
    requires 0 <= i < |s|
    ensures s[..i + 1] == s[..i] + [s[i]]
  {
  }
}
