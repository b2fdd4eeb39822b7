/** Angular's immutable `HttpParams` and `HttpHeaders`: an ordered list of
    (name, value) pairs whose `set` replaces the value of an existing name in
    place and appends a new name at the end. */
module KeyValues {
  import opened Wrappers

  type Entries = seq<(string, string)>

  predicate DistinctKeys(es: Entries) {
    forall i, j :: 0 <= i < j < |es| ==> es[i].0 != es[j].0
  }

  function Keys(es: Entries): set<string> {
    set i | 0 <= i < |es| :: es[i].0
  }

  /** `get(name)`: the value of the first pair named `k`, if any. */
  function Lookup(es: Entries, k: string): (r: Option<string>)
    ensures r.Some? ==> (k, r.value) in es
  {
    if es == [] then None
    else if es[0].0 == k then Some(es[0].1)
    else Lookup(es[1..], k)
  }

  /** A name has a value exactly when it is one of the names. */
  lemma {:induction false} LookupKeys(es: Entries, k: string)
    ensures Lookup(es, k).Some? <==> k in Keys(es)
  {
    if es != [] {
      LookupKeys(es[1..], k);
      KeysCons(es[0], es[1..]);
      assert es == [es[0]] + es[1..];
    }
  }

  /** `set(name, value)`: the pair is present afterwards, and the list keeps
      its length or grows by one. */
  function Set(es: Entries, k: string, v: string): (r: Entries)
    ensures (k, v) in r
    ensures |es| <= |r| <= |es| + 1
  {
    if es == [] then [(k, v)]
    else if es[0].0 == k then [(k, v)] + es[1..]
    else [es[0]] + Set(es[1..], k, v)
  }

  /** After `set`, `k` maps to `v` and every other name keeps its value; no
      name is doubled and exactly `k` is added to the names. */
  lemma {:induction false} SetLookup(es: Entries, k: string, v: string)
    ensures forall j :: Lookup(Set(es, k, v), j) == if j == k then Some(v) else Lookup(es, j)
    ensures DistinctKeys(es) ==> DistinctKeys(Set(es, k, v))
    ensures Keys(Set(es, k, v)) == Keys(es) + {k}
  {
    if es == [] {
      ConsFacts((k, v), []);
    } else if es[0].0 == k {
      ConsFacts(es[0], es[1..]);
      ConsFacts((k, v), es[1..]);
      assert es == [es[0]] + es[1..];
    } else {
      SetLookup(es[1..], k, v);
      ConsFacts(es[0], es[1..]);
      ConsFacts(es[0], Set(es[1..], k, v));
      assert es == [es[0]] + es[1..];
    }
  }

  /** Lookup, distinctness and names of a list with one more pair in front. */
  lemma ConsFacts(e: (string, string), es: Entries)
    ensures forall j :: Lookup([e] + es, j) == if j == e.0 then Some(e.1) else Lookup(es, j)
    ensures DistinctKeys([e] + es) <==> e.0 !in Keys(es) && DistinctKeys(es)
    ensures Keys([e] + es) == {e.0} + Keys(es)
  {
    var s := [e] + es;
    assert s[1..] == es;
    KeysCons(e, es);
    if e.0 !in Keys(es) && DistinctKeys(es) {
      forall i, j | 0 <= i < j < |s| ensures s[i].0 != s[j].0 {
        if i == 0 {
          assert s[j].0 == es[j - 1].0;
        } else {
          assert s[i] == es[i - 1] && s[j] == es[j - 1];
        }
      }
    }
    if DistinctKeys(s) {
      forall i | 0 <= i < |es| ensures es[i].0 != e.0 {
        assert s[0] == e && s[i + 1] == es[i];
        assert s[0].0 != s[i + 1].0;
      }
      forall i, j | 0 <= i < j < |es| ensures es[i].0 != es[j].0 {
        assert s[i + 1] == es[i] && s[j + 1] == es[j];
      }
    }
  }

  /** Two entry lists with distinct names that agree on every lookup hold the
      same pairs (possibly in another order). */
  lemma LookupDetermines(a: Entries, b: Entries)
    requires DistinctKeys(a) && DistinctKeys(b)
    requires forall k :: Lookup(a, k) == Lookup(b, k)
    ensures Keys(a) == Keys(b)
    ensures |a| == |b|
  {
    forall k ensures k in Keys(a) <==> k in Keys(b) {
      LookupKeys(a, k);
      LookupKeys(b, k);
    }
    assert Keys(a) == Keys(b);
    DistinctKeysSize(a);
    DistinctKeysSize(b);
  }

  lemma {:induction false} DistinctKeysSize(es: Entries)
    requires DistinctKeys(es)
    ensures |Keys(es)| == |es|
  {
    if es != [] {
      DistinctKeysSize(es[1..]);
      KeysCons(es[0], es[1..]);
      assert es == [es[0]] + es[1..];
    }
  }

  lemma KeysCons(e: (string, string), es: Entries)
    ensures Keys([e] + es) == {e.0} + Keys(es)
  {
    var s := [e] + es;
    forall x ensures x in Keys(s) <==> x in {e.0} + Keys(es) {
      if x == e.0 {
        assert s[0].0 == x;
      }
      if x in Keys(s) {
        var i :| 0 <= i < |s| && s[i].0 == x;
        if i > 0 { assert es[i - 1].0 == x; }
      }
      if x in Keys(es) {
        var i :| 0 <= i < |es| && es[i].0 == x;
        assert s[i + 1].0 == x;
      }
    }
  }
}
