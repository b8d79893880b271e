/** Insertion-ordered dicts used as least-recently-used caches: touched entries move to the end,
    eviction pops from the front. */
module Lru {
  datatype Found<+V> = Missing | Hit(value: V)

  /** An ordered dict, front (least recently touched) first. */
  type Dict<K(==), V> = seq<(K, V)>

  function Keys<K(==), V>(d: Dict<K, V>): (ks: seq<K>)
    ensures |ks| == |d|
  {
    seq(|d|, i requires 0 <= i < |d| => d[i].0)
  }

  function Get<K(==), V>(d: Dict<K, V>, k: K): Found<V> {
    if d == [] then Missing
    else if d[|d| - 1].0 == k then Hit(d[|d| - 1].1)
    else Get(d[..|d| - 1], k)
  }

  function Without<K(==), V>(d: Dict<K, V>, k: K): Dict<K, V> {
    if d == [] then []
    else if d[|d| - 1].0 == k then Without(d[..|d| - 1], k)
    else Without(d[..|d| - 1], k) + [d[|d| - 1]]
  }

  /** `d[k] = v` followed by a move to the end. */
  function Touch<K(==), V>(d: Dict<K, V>, k: K, v: V): Dict<K, V> {
    Without(d, k) + [(k, v)]
  }

  /** The last `cap` items. */
  function Trim<T>(d: seq<T>, cap: nat): (t: seq<T>)
    ensures |t| == if |d| > cap then cap else |d|
  {
    if |d| > cap then d[|d| - cap..] else d
  }

  /** The eviction loop: pop from the front while over the cap. */
  method Evict<K(==), V>(d: Dict<K, V>, cap: nat) returns (r: Dict<K, V>)
    ensures r == Trim(d, cap)
  {
    r := d;
    ghost var popped := 0;
    while |r| > cap
      invariant 0 <= popped <= |d| && r == d[popped..]
      invariant popped > 0 ==> |r| >= cap
    {
      assert d[popped..][1..] == d[popped + 1..];
      r := r[1..];
      popped := popped + 1;
    }
  }

  ghost predicate Distinct<K>(ks: seq<K>) {
    forall i, j :: 0 <= i < j < |ks| ==> ks[i] != ks[j]
  }

  lemma {:induction false} GetWithout<K, V>(d: Dict<K, V>, k: K, q: K)
    ensures Get(Without(d, k), q) == if q == k then Missing else Get(d, q)
  {
    if d != [] {
      GetWithout(d[..|d| - 1], k, q);
      var w := Without(d[..|d| - 1], k);
      assert (w + [d[|d| - 1]])[..|w|] == w;
    }
  }

  lemma {:induction false} WithoutShorter<K, V>(d: Dict<K, V>, k: K)
    ensures |Without(d, k)| <= |d|
  {
    if d != [] {
      WithoutShorter(d[..|d| - 1], k);
    }
  }

  lemma {:induction false} GetTouch<K, V>(d: Dict<K, V>, k: K, v: V, q: K)
    ensures Get(Touch(d, k, v), q) == if q == k then Hit(v) else Get(d, q)
  {
    GetWithout(d, k, q);
    var w := Without(d, k);
    assert (w + [(k, v)])[..|w|] == w;
  }

  lemma {:induction false} HitIsKey<K, V>(d: Dict<K, V>, k: K)
    ensures Get(d, k).Hit? <==> k in Keys(d)
  {
    if d != [] {
      var n := |d| - 1;
      HitIsKey(d[..n], k);
      assert Keys(d) == Keys(d[..n]) + [d[n].0];
    }
  }

  lemma {:induction false} GetTrim<K, V>(d: Dict<K, V>, cap: nat, k: K)
    ensures Get(Trim(d, cap), k).Hit? ==> Get(Trim(d, cap), k) == Get(d, k)
  {
    if cap > 0 && |d| > cap {
      var n := |d| - 1;
      if d[n].0 != k {
        GetTrim(d[..n], cap - 1, k);
        assert Trim(d, cap)[..cap - 1] == Trim(d[..n], cap - 1);
      }
    }
  }

  // ---------------------------------------------------------------- the order alone

  function Drop<K(==)>(ks: seq<K>, k: K): seq<K> {
    if ks == [] then []
    else if ks[|ks| - 1] == k then Drop(ks[..|ks| - 1], k)
    else Drop(ks[..|ks| - 1], k) + [ks[|ks| - 1]]
  }

  lemma {:induction false} KeysConcat<K, V>(a: Dict<K, V>, b: Dict<K, V>)
    ensures Keys(a + b) == Keys(a) + Keys(b)
  {
  }

  lemma {:induction false} KeysWithout<K, V>(d: Dict<K, V>, k: K)
    ensures Keys(Without(d, k)) == Drop(Keys(d), k)
  {
    if d != [] {
      var n := |d| - 1;
      KeysWithout(d[..n], k);
      assert Keys(d)[..n] == Keys(d[..n]);
      KeysConcat(Without(d[..n], k), [d[n]]);
    }
  }

  lemma {:induction false} KeysTouch<K, V>(d: Dict<K, V>, k: K, v: V, cap: nat)
    ensures Keys(Trim(Touch(d, k, v), cap)) == Trim(Drop(Keys(d), k) + [k], cap)
  {
    KeysWithout(d, k);
    KeysConcat(Without(d, k), [(k, v)]);
    KeysTrim(Touch(d, k, v), cap);
  }

  lemma {:induction false} KeysTrim<K, V>(d: Dict<K, V>, cap: nat)
    ensures Keys(Trim(d, cap)) == Trim(Keys(d), cap)
  {
  }

  lemma {:induction false} DropNone<K>(ks: seq<K>, k: K)
    requires k !in ks
    ensures Drop(ks, k) == ks
  {
    if ks != [] {
      DropNone(ks[..|ks| - 1], k);
    }
  }

  lemma {:induction false} DropConcat<K>(a: seq<K>, b: seq<K>, k: K)
    ensures Drop(a + b, k) == Drop(a, k) + Drop(b, k)
  {
    if b == [] {
      assert a + b == a;
    } else {
      DropConcat(a, b[..|b| - 1], k);
      assert (a + b)[..|a + b| - 1] == a + b[..|b| - 1];
    }
  }

  lemma {:induction false} DropMembers<K>(ks: seq<K>, k: K)
    ensures k !in Drop(ks, k)
    ensures forall q :: q in Drop(ks, k) <==> q in ks && q != k
  {
    if ks != [] {
      var n := |ks| - 1;
      DropMembers(ks[..n], k);
      assert ks == ks[..n] + [ks[n]];
    }
  }

  lemma {:induction false} DropAt<K>(ks: seq<K>, k: K, i: nat)
    requires i < |Drop(ks, k)|
    ensures Drop(ks, k)[i] in ks && Drop(ks, k)[i] != k
  {
    var n := |ks| - 1;
    if i < |Drop(ks[..n], k)| {
      DropAt(ks[..n], k, i);
    }
  }

  lemma {:induction false} DropDistinct<K>(ks: seq<K>, k: K)
    requires Distinct(ks)
    ensures Distinct(Drop(ks, k))
  {
    if ks != [] {
      var n := |ks| - 1;
      DropDistinct(ks[..n], k);
      DropMembers(ks[..n], k);
      assert ks[n] !in ks[..n];
    }
  }

  lemma {:induction false} DropLength<K>(ks: seq<K>, k: K)
    requires Distinct(ks) && k in ks
    ensures |Drop(ks, k)| == |ks| - 1
  {
    var n := |ks| - 1;
    if ks[n] == k {
      assert k !in ks[..n];
      DropNone(ks[..n], k);
    } else {
      assert k in ks[..n];
      DropLength(ks[..n], k);
    }
  }

  lemma {:induction false} DistinctHalves<K>(a: seq<K>, b: seq<K>, k: K)
    requires Distinct(a + b) && k in b
    ensures k !in a && Distinct(a) && Distinct(b)
  {
    var j :| 0 <= j < |b| && b[j] == k;
    assert (a + b)[|a| + j] == k;
    assert forall i :: 0 <= i < |a| ==> (a + b)[i] == a[i];
    assert forall i :: 0 <= i < |b| ==> (a + b)[|a| + i] == b[i];
  }

  lemma {:induction false} TrimDistinct<K>(ks: seq<K>, cap: nat)
    requires Distinct(ks)
    ensures Distinct(Trim(ks, cap))
  {
    if |ks| > cap {
      assert forall i :: 0 <= i < cap ==> Trim(ks, cap)[i] == ks[|ks| - cap + i];
    }
  }

  lemma {:induction false} DistinctConcat<K>(a: seq<K>, b: seq<K>)
    requires Distinct(a) && Distinct(b) && forall k :: k in b ==> k !in a
    ensures Distinct(a + b)
  {
    forall i, j | 0 <= i < j < |a + b| ensures (a + b)[i] != (a + b)[j] {
      if i < |a| <= j {
        assert b[j - |a|] in b;
      }
    }
  }

  /** The distinct keys of a history, in the order they were last used. */
  function Recent<K(==)>(history: seq<K>): seq<K> {
    if history == [] then []
    else Drop(Recent(history[..|history| - 1]), history[|history| - 1]) + [history[|history| - 1]]
  }

  /** The keys of a cache that is trimmed after every use. */
  function Cached<K(==)>(history: seq<K>, cap: nat): seq<K> {
    if history == [] then []
    else Trim(Drop(Cached(history[..|history| - 1], cap), history[|history| - 1]) + [history[|history| - 1]], cap)
  }

  /** Where a key was last used. */
  ghost function LastUse<K>(history: seq<K>, k: K): (n: nat)
    requires k in history
    ensures n < |history| && history[n] == k && forall m :: n < m < |history| ==> history[m] != k
  {
    var last := |history| - 1;
    if history[last] == k then last else
      assert history == history[..last] + [history[last]];
      LastUse(history[..last], k)
  }

  lemma {:induction false} RecentFacts<K>(history: seq<K>)
    ensures Distinct(Recent(history))
    ensures forall k :: k in Recent(history) <==> k in history
  {
    if history != [] {
      var n := |history| - 1;
      RecentFacts(history[..n]);
      DropMembers(Recent(history[..n]), history[n]);
      DropDistinct(Recent(history[..n]), history[n]);
      assert history == history[..n] + [history[n]];
    }
  }

  lemma {:induction false} DropOrder<K>(ks: seq<K>, k: K, i: nat, j: nat) returns (p: nat, q: nat)
    requires i < j < |Drop(ks, k)|
    ensures p < q < |ks| && ks[p] == Drop(ks, k)[i] && ks[q] == Drop(ks, k)[j]
  {
    var n := |ks| - 1;
    var front := Drop(ks[..n], k);
    if j < |front| {
      p, q := DropOrder(ks[..n], k, i, j);
    } else {
      p := DropIndex(ks[..n], k, i);
      q := n;
    }
  }

  lemma {:induction false} DropIndex<K>(ks: seq<K>, k: K, i: nat) returns (p: nat)
    requires i < |Drop(ks, k)|
    ensures p < |ks| && ks[p] == Drop(ks, k)[i]
  {
    var n := |ks| - 1;
    if i < |Drop(ks[..n], k)| {
      p := DropIndex(ks[..n], k, i);
    } else {
      p := n;
    }
  }

  lemma {:induction false} LastUseEarlier<K>(front: seq<K>, k: K, q: K)
    requires q in front && q != k
    ensures q in front + [k] && LastUse(front + [k], q) == LastUse(front, q)
  {
    assert (front + [k])[..|front|] == front;
  }

  /** `Recent` really is ordered by last use. */
  lemma {:induction false} RecentOrder<K>(history: seq<K>, i: nat, j: nat)
    requires i < j < |Recent(history)|
    ensures Recent(history)[i] in history && Recent(history)[j] in history
    ensures LastUse(history, Recent(history)[i]) < LastUse(history, Recent(history)[j])
  {
    RecentFacts(history);
    var n := |history| - 1;
    var front, k := history[..n], history[n];
    assert history == front + [k];
    var dropped := Drop(Recent(front), k);
    RecentFacts(front);
    DropMembers(Recent(front), k);
    DropAt(Recent(front), k, i);
    LastUseEarlier(front, k, dropped[i]);
    if j < |dropped| {
      DropAt(Recent(front), k, j);
      LastUseEarlier(front, k, dropped[j]);
      var p, q := DropOrder(Recent(front), k, i, j);
      RecentOrder(front, p, q);
    }
  }

  lemma {:induction false} TrimConcat<T>(a: seq<T>, b: seq<T>)
    ensures Trim(a + b, |b|) == b
  {
  }

  lemma {:induction false} TouchResident<K>(a: seq<K>, b: seq<K>, k: K)
    requires Distinct(a + b) && k in b
    ensures Trim(Drop(b, k) + [k], |b|) == Trim(Drop(a + b, k) + [k], |b|)
  {
    DropConcat(a, b, k);
    DistinctHalves(a, b, k);
    DropNone(a, k);
    DropLength(b, k);
    assert Drop(a + b, k) + [k] == a + (Drop(b, k) + [k]);
    TrimConcat(a, Drop(b, k) + [k]);
  }

  lemma {:induction false} TouchEvicted<K>(a: seq<K>, b: seq<K>, k: K)
    requires k !in b
    ensures Trim(Drop(b, k) + [k], |b|) == Trim(Drop(a + b, k) + [k], |b|)
  {
    DropConcat(a, b, k);
    DropNone(b, k);
    var c := b + [k];
    assert Drop(a + b, k) + [k] == Drop(a, k) + c;
    if b != [] {
      assert Trim(c, |b|) == c[1..];
      assert Drop(a, k) + c == (Drop(a, k) + c[..1]) + c[1..];
      TrimConcat(Drop(a, k) + c[..1], c[1..]);
    }
  }

  lemma {:induction false} TouchTrimmed<K>(r: seq<K>, k: K, cap: nat)
    requires Distinct(r)
    ensures Trim(Drop(Trim(r, cap), k) + [k], cap) == Trim(Drop(r, k) + [k], cap)
  {
    if |r| > cap {
      var a, b := r[..|r| - cap], r[|r| - cap..];
      assert r == a + b;
      if k in b {
        TouchResident(a, b, k);
      } else {
        TouchEvicted(a, b, k);
      }
    }
  }

  /** A cache trimmed after every use is exact: it always holds the last `cap` distinct keys used, in
      order of last use. */
  lemma {:induction false} CacheExact<K>(history: seq<K>, cap: nat)
    ensures Cached(history, cap) == Trim(Recent(history), cap)
  {
    if history != [] {
      var n := |history| - 1;
      CacheExact(history[..n], cap);
      RecentFacts(history[..n]);
      TouchTrimmed(Recent(history[..n]), history[n], cap);
    }
  }

  /** With room for one, the key just used is resident, and last in line for eviction. */
  lemma {:induction false} JustUsedStays<K>(history: seq<K>, cap: nat)
    requires history != [] && cap >= 1
    ensures Cached(history, cap) != []
    ensures Cached(history, cap)[|Cached(history, cap)| - 1] == history[|history| - 1]
  {
    CacheExact(history, cap);
  }

  /** The part of `Recent` before and after a key, split at its last use. */
  lemma {:induction false} RecentSplit<K>(a: seq<K>, k: K, after: seq<K>) returns (before: seq<K>)
    requires k !in after
    ensures Recent(a + [k] + after) == before + [k] + Recent(after)
  {
    hide Recent, Drop;
    if after == [] {
      assert a + [k] + after == a + [k];
      RecentAppend(a, k);
      RecentNone<K>();
      before := Drop(Recent(a), k);
      assert before + [k] + [] == before + [k];
    } else {
      var n := |after| - 1;
      var x := after[n];
      var front := RecentSplit(a, k, after[..n]);
      assert after == after[..n] + [x];
      assert a + [k] + after == (a + [k] + after[..n]) + [x];
      RecentAppend(a + [k] + after[..n], x);
      RecentAppend(after[..n], x);
      before := Drop(front, x);
      RecentSplitStep(front, k, Recent(after[..n]), x);
    }
  }

  lemma {:induction false} RecentNone<K>()
    ensures Recent<K>([]) == []
  {
  }

  lemma {:induction false} RecentAppend<K>(history: seq<K>, k: K)
    ensures Recent(history + [k]) == Drop(Recent(history), k) + [k]
  {
    assert (history + [k])[..|history|] == history;
  }

  lemma {:induction false} RecentSplitStep<K>(before: seq<K>, k: K, r: seq<K>, x: K)
    requires x != k
    ensures Drop(before + [k] + r, x) + [x] == Drop(before, x) + [k] + (Drop(r, x) + [x])
  {
    DropConcat(before + [k], r, x);
    DropConcat(before, [k], x);
    DropNone([k], x);
  }

  lemma {:induction false} LastUseAfter<K>(history: seq<K>, k: K)
    requires k in history
    ensures k !in history[LastUse(history, k) + 1..]
    ensures history == history[..LastUse(history, k)] + [k] + history[LastUse(history, k) + 1..]
  {
  }

  /** A key is resident exactly when fewer than `cap` other keys were used since its last use. */
  lemma {:induction false} ResidentIff<K>(history: seq<K>, cap: nat, k: K)
    ensures k in Cached(history, cap)
            <==> k in history && |Recent(history[LastUse(history, k) + 1..])| < cap
  {
    hide Recent, Cached;
    CacheExact(history, cap);
    RecentFacts(history);
    if k in history {
      LastUseAfter(history, k);
      var n := LastUse(history, k);
      var after := history[n + 1..];
      var before := RecentSplit(history[..n], k, after);
      RecentFacts(after);
      TrimmedMember(before, k, Recent(after), cap);
    }
  }

  lemma {:induction false} TrimmedMember<K>(before: seq<K>, k: K, after: seq<K>, cap: nat)
    requires k !in after
    ensures k in Trim(before + [k] + after, cap) <==> |after| < cap
  {
    var all := before + [k] + after;
    if |after| < cap {
      var t := Trim(all, cap);
      assert t[|t| - |after| - 1] == k;
    } else {
      assert all == (before + [k]) + after;
      assert forall i :: 0 <= i < cap ==> Trim(all, cap)[i] == after[|after| - cap + i];
    }
  }
}
