/** Facts about sequences of anything. */
module Sequences {
  /** No element occurs twice. */
  ghost predicate Distinct<T>(s: seq<T>) {
    forall i, j :: 0 <= i < j < |s| ==> s[i] != s[j]
  }

  /** Two places of an element that occurs at least twice. */
  lemma TwoOf<T>(s: seq<T>, x: T) returns (i: nat, j: nat)
    requires multiset(s)[x] >= 2
    ensures i < j < |s| && s[i] == x && s[j] == x
  {
    i :| i < |s| && s[i] == x;
    assert s == s[..i] + [x] + s[i + 1..];
    var rest := s[..i] + s[i + 1..];
    assert multiset(s) == multiset(rest) + multiset{x};
    var k: nat :| k < |rest| && rest[k] == x;
    j := if k < i then k else k + 1;
    assert s[j] == x && i != j;
    if j < i {
      i, j := j, i;
    }
  }

  lemma TwiceCounts<T>(s: seq<T>, k: nat, l: nat)
    requires k < l < |s| && s[k] == s[l]
    ensures multiset(s)[s[k]] >= 2
  {
    assert s == s[..l] + [s[l]] + s[l + 1..];
    assert s[..l][k] == s[k];
    assert s[k] in multiset(s[..l]);
  }

  /** Every element of a rearrangement has a place in the original. */
  lemma PlaceOf<T>(s: seq<T>, t: seq<T>, k: nat) returns (i: nat)
    requires multiset(s) == multiset(t) && k < |t|
    ensures i < |s| && s[i] == t[k]
  {
    assert t[k] in multiset(s);
    i :| i < |s| && s[i] == t[k];
  }

  /** Distinct numbers below m are at most m of them. */
  lemma {:induction false} Pigeonhole(f: seq<nat>, m: nat)
    requires forall i :: 0 <= i < |f| ==> f[i] < m
    requires Distinct(f)
    ensures |f| <= m
    decreases m
  {
    if f != [] {
      assert 0 <= f[0] < m;
      if p: nat :| p < |f| && f[p] == m - 1 {
        Pigeonhole(f[..p] + f[p + 1..], m - 1);
      } else {
        Pigeonhole(f, m - 1);
      }
    }
  }

  /** s with x put in before its element k. */
  function Spliced<T>(s: seq<T>, k: nat, x: T): (r: seq<T>)
    requires k <= |s|
    ensures |r| == |s| + 1
  {
    s[..k] + [x] + s[k..]
  }

  lemma SplicedAt<T>(s: seq<T>, k: nat, x: T, i: nat)
    requires k <= |s| && i <= |s|
    ensures Spliced(s, k, x)[i] == if i < k then s[i] else if i == k then x else s[i - 1]
  {
  }

  lemma SplicedCounts<T>(s: seq<T>, k: nat, x: T)
    requires k <= |s|
    ensures multiset(Spliced(s, k, x)) == multiset(s) + multiset{x}
  {
    assert s == s[..k] + s[k..];
  }

  lemma HeadIsIn<T>(t: seq<T>)
    ensures t != [] ==> t[0] in t
  {
  }
}
