/**
 * Calendar-day keys are "YYYY-MM-DD" strings, and the weekly window picks the
 * greatest of them. This module gives the string order the selection uses
 * (character-by-character lexicographic order, which on "YYYY-MM-DD" strings is the
 * chronological order) and the descending listing of a set of keys.
 */
module Dates {

  /** `a` sorts strictly before `b` in lexicographic order. */
  predicate Before(a: string, b: string)
    decreases |a|
  {
    if |a| == 0 then |b| > 0
    else if |b| == 0 then false
    else if a[0] != b[0] then a[0] < b[0]
    else Before(a[1..], b[1..])
  }

  lemma {:induction false} BeforeIrreflexive(a: string)
    ensures !Before(a, a)
    decreases |a|
  {
    if |a| > 0 {
      BeforeIrreflexive(a[1..]);
    }
  }

  lemma {:induction false} BeforeAsymmetric(a: string, b: string)
    requires Before(a, b)
    ensures !Before(b, a)
    decreases |a|
  {
    if |a| > 0 && |b| > 0 && a[0] == b[0] {
      BeforeAsymmetric(a[1..], b[1..]);
    }
  }

  lemma {:induction false} BeforeTransitive(a: string, b: string, c: string)
    requires Before(a, b) && Before(b, c)
    ensures Before(a, c)
    decreases |a|
  {
    if |a| > 0 && a[0] == b[0] && b[0] == c[0] {
      BeforeTransitive(a[1..], b[1..], c[1..]);
    }
  }

  lemma {:induction false} BeforeTotal(a: string, b: string)
    requires a != b
    ensures Before(a, b) || Before(b, a)
    decreases |a|
  {
    if |a| > 0 && |b| > 0 && a[0] == b[0] {
      assert a == [a[0]] + a[1..] && b == [b[0]] + b[1..];
      BeforeTotal(a[1..], b[1..]);
    }
  }

  /** `k` is the greatest element of `keys`. */
  predicate IsGreatest(k: string, keys: set<string>) {
    k in keys && forall x :: x in keys && x != k ==> Before(x, k)
  }

  lemma {:induction false} GreatestExists(keys: set<string>)
    requires keys != {}
    ensures exists k :: IsGreatest(k, keys)
    decreases |keys|
  {
    var y :| y in keys;
    var rest := keys - {y};
    if rest == {} {
      assert keys == {y};
      assert IsGreatest(y, keys);
    } else {
      GreatestExists(rest);
      var m :| IsGreatest(m, rest);
      BeforeTotal(y, m);
      if Before(y, m) {
        assert IsGreatest(m, keys);
      } else {
        forall x | x in keys && x != y
          ensures Before(x, y)
        {
          if x != m {
            BeforeTransitive(x, m, y);
          }
        }
        assert IsGreatest(y, keys);
      }
    }
  }

  lemma GreatestUnique(keys: set<string>, k1: string, k2: string)
    requires IsGreatest(k1, keys) && IsGreatest(k2, keys)
    ensures k1 == k2
  {
    if k1 != k2 {
      BeforeAsymmetric(k1, k2);
    }
  }

  /** The greatest key of a non-empty set. */
  function Greatest(keys: set<string>): (k: string)
    requires keys != {}
    ensures IsGreatest(k, keys)
  {
    GreatestExists(keys);
    forall k1, k2 | IsGreatest(k1, keys) && IsGreatest(k2, keys)
      ensures k1 == k2
    {
      GreatestUnique(keys, k1, k2);
    }
    var k :| IsGreatest(k, keys);
    k
  }

  /** Every key of `keys`, each once, greatest first. */
  function Descending(keys: set<string>): (r: seq<string>)
    ensures |r| == |keys|
    ensures forall i :: 0 <= i < |r| ==> r[i] in keys
    ensures forall k :: k in keys ==> k in r
    ensures forall i, j :: 0 <= i < j < |r| ==> Before(r[j], r[i])
    decreases |keys|
  {
    if keys == {} then []
    else
      var m := Greatest(keys);
      var rest := Descending(keys - {m});
      assert forall j :: 0 <= j < |rest| ==> rest[j] != m && Before(rest[j], m);
      [m] + rest
  }

  /** `s` in reverse order. */
  function Reverse<T>(s: seq<T>): (r: seq<T>)
    ensures |r| == |s|
    ensures forall i :: 0 <= i < |s| ==> r[i] == s[|s| - 1 - i]
  {
    if s == [] then [] else Reverse(s[1..]) + [s[0]]
  }

  /**
   * Reversing a prefix of a strictly descending sequence gives an ascending
   * one, and whatever the prefix leaves out is below all of it.
   */
  lemma ReversedPrefix(d: seq<string>, m: nat, r: seq<string>)
    requires m <= |d| && r == Reverse(d[..m])
    requires forall i, j :: 0 <= i < j < |d| ==> Before(d[j], d[i])
    ensures forall i, j :: 0 <= i < j < |r| ==> Before(r[i], r[j])
    ensures forall x, i :: x in d && x !in r && 0 <= i < |r| ==> Before(x, r[i])
  {
    assert forall j :: 0 <= j < m ==> r[m - 1 - j] == d[j];
    forall x, i | x in d && x !in r && 0 <= i < |r|
      ensures Before(x, r[i])
    {
      var j :| 0 <= j < |d| && d[j] == x;
      assert r[i] == d[m - 1 - i];
    }
  }

  /**
   * The `n` greatest keys of `keys` (all of them when there are fewer),
   * in ascending order: sort descending, keep the first `n`, reverse.
   */
  function LatestAscending(keys: set<string>, n: nat): (r: seq<string>)
    ensures |r| == if |keys| < n then |keys| else n
    ensures forall i :: 0 <= i < |r| ==> r[i] in keys
    ensures forall i, j :: 0 <= i < j < |r| ==> Before(r[i], r[j])
    ensures forall k, i :: k in keys && k !in r && 0 <= i < |r| ==> Before(k, r[i])
  {
    var d := Descending(keys);
    var m := if |d| < n then |d| else n;
    var r := Reverse(d[..m]);
    ReversedPrefix(d, m, r);
    forall k, i | k in keys && k !in r && 0 <= i < |r|
      ensures Before(k, r[i])
    {
      assert k in d;
    }
    r
  }
}
