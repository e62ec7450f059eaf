/** Sums over the workers of a pool, what one worker's step does to them, and lists of worker ids. */
module Counting {

  ghost function Sum<T>(f: T -> int, s: seq<T>): int {
    if s == [] then 0 else f(s[0]) + Sum(f, s[1..])
  }

  lemma {:induction false} SumUpdate<T>(f: T -> int, s: seq<T>, i: nat, v: T)
    requires i < |s|
    ensures Sum(f, s[i := v]) == Sum(f, s) - f(s[i]) + f(v)
    decreases |s|
  {
    if i == 0 {
      assert s[i := v][1..] == s[1..];
    } else {
      assert s[i := v][1..] == s[1..][i - 1 := v];
      SumUpdate(f, s[1..], i - 1, v);
    }
  }

  lemma {:induction false} SumAppend<T>(f: T -> int, s: seq<T>, v: T)
    ensures Sum(f, s + [v]) == Sum(f, s) + f(v)
    decreases |s|
  {
    if s == [] {
      assert (s + [v])[1..] == [];
    } else {
      assert (s + [v])[1..] == s[1..] + [v];
      SumAppend(f, s[1..], v);
    }
  }

  /** Position by position, `f` over `s` and `g` over `t` agree. */
  lemma {:induction false} SumEqual<T>(f: T -> int, s: seq<T>, g: T -> int, t: seq<T>)
    requires |s| == |t| && forall i :: 0 <= i < |s| ==> f(s[i]) == g(t[i])
    ensures Sum(f, s) == Sum(g, t)
    decreases |s|
  {
    if s != [] {
      forall i | 0 <= i < |s[1..]| ensures f(s[1..][i]) == g(t[1..][i]) {
        assert f(s[i + 1]) == g(t[i + 1]);
      }
      SumEqual(f, s[1..], g, t[1..]);
    }
  }

  lemma {:induction false} SumConstant<T>(f: T -> int, s: seq<T>, c: int)
    requires forall i :: 0 <= i < |s| ==> f(s[i]) == c
    ensures Sum(f, s) == |s| * c
    decreases |s|
  {
    if s != [] {
      forall i | 0 <= i < |s[1..]| ensures f(s[1..][i]) == c {
        assert f(s[i + 1]) == c;
      }
      SumConstant(f, s[1..], c);
      assert |s| * c == |s[1..]| * c + c;
    }
  }

  /** A sum of non-negative terms is at least each of them. */
  lemma {:induction false} SumAtLeast<T>(f: T -> int, s: seq<T>, i: nat)
    requires i < |s| && forall j :: 0 <= j < |s| ==> 0 <= f(s[j])
    ensures f(s[i]) <= Sum(f, s)
    decreases |s|
  {
    SumNonNegative(f, s[1..]);
    if i != 0 {
      assert 0 <= f(s[0]);
      SumAtLeast(f, s[1..], i - 1);
    }
  }

  lemma {:induction false} SumNonNegative<T>(f: T -> int, s: seq<T>)
    requires forall j :: 0 <= j < |s| ==> 0 <= f(s[j])
    ensures 0 <= Sum(f, s)
    decreases |s|
  {
    if s != [] {
      SumNonNegative(f, s[1..]);
      assert 0 <= f(s[0]);
    }
  }

  lemma {:induction false} SumAtMost<T>(f: T -> int, s: seq<T>, c: int)
    requires forall j :: 0 <= j < |s| ==> f(s[j]) <= c
    ensures Sum(f, s) <= |s| * c
    decreases |s|
  {
    if s != [] {
      SumAtMost(f, s[1..], c);
      assert |s| * c == |s[1..]| * c + c && f(s[0]) <= c;
    }
  }

  /** Terms of at most one that add up to the number of terms are all one. */
  lemma {:induction false} SumFull<T>(f: T -> int, s: seq<T>, i: nat)
    requires i < |s| && (forall j :: 0 <= j < |s| ==> f(s[j]) <= 1) && |s| <= Sum(f, s)
    ensures f(s[i]) == 1
    decreases |s|
  {
    SumAtMost(f, s[1..], 1);
    assert f(s[0]) <= 1;
    if i != 0 {
      SumFull(f, s[1..], i - 1);
    }
  }

  /** A sum that exceeds the number of terms times `c` has a term above `c`. */
  lemma {:induction false} SumWitness<T>(f: T -> int, s: seq<T>, c: int) returns (i: nat)
    requires |s| * c < Sum(f, s)
    ensures i < |s| && c < f(s[i])
    decreases |s|
  {
    if c < f(s[0]) {
      i := 0;
    } else {
      assert |s[1..]| * c == |s| * c - c;
      i := SumWitness(f, s[1..], c);
      i := i + 1;
    }
  }

  /** The numbers below `n`. */
  ghost function Below(n: nat): (s: set<nat>)
    ensures |s| == n && forall i: nat :: i in s <==> i < n
  {
    if n == 0 then {} else Below(n - 1) + {n - 1}
  }

  ghost predicate Distinct<T>(s: seq<T>) {
    forall i, j :: 0 <= i < j < |s| ==> s[i] != s[j]
  }

  lemma {:induction false} DistinctSize<T>(s: seq<T>)
    requires Distinct(s)
    ensures |set x | x in s| == |s|
    decreases |s|
  {
    if s != [] {
      var r := s[..|s| - 1];
      DistinctSize(r);
      assert (set x | x in s) == (set x | x in r) + {s[|s| - 1]};
    }
  }

  /** Distinct ids below `n`: a shorter list misses one, a list of `n` has each exactly once. */
  lemma Pigeonhole(s: seq<nat>, n: nat)
    requires Distinct(s) && forall x :: x in s ==> x < n
    ensures |s| <= n
    ensures |s| < n ==> exists i: nat :: i < n && i !in s
    ensures |s| == n ==> forall i: nat :: i < n ==> i in s && multiset(s)[i] == 1
  {
    var ids := set x | x in s;
    DistinctSize(s);
    SubsetSize(ids, Below(n));
    if |s| < n && Below(n) <= ids {
      SubsetSize(Below(n), ids);
      assert false;
    }
    if |s| == n {
      forall i: nat | i < n ensures i in s && multiset(s)[i] == 1 {
        if i !in s {
          SubsetSize(ids, Below(n) - {i});
        }
        DistinctOnce(s, i);
      }
    }
  }

  lemma {:induction false} SubsetSize<T>(a: set<T>, b: set<T>)
    requires a <= b
    ensures |a| <= |b|
    decreases |a|
  {
    if a != {} {
      var x :| x in a;
      SubsetSize(a - {x}, b - {x});
    }
  }

  lemma {:induction false} DistinctOnce<T>(s: seq<T>, x: T)
    requires Distinct(s) && x in s
    ensures multiset(s)[x] == 1
    decreases |s|
  {
    var r := s[..|s| - 1];
    assert s == r + [s[|s| - 1]];
    if s[|s| - 1] == x {
      assert x !in r;
    } else {
      DistinctOnce(r, x);
    }
  }
}
