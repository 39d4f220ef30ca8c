/** Sums over sequences and counting by injection. */
module Sums {

  function Total<T>(s: seq<T>, f: T -> nat): nat {
    if s == [] then 0 else Total(s[..|s| - 1], f) + f(s[|s| - 1])
  }

  lemma TotalAppend<T>(s: seq<T>, x: T, f: T -> nat)
    ensures Total(s + [x], f) == Total(s, f) + f(x)
  {
    assert (s + [x])[..|s|] == s;
  }

  lemma {:induction false} TotalUpdate<T>(s: seq<T>, i: nat, x: T, f: T -> nat)
    requires i < |s|
    ensures Total(s[i := x], f) + f(s[i]) == Total(s, f) + f(x)
  {
    var n := |s| - 1;
    if i < n {
      TotalUpdate(s[..n], i, x, f);
      assert s[i := x][..n] == s[..n][i := x];
    } else {
      assert s[i := x][..n] == s[..n];
    }
  }

  lemma {:induction false} TotalAtMost<T>(s: seq<T>, f: T -> nat, bound: nat)
    requires forall i :: 0 <= i < |s| ==> f(s[i]) <= bound
    ensures Total(s, f) <= bound * |s|
  {
    if s != [] {
      TotalAtMost(s[..|s| - 1], f, bound);
    }
  }

  lemma {:induction false} TotalMonotone<T>(s: seq<T>, f: T -> nat, g: T -> nat)
    requires forall i :: 0 <= i < |s| ==> f(s[i]) <= g(s[i])
    ensures Total(s, f) <= Total(s, g)
  {
    if s != [] {
      TotalMonotone(s[..|s| - 1], f, g);
    }
  }

  lemma TotalSame<T>(s: seq<T>, f: T -> nat, g: T -> nat)
    requires forall i :: 0 <= i < |s| ==> f(s[i]) == g(s[i])
    ensures Total(s, f) == Total(s, g)
  {
    TotalMonotone(s, f, g);
    TotalMonotone(s, g, f);
  }

  lemma {:induction false} TotalZero<T>(s: seq<T>, f: T -> nat)
    requires forall i :: 0 <= i < |s| ==> f(s[i]) == 0
    ensures Total(s, f) == 0
  {
    if s != [] {
      TotalZero(s[..|s| - 1], f);
    }
  }

  lemma {:induction false} TotalSum<T>(s: seq<T>, f: T -> nat, g: T -> nat, h: T -> nat)
    requires forall i :: 0 <= i < |s| ==> h(s[i]) == f(s[i]) + g(s[i])
    ensures Total(s, h) == Total(s, f) + Total(s, g)
  {
    if s != [] {
      TotalSum(s[..|s| - 1], f, g, h);
    }
  }

  /** At most one element counts, and it counts for at most one. */
  lemma {:induction false} TotalOnce<T>(s: seq<T>, f: T -> nat)
    requires forall i :: 0 <= i < |s| ==> f(s[i]) <= 1
    requires forall i, j :: 0 <= i < j < |s| ==> f(s[i]) == 0 || f(s[j]) == 0
    ensures Total(s, f) <= 1
  {
    if s != [] {
      var n := |s| - 1;
      if f(s[n]) == 0 {
        TotalOnce(s[..n], f);
      } else {
        TotalZero(s[..n], f);
      }
    }
  }

  /** The part of `f` on the elements of one group. */
  function InGroup<T>(f: T -> nat, group: T -> nat, g: nat): T -> nat {
    (x: T) => if group(x) == g then f(x) else 0
  }

  function InGroups<T>(f: T -> nat, group: T -> nat, groups: set<nat>): T -> nat {
    (x: T) => if group(x) in groups then f(x) else 0
  }

  lemma {:induction false} TotalByGroup<T>(s: seq<T>, f: T -> nat, group: T -> nat, groups: set<nat>, bound: nat)
    requires forall g :: g in groups ==> Total(s, InGroup(f, group, g)) <= bound
    ensures Total(s, InGroups(f, group, groups)) <= |groups| * bound
    decreases groups
  {
    if groups == {} {
      TotalZero(s, InGroups(f, group, groups));
    } else {
      var g :| g in groups;
      TotalByGroup(s, f, group, groups - {g}, bound);
      TotalSum(s, InGroups(f, group, groups - {g}), InGroup(f, group, g), InGroups(f, group, groups));
      assert |groups| == |groups - {g}| + 1;
      OneMore(|groups - {g}|, bound);
    }
  }

  lemma OneMore(n: nat, k: nat)
    ensures n * k + k == (n + 1) * k
  {
  }

  /** A finite set that maps injectively into `lo..hi` has at most `hi - lo` elements. */
  lemma {:induction false} Injection(s: set<nat>, f: nat -> int, lo: int, hi: int)
    requires lo <= hi
    requires forall x :: x in s ==> lo <= f(x) < hi
    requires forall x, y :: x in s && y in s && f(x) == f(y) ==> x == y
    ensures |s| <= hi - lo
    decreases hi - lo
  {
    if lo == hi {
      if x :| x in s {
        assert false;
      }
    } else if x :| x in s && f(x) == hi - 1 {
      Injection(s - {x}, f, lo, hi - 1);
    } else {
      Injection(s, f, lo, hi - 1);
    }
  }

  // ---- Sums over sets ------------------------------------------------------------------------

  ghost function SetSum<T>(s: set<T>, f: T -> nat): nat {
    if s == {} then 0
    else
      var x :| x in s;
      SetSum(s - {x}, f) + f(x)
  }

  lemma SetSumEmpty<T>(f: T -> nat)
    ensures SetSum({}, f) == 0
  {
  }

  /** The order in which a set is summed does not matter. */
  lemma {:induction false} SetSumRemove<T>(s: set<T>, x: T, f: T -> nat)
    requires x in s
    ensures SetSum(s, f) == SetSum(s - {x}, f) + f(x)
  {
    var y :| y in s && SetSum(s, f) == SetSum(s - {y}, f) + f(y);
    if x != y {
      SetSumRemove(s - {y}, x, f);
      SetSumRemove(s - {x}, y, f);
      assert s - {x} - {y} == s - {y} - {x};
    }
  }

  lemma SetSumAdd<T>(s: set<T>, x: T, f: T -> nat)
    requires x !in s
    ensures SetSum(s + {x}, f) == SetSum(s, f) + f(x)
  {
    SetSumRemove(s + {x}, x, f);
    assert s + {x} - {x} == s;
  }

  lemma {:induction false} SetSumSame<T>(s: set<T>, f: T -> nat, g: T -> nat)
    requires forall x :: x in s ==> f(x) == g(x)
    ensures SetSum(s, f) == SetSum(s, g)
  {
    if s != {} {
      var x :| x in s;
      SetSumRemove(s, x, f);
      SetSumRemove(s, x, g);
      SetSumSame(s - {x}, f, g);
    }
  }
}
