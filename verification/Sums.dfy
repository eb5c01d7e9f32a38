/** Sums of a weight over a sequence. */
module Sums {
  function Sum<T>(f: T -> int, s: seq<T>): int {
    if s == [] then 0 else Sum(f, s[..|s| - 1]) + f(s[|s| - 1])
  }

  lemma SumSnoc<T>(f: T -> int, s: seq<T>, x: T)
    ensures Sum(f, s + [x]) == Sum(f, s) + f(x)
  {
    assert (s + [x])[..|s|] == s;
  }

  lemma {:induction false} SumUpdate<T>(f: T -> int, s: seq<T>, k: nat, x: T)
    requires k < |s|
    ensures Sum(f, s[k := x]) == Sum(f, s) - f(s[k]) + f(x)
  {
    var n := |s| - 1;
    if k == n {
      assert s[k := x][..n] == s[..n];
    } else {
      assert s[k := x][..n] == s[..n][k := x];
      SumUpdate(f, s[..n], k, x);
    }
  }

  function SumReal<T>(f: T -> real, s: seq<T>): real {
    if s == [] then 0.0 else SumReal(f, s[..|s| - 1]) + f(s[|s| - 1])
  }

  lemma SumRealSnoc<T>(f: T -> real, s: seq<T>, x: T)
    ensures SumReal(f, s + [x]) == SumReal(f, s) + f(x)
  {
    assert (s + [x])[..|s|] == s;
  }

  lemma {:induction false} SumRealUpdate<T>(f: T -> real, s: seq<T>, k: nat, x: T)
    requires k < |s|
    ensures SumReal(f, s[k := x]) == SumReal(f, s) - f(s[k]) + f(x)
  {
    var n := |s| - 1;
    if k == n {
      assert s[k := x][..n] == s[..n];
    } else {
      assert s[k := x][..n] == s[..n][k := x];
      SumRealUpdate(f, s[..n], k, x);
    }
  }
}
