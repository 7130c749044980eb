// Sums of real-valued functions over sequences, and the exchange of two sums.
module Sums {

  ghost function Sum<T>(s: seq<T>, f: T -> real): real {
    if s == [] then 0.0 else Sum(s[..|s| - 1], f) + f(s[|s| - 1])
  }

  // The sum of f(0), …, f(n - 1).
  ghost function SumTo(n: nat, f: int -> real): real {
    if n == 0 then 0.0 else SumTo(n - 1, f) + f(n - 1)
  }

  predicate Distinct<T(==)>(s: seq<T>) {
    forall i, j | 0 <= i < j < |s| :: s[i] != s[j]
  }

  lemma {:induction false} SumSnoc<T>(s: seq<T>, x: T, f: T -> real)
    ensures Sum(s + [x], f) == Sum(s, f) + f(x)
  {
    assert (s + [x])[..|s|] == s;
  }

  lemma {:induction false} SumConcat<T>(s: seq<T>, t: seq<T>, f: T -> real)
    ensures Sum(s + t, f) == Sum(s, f) + Sum(t, f)
  {
    if t == [] {
      assert s + t == s;
    } else {
      var t', x := t[..|t| - 1], t[|t| - 1];
      assert t == t' + [x] && s + t == (s + t') + [x];
      SumConcat(s, t', f);
      SumSnoc(s + t', x, f);
      SumSnoc(t', x, f);
    }
  }

  lemma {:induction false} SumLe<T>(s: seq<T>, f: T -> real, g: T -> real, slack: real)
    requires forall i | 0 <= i < |s| :: f(s[i]) <= g(s[i]) + slack
    ensures Sum(s, f) <= Sum(s, g) + slack * (|s| as real)
  {
    if s != [] {
      SumLe(s[..|s| - 1], f, g, slack);
    }
  }

  lemma {:induction false} SumToLe(n: nat, f: int -> real, g: int -> real)
    requires forall i | 0 <= i < n :: f(i) <= g(i)
    ensures SumTo(n, f) <= SumTo(n, g)
  {
    if n > 0 { SumToLe(n - 1, f, g); }
  }

  lemma {:induction false} SumToEq(n: nat, f: int -> real, g: int -> real)
    requires forall i | 0 <= i < n :: f(i) == g(i)
    ensures SumTo(n, f) == SumTo(n, g)
  {
    if n > 0 { SumToEq(n - 1, f, g); }
  }

  lemma {:induction false} SumToAdd(n: nat, f: int -> real, g: int -> real, h: int -> real)
    requires forall i | 0 <= i < n :: h(i) == f(i) + g(i)
    ensures SumTo(n, h) == SumTo(n, f) + SumTo(n, g)
  {
    if n > 0 { SumToAdd(n - 1, f, g, h); }
  }

  // Rows and columns of one table: Σ_x Σ_i f(x, i) == Σ_i Σ_x f(x, i).
  lemma {:induction false} Exchange<T(!new)>(s: seq<T>, n: nat, row: T -> (int -> real), col: int -> (T -> real),
                                             rowSum: T -> real, colSum: int -> real)
    requires forall x, i | x in s && 0 <= i < n :: row(x)(i) == col(i)(x)
    requires forall x | x in s :: rowSum(x) == SumTo(n, row(x))
    requires forall i | 0 <= i < n :: colSum(i) == Sum(s, col(i))
    ensures Sum(s, rowSum) == SumTo(n, colSum)
  {
    if s == [] {
      SumToEq(n, colSum, i => 0.0);
      SumToZero(n);
    } else {
      var t, x := s[..|s| - 1], s[|s| - 1];
      var colSum' := (i: int) => Sum(t, col(i));
      Exchange(t, n, row, col, rowSum, colSum');
      SumToAdd(n, colSum', row(x), colSum);
    }
  }

  lemma {:induction false} SumToZero(n: nat)
    ensures SumTo(n, i => 0.0) == 0.0
  {
    if n > 0 { SumToZero(n - 1); }
  }

  lemma {:induction false} SumZero<T>(s: seq<T>, f: T -> real)
    requires forall i | 0 <= i < |s| :: f(s[i]) == 0.0
    ensures Sum(s, f) == 0.0
  {
    if s != [] { SumZero(s[..|s| - 1], f); }
  }

  // A function that is zero on a distinct sequence everywhere but at `k` sums to its value there.
  lemma {:induction false} SumPoint<T>(s: seq<T>, f: T -> real, k: T)
    requires Distinct(s)
    requires forall i | 0 <= i < |s| && s[i] != k :: f(s[i]) == 0.0
    ensures Sum(s, f) == if k in s then f(k) else 0.0
  {
    if s == [] {
    } else {
      var t, x := s[..|s| - 1], s[|s| - 1];
      assert s == t + [x];
      if x == k {
        SumZero(t, f);
      } else {
        SumPoint(t, f, k);
        assert k in s <==> k in t;
      }
    }
  }

  lemma {:induction false} SumToPoint(n: nat, f: int -> real, k: nat)
    requires forall i | 0 <= i < n && i != k :: f(i) == 0.0
    ensures SumTo(n, f) == if k < n then f(k) else 0.0
  {
    if n > 0 { SumToPoint(n - 1, f, k); }
  }

  lemma {:induction false} SumEq<T>(s: seq<T>, f: T -> real, g: T -> real)
    requires forall i | 0 <= i < |s| :: f(s[i]) == g(s[i])
    ensures Sum(s, f) == Sum(s, g)
  {
    if s != [] { SumEq(s[..|s| - 1], f, g); }
  }

  lemma {:induction false} SumAdd<T>(s: seq<T>, f: T -> real, g: T -> real, h: T -> real)
    requires forall i | 0 <= i < |s| :: h(s[i]) == f(s[i]) + g(s[i])
    ensures Sum(s, h) == Sum(s, f) + Sum(s, g)
  {
    if s != [] { SumAdd(s[..|s| - 1], f, g, h); }
  }

  // A sum whose terms vanish but at one position.
  lemma {:induction false} SumAtIndex<T>(s: seq<T>, f: T -> real, p: nat)
    requires p < |s| && forall i | 0 <= i < |s| && i != p :: f(s[i]) == 0.0
    ensures Sum(s, f) == f(s[p])
  {
    if p == |s| - 1 {
      SumZero(s[..p], f);
    } else {
      SumAtIndex(s[..|s| - 1], f, p);
    }
  }

  // A finite set listed without repetition.
  lemma SetAsSeq<T(!new)>(xs: set<T>) returns (s: seq<T>)
    ensures Distinct(s) && |s| == |xs|
    ensures forall x :: x in s <==> x in xs
  {
    if xs == {} {
      s := [];
    } else {
      var x :| x in xs;
      var t := SetAsSeq(xs - {x});
      s := t + [x];
    }
  }
}
