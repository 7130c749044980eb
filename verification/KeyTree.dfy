// The heap-indexed tree of a chain's nodes (blockchain/types).
module KeyTree {

  function Parent(i: nat): nat requires i > 0 { (i - 1) / 2 }

  function Depth(i: nat): nat { if i == 0 then 0 else 1 + Depth(Parent(i)) }

  function Pow2(n: nat): nat { if n == 0 then 1 else 2 * Pow2(n - 1) }

  // The depth is the whole part of the binary logarithm of i + 1.
  lemma {:induction false} DepthIsLogarithm(i: nat)
    ensures Pow2(Depth(i)) <= i + 1 < Pow2(Depth(i) + 1)
  {
    if i > 0 { DepthIsLogarithm(Parent(i)); }
  }

  // a is a strict ancestor of d.
  predicate Above(a: nat, d: nat)
    ensures Above(a, d) ==> a < d && Depth(a) < Depth(d)
  {
    d > 0 && (Parent(d) == a || Above(a, Parent(d)))
  }

  method IsAncestor(a: nat, d: nat) returns (above: bool)
    ensures above == Above(a, d)
  {
    if d <= a { return false; }
    var cur: nat := d;
    while cur > a
      invariant a <= cur ==> (Above(a, d) <==> a == cur < d || Above(a, cur))
      invariant cur < a ==> !Above(a, d)
      invariant cur <= d
    {
      cur := (cur - 1) / 2;
    }
    above := cur == a;
  }

  // The ancestors of a node are one at each depth.
  lemma {:induction false} OneAncestorADepth(a: nat, b: nat, d: nat)
    requires Above(a, d) && Above(b, d) && Depth(a) == Depth(b)
    ensures a == b
  {
    if Parent(d) != a && Parent(d) != b { OneAncestorADepth(a, b, Parent(d)); }
  }

  // The nodes n steps below `a`: Pow2(n) of them in a row.
  predicate LiesDown(a: nat, d: nat, n: nat) { (a + 1) * Pow2(n) <= d + 1 < (a + 2) * Pow2(n) }

  lemma {:induction false} AboveIsInRange(a: nat, d: nat)
    ensures Above(a, d) <==> exists n: nat :: n > 0 && LiesDown(a, d, n)
  {
    hide LiesDown;
    if d == 0 {
      forall n: nat | n > 0 ensures !LiesDown(a, 0, n) { NotTheRoot(a, n); }
    } else {
      var p := Parent(d);
      AboveIsInRange(a, p);
      AtNoStep(a, p);
      forall n: nat ensures LiesDown(a, p, n) <==> LiesDown(a, d, n + 1) { OneStepDown(a, d, n); }
      if n: nat :| n > 0 && LiesDown(a, d, n) { assert LiesDown(a, p, n - 1); }
      if Above(a, p) {
        var n: nat :| n > 0 && LiesDown(a, p, n);
        assert LiesDown(a, d, n + 1);
      }
    }
  }

  lemma AtNoStep(a: nat, p: nat)
    ensures LiesDown(a, p, 0) <==> p == a
  {
    assert Pow2(0) == 1;
  }

  lemma OneStepDown(a: nat, d: nat, n: nat)
    requires d > 0
    ensures LiesDown(a, Parent(d), n) <==> LiesDown(a, d, n + 1)
  {
    var low, high := (a + 1) * Pow2(n), (a + 2) * Pow2(n);
    assert (a + 1) * Pow2(n + 1) == 2 * low && (a + 2) * Pow2(n + 1) == 2 * high;
  }

  lemma NotTheRoot(a: nat, n: nat)
    requires n > 0
    ensures !LiesDown(a, 0, n)
  {
    PowersGrow(a, n);
  }

  lemma {:induction false} PowersGrow(a: nat, n: nat)
    requires n > 0
    ensures 2 <= (a + 1) * Pow2(n)
  {
    if n > 1 {
      PowersGrow(a, n - 1);
      assert (a + 1) * Pow2(n) == 2 * ((a + 1) * Pow2(n - 1));
    }
  }
}
