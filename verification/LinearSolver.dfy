// The price of axes by weighted least squares (docs/pilot/axis-prices.py): normal equations
// with a ridge, solved in place by Gauss-Jordan elimination with row exchange. Over reals.
module LinearSolver {
  import opened Options

  type Vector = seq<real>
  type Matrix = seq<seq<real>>

  // ---------- Vectors ----------

  // The first k products.
  function Dot(a: Vector, b: Vector, k: nat): real
    requires k <= |a| && k <= |b|
  {
    if k == 0 then 0.0 else Dot(a, b, k - 1) + a[k - 1] * b[k - 1]
  }

  lemma {:induction false} DotZero(a: Vector, b: Vector, k: nat)
    requires k <= |a| && k <= |b| && forall i | 0 <= i < k :: a[i] == 0.0 || b[i] == 0.0
    ensures Dot(a, b, k) == 0.0
  {
    if k > 0 { DotZero(a, b, k - 1); }
  }

  // Products that vanish but at one or two positions.
  lemma {:induction false} DotTwo(a: Vector, b: Vector, k: nat, i: nat, j: nat)
    requires k <= |a| && k <= |b| && i < j < k
    requires forall l | 0 <= l < k && l != i && l != j :: a[l] == 0.0 || b[l] == 0.0
    ensures Dot(a, b, k) == a[i] * b[i] + a[j] * b[j]
  {
    if k - 1 == j {
      DotOne(a, b, k - 1, i);
    } else {
      DotTwo(a, b, k - 1, i, j);
    }
  }

  lemma {:induction false} DotOne(a: Vector, b: Vector, k: nat, i: nat)
    requires k <= |a| && k <= |b| && i < k
    requires forall l | 0 <= l < k && l != i :: a[l] == 0.0 || b[l] == 0.0
    ensures Dot(a, b, k) == a[i] * b[i]
  {
    if k - 1 == i {
      DotZero(a, b, k - 1);
    } else {
      DotOne(a, b, k - 1, i);
    }
  }

  // Row c minus f times row a, as elimination leaves it.
  lemma {:induction false} DotMinus(a: Vector, c: Vector, r: Vector, f: real, x: Vector, k: nat)
    requires k <= |a| && k <= |c| && k <= |r| && k <= |x|
    requires forall i | 0 <= i < k :: r[i] == c[i] - f * a[i]
    ensures Dot(r, x, k) == Dot(c, x, k) - f * Dot(a, x, k)
  {
    if k > 0 {
      DotMinus(a, c, r, f, x, k - 1);
      Distribute(c[k - 1], f, a[k - 1], x[k - 1], Dot(a, x, k - 1));
    }
  }

  function Times(x: real, y: real): real { x * y }

  // Row r is row c plus g times row a.
  ghost predicate IsSum(a: Vector, c: Vector, r: Vector, g: real, k: nat) {
    k <= |a| && k <= |c| && k <= |r| && forall i | 0 <= i < k :: r[i] == c[i] + Times(g, a[i])
  }

  lemma {:induction false} DotAdd(a: Vector, c: Vector, r: Vector, g: real, x: Vector, k: nat)
    requires IsSum(a, c, r, g, k) && k <= |x|
    ensures Dot(r, x, k) == Dot(c, x, k) + Times(g, Dot(a, x, k))
  {
    if k > 0 {
      DotAdd(a, c, r, g, x, k - 1);
      DotLast(a, x, k);
      DotLast(c, x, k);
      DotLast(r, x, k);
      hide Dot;
      Gather(g, c[k - 1], a[k - 1], x[k - 1], Dot(a, x, k - 1));
      assert r[k - 1] == c[k - 1] + Times(g, a[k - 1]);
      hide Times;
    } else {
      TimesZero(g);
    }
  }

  lemma DotLast(a: Vector, b: Vector, k: nat)
    requires 0 < k <= |a| && k <= |b|
    ensures Dot(a, b, k) == Dot(a, b, k - 1) + Times(a[k - 1], b[k - 1])
  {
  }

  lemma TimesZero(g: real)
    ensures Times(g, 0.0) == 0.0
  {
  }

  lemma Gather(g: real, c: real, a: real, x: real, d: real)
    ensures Times(c + Times(g, a), x) + Times(g, d) == Times(c, x) + Times(g, d + Times(a, x))
  {
  }

  lemma Distribute(c: real, f: real, a: real, x: real, d: real)
    ensures (c - f * a) * x - f * d == c * x - f * (d + a * x)
  {
  }

  // ---------- Linear systems ----------

  // n rows of n coefficients and a right-hand side.
  ghost predicate IsSystem(m: Matrix, n: nat) {
    |m| == n && forall r | 0 <= r < n :: |m[r]| == n + 1
  }

  ghost predicate Solves(m: Matrix, n: nat, x: Vector)
    requires IsSystem(m, n)
  {
    |x| == n && forall r | 0 <= r < n :: Dot(m[r], x, n) == m[r][n]
  }

  ghost predicate Kernel(m: Matrix, n: nat, v: Vector)
    requires IsSystem(m, n)
  {
    |v| == n && forall r | 0 <= r < n :: Dot(m[r], v, n) == 0.0
  }

  ghost predicate Zero(v: Vector) {
    forall i | 0 <= i < |v| :: v[i] == 0.0
  }

  ghost predicate Singular(m: Matrix, n: nat)
    requires IsSystem(m, n)
  {
    exists v :: Kernel(m, n, v) && !Zero(v)
  }

  // Two systems with the same solutions and the same kernel.
  ghost predicate Equivalent(a: Matrix, b: Matrix, n: nat)
    requires IsSystem(a, n) && IsSystem(b, n)
  {
    && (forall x :: Solves(a, n, x) <==> Solves(b, n, x))
    && (forall v :: Kernel(a, n, v) <==> Kernel(b, n, v))
  }

  ghost predicate Swapped(a: Matrix, b: Matrix, i: nat, j: nat)
    requires i < |a| && j < |a|
  {
    b == a[i := a[j]][j := a[i]]
  }

  lemma SwapIsEquivalent(a: Matrix, b: Matrix, n: nat, i: nat, j: nat)
    requires IsSystem(a, n) && i < n && j < n && Swapped(a, b, i, j)
    ensures IsSystem(b, n) && Equivalent(a, b, n)
  {
    forall x ensures Solves(a, n, x) <==> Solves(b, n, x) {
      if Solves(b, n, x) {
        forall r | 0 <= r < n ensures Dot(a[r], x, n) == a[r][n] {
          assert a[r] == b[if r == i then j else if r == j then i else r];
        }
      }
    }
    forall v ensures Kernel(a, n, v) <==> Kernel(b, n, v) {
      if Kernel(b, n, v) {
        forall r | 0 <= r < n ensures Dot(a[r], v, n) == 0.0 {
          assert a[r] == b[if r == i then j else if r == j then i else r];
        }
      }
    }
  }

  // Taking f times row p from row r, r != p, changes no solution.
  lemma RowOpIsEquivalent(a: Matrix, b: Matrix, n: nat, r: nat, p: nat, f: real)
    requires IsSystem(a, n) && IsSystem(b, n) && r < n && p < n && r != p
    requires forall i | 0 <= i < n && i != r :: b[i] == a[i]
    requires forall c | 0 <= c <= n :: b[r][c] == a[r][c] - f * a[p][c]
    ensures Equivalent(a, b, n)
  {
    forall x: Vector | |x| == n ensures Dot(b[r], x, n) == Dot(a[r], x, n) - f * Dot(a[p], x, n) {
      DotMinus(a[p], a[r], b[r], f, x, n);
    }
    assert a[p] == b[p];
    forall x ensures Solves(a, n, x) <==> Solves(b, n, x) {
      if |x| == n && Dot(a[p], x, n) == a[p][n] {
        assert Dot(b[r], x, n) - b[r][n] == Dot(a[r], x, n) - a[r][n];
      }
    }
    forall v ensures Kernel(a, n, v) <==> Kernel(b, n, v) {}
  }

  // ---------- Elimination ----------

  // Columns before `col` are eliminated: each has its pivot and nothing else.
  ghost predicate Reduced(m: Matrix, n: nat, col: nat)
    requires IsSystem(m, n) && col <= n
  {
    && (forall c, r | 0 <= c < col && 0 <= r < n && r != c :: m[r][c] == 0.0)
    && (forall c | 0 <= c < col :: m[c][c] != 0.0)
  }

  function Abs(x: real): real { if x < 0.0 then -x else x }

  // A column with no pivot left makes a kernel vector.
  lemma NoPivotIsSingular(m: Matrix, n: nat, col: nat)
    requires IsSystem(m, n) && col < n && Reduced(m, n, col)
    requires forall r | col <= r < n :: m[r][col] == 0.0
    ensures Singular(m, n)
  {
    var v := seq(n, c requires 0 <= c < n =>
      if c == col then 1.0 else if c < col then -(m[c][col] / m[c][c]) else 0.0);
    forall r | 0 <= r < n ensures Dot(m[r], v, n) == 0.0 {
      if r < col {
        DotTwo(m[r], v, n, r, col);
        assert m[r][r] * -(m[r][col] / m[r][r]) == -m[r][col];
      } else {
        DotZero(m[r], v, n);
      }
    }
    assert v[col] != 0.0;
    assert Kernel(m, n, v);
  }

  // A fully eliminated system is solved by its diagonal, by that alone, and has no kernel.
  lemma DiagonalSolves(m: Matrix, n: nat, x: Vector)
    requires IsSystem(m, n) && Reduced(m, n, n) && |x| == n
    requires forall i | 0 <= i < n :: x[i] == m[i][n] / m[i][i]
    ensures Solves(m, n, x) && !Singular(m, n)
    ensures forall z | Solves(m, n, z) :: z == x
  {
    forall r | 0 <= r < n ensures Dot(m[r], x, n) == m[r][n] {
      DotOne(m[r], x, n, r);
    }
    forall z | Solves(m, n, z) ensures z == x {
      forall r | 0 <= r < n ensures z[r] == x[r] {
        DotOne(m[r], z, n, r);
        Cancel(m[r][r], z[r], m[r][n]);
      }
    }
    forall v | Kernel(m, n, v) ensures Zero(v) {
      forall r | 0 <= r < n ensures v[r] == 0.0 {
        DotOne(m[r], v, n, r);
        Cancel(m[r][r], v[r], 0.0);
      }
    }
  }

  lemma Cancel(a: real, x: real, b: real)
    requires a != 0.0 && a * x == b
    ensures x == b / a
  {
  }

  // The row at or below `col` with the largest entry in that column: the first of them.
  method ChoosePivot(m: array<seq<real>>, n: nat, col: nat) returns (piv: nat)
    requires m.Length == n && IsSystem(m[..], n) && col < n
    ensures col <= piv < n
    ensures forall r | col <= r < n :: Abs(m[r][col]) <= Abs(m[piv][col])
    ensures forall r | col <= r < piv :: Abs(m[r][col]) < Abs(m[piv][col])
  {
    piv := col;
    for r := col to n
      invariant col <= piv < n && (if r == col then piv == col else piv < r)
      invariant forall i | col <= i < r :: Abs(m[i][col]) <= Abs(m[piv][col])
      invariant forall i | col <= i < piv :: Abs(m[i][col]) < Abs(m[piv][col])
    {
      assert m[..][r] == m[r] && m[..][piv] == m[piv];
      if Abs(m[piv][col]) < Abs(m[r][col]) { piv := r; }
    }
  }

  // m[r] -= f * m[col], from column `col` on.
  method SubtractRow(m: array<seq<real>>, n: nat, r: nat, col: nat, f: real)
    requires m.Length == n && IsSystem(m[..], n) && r < n && col < n && r != col
    modifies m
    ensures IsSystem(m[..], n)
    ensures forall i | 0 <= i < n && i != r :: m[i] == old(m[i])
    ensures forall c | 0 <= c < col :: m[r][c] == old(m[r][c])
    ensures forall c | col <= c <= n :: m[r][c] == old(m[r][c]) - f * old(m[col][c])
  {
    assert forall i | 0 <= i < n :: m[..][i] == m[i];
    for c := col to n + 1
      invariant forall i | 0 <= i < n && i != r :: m[i] == old(m[i])
      invariant forall i | 0 <= i < n :: |m[i]| == n + 1
      invariant forall k | 0 <= k <= n && (k < col || k >= c) :: m[r][k] == old(m[r][k])
      invariant forall k | col <= k < c :: m[r][k] == old(m[r][k]) - f * old(m[col][k])
    {
      m[r] := m[r][c := m[r][c] - f * m[col][c]];
    }
  }

  // Column `col` is eliminated in the rows before r.
  ghost predicate Clearing(m: Matrix, n: nat, col: nat, r: nat)
    requires IsSystem(m, n) && col < n && r <= n
  {
    && Reduced(m, n, col) && m[col][col] != 0.0
    && forall i | 0 <= i < r && i != col :: m[i][col] == 0.0
  }

  lemma RowCleared(a: Matrix, b: Matrix, n: nat, col: nat, r: nat, f: real)
    requires IsSystem(a, n) && IsSystem(b, n) && col < n && r < n && r != col
    requires Clearing(a, n, col, r) && f == a[r][col] / a[col][col]
    requires forall i | 0 <= i < n && i != r :: b[i] == a[i]
    requires forall c | 0 <= c < col :: b[r][c] == a[r][c]
    requires forall c | col <= c <= n :: b[r][c] == a[r][c] - f * a[col][c]
    ensures Clearing(b, n, col, r + 1) && Equivalent(a, b, n)
  {
    forall c | 0 <= c < col ensures b[r][c] == a[r][c] - f * a[col][c] { assert a[col][c] == 0.0; }
    RowOpIsEquivalent(a, b, n, r, col, f);
  }

  lemma EquivalentTransitive(a: Matrix, b: Matrix, c: Matrix, n: nat)
    requires IsSystem(a, n) && IsSystem(b, n) && IsSystem(c, n) && Equivalent(a, b, n) && Equivalent(b, c, n)
    ensures Equivalent(a, c, n)
  {
  }

  // How elimination stands before column `col`: reduced so far, or a pivot was zero already.
  ghost predicate Progress(a: Matrix, m: Matrix, n: nat, col: nat, dead: Option<nat>)
    requires IsSystem(a, n) && IsSystem(m, n) && col <= n
  {
    match dead
    case None => Equivalent(a, m, n) && Reduced(m, n, col)
    case Some(k) => k < col && m[k][k] == 0.0 && Singular(a, n)
  }

  lemma SwapProgress(a: Matrix, b: Matrix, m: Matrix, n: nat, col: nat, piv: nat, dead: Option<nat>)
      returns (dead': Option<nat>)
    requires IsSystem(a, n) && IsSystem(b, n) && col <= piv < n && Progress(a, b, n, col, dead)
    requires Swapped(b, m, col, piv) && IsSystem(m, n)
    requires forall r | col <= r < n :: Abs(b[r][col]) <= Abs(b[piv][col])
    ensures dead'.Some? ==> dead'.value <= col && m[dead'.value][dead'.value] == 0.0 && Singular(a, n)
    ensures dead'.None? ==> Equivalent(a, m, n) && Clearing(m, n, col, 0)
    ensures m[col][col] == 0.0 ==> dead'.Some?
  {
    SwapIsEquivalent(b, m, n, col, piv);
    dead' := dead;
    if dead.None? {
      EquivalentTransitive(a, b, m, n);
      forall c, r | 0 <= c < col && 0 <= r < n && r != c ensures m[r][c] == 0.0 {
        assert m[r] == b[if r == col then piv else if r == piv then col else r];
      }
      if m[col][col] == 0.0 {
        forall r | col <= r < n ensures m[r][col] == 0.0 {
          assert m[r] == b[if r == col then piv else if r == piv then col else r];
        }
        NoPivotIsSingular(m, n, col);
        dead' := Some(col);
      }
    }
  }

  // One column: row exchange, then every other row cleared. False on a division by zero.
  method EliminateColumn(m: array<seq<real>>, n: nat, col: nat, ghost a: Matrix, ghost dead: Option<nat>)
    returns (ok: bool, ghost dead': Option<nat>)
    requires m.Length == n && IsSystem(m[..], n) && IsSystem(a, n) && col < n && Progress(a, m[..], n, col, dead)
    modifies m
    ensures IsSystem(m[..], n)
    ensures ok ==> Progress(a, m[..], n, col + 1, dead')
    ensures !ok ==> Singular(a, n)
  {
    var piv := ChoosePivot(m, n, col);
    ghost var b := m[..];
    m[col], m[piv] := m[piv], m[col];
    dead' := SwapProgress(a, b, m[..], n, col, piv, dead);
    var d := m[col][col];
    for r := 0 to n
      invariant IsSystem(m[..], n) && m[..][col][col] == d
      invariant d == 0.0 ==> dead'.Some?
      invariant dead'.Some? ==> dead'.value <= col && m[..][dead'.value][dead'.value] == 0.0 && Singular(a, n)
      invariant dead'.None? ==> Equivalent(a, m[..], n) && Clearing(m[..], n, col, r)
    {
      ghost var c := m[..];
      if r != col && m[r][col] != 0.0 {
        if d == 0.0 { return false, dead'; }
        var f := m[r][col] / d;
        SubtractRow(m, n, r, col, f);
        assert forall i | 0 <= i < n && i != r :: m[..][i] == c[i];
        if dead'.None? {
          RowCleared(c, m[..], n, col, r, f);
          EquivalentTransitive(a, c, m[..], n);
        }
      }
    }
    ok := true;
  }

  // Gauss-Jordan in place. No answer means a division by zero — met while eliminating or at
  // the very end; that happens exactly when the matrix is singular.
  method Eliminate(m: array<seq<real>>, n: nat) returns (beta: Option<Vector>)
    requires m.Length == n && IsSystem(m[..], n)
    modifies m
    ensures beta.None? <==> Singular(old(m[..]), n)
    ensures beta.Some? ==> Solves(old(m[..]), n, beta.value) && forall z | Solves(old(m[..]), n, z) :: z == beta.value
  {
    ghost var a := m[..];
    ghost var dead: Option<nat> := None;
    for col := 0 to n
      invariant IsSystem(m[..], n) && Progress(a, m[..], n, col, dead)
    {
      var ok;
      ok, dead := EliminateColumn(m, n, col, a, dead);
      if !ok { return None; }
    }
    var x: Vector := [];
    for i := 0 to n
      invariant |x| == i
      invariant forall k | 0 <= k < i :: m[..][k][k] != 0.0 && x[k] == m[..][k][n] / m[..][k][k]
    {
      assert m[..][i] == m[i];
      if m[i][i] == 0.0 { return None; }
      x := x + [m[i][n] / m[i][i]];
    }
    DiagonalSolves(m[..], n, x);
    beta := Some(x);
  }
}
