// The weighted least squares behind the price of axes (docs/pilot/axis-prices.py): the normal
// equations with a ridge, what they have to do with the squared error, and when the solver
// has an answer.
module LeastSquares {
  import opened Options
  import opened Sums
  import opened LinearSolver

  // Observations: one row of features, one value and one weight each.
  datatype Sample = Sample(xs: seq<Vector>, ys: Vector, ws: Vector, n: nat)

  // What the fitting calls hand over: at least one row, all of one non-zero length.
  ghost predicate Rectangular(s: Sample) {
    && s.n > 0 && |s.xs| > 0 && |s.ys| == |s.ws| == |s.xs|
    && forall l | 0 <= l < |s.xs| :: |s.xs[l]| == s.n
  }

  function Product(w: real, a: real, b: real): real { Times(Times(w, a), b) }

  // ---------- The normal equations ----------

  // Σ w·x_i·x_j over the first k observations.
  function Gram(s: Sample, k: nat, i: nat, j: nat): real
    requires k <= |s.xs| && k <= |s.ws| && forall l | 0 <= l < k :: i < |s.xs[l]| && j < |s.xs[l]|
  {
    if k == 0 then 0.0 else Gram(s, k - 1, i, j) + Product(s.ws[k - 1], s.xs[k - 1][i], s.xs[k - 1][j])
  }

  // Σ w·x_i·y over the first k observations.
  function Rhs(s: Sample, k: nat, i: nat): real
    requires k <= |s.xs| && k <= |s.ws| && k <= |s.ys| && forall l | 0 <= l < k :: i < |s.xs[l]|
  {
    if k == 0 then 0.0 else Rhs(s, k - 1, i) + Product(s.ws[k - 1], s.xs[k - 1][i], s.ys[k - 1])
  }

  function GramRow(s: Sample, k: nat, i: nat): (r: Vector)
    requires k <= |s.xs| && k <= |s.ws| && i < s.n && forall l | 0 <= l < k :: |s.xs[l]| == s.n
    ensures |r| == s.n && forall j | 0 <= j < s.n :: r[j] == Gram(s, k, i, j)
  {
    seq(s.n, j requires 0 <= j < s.n => Gram(s, k, i, j))
  }

  // (X'WX + lam·I | X'Wy).
  ghost function NormalSystem(s: Sample, lam: real): (m: Matrix)
    requires Rectangular(s)
    ensures IsSystem(m, s.n)
    ensures forall i, j | 0 <= i < s.n && 0 <= j < s.n :: m[i][j] == Gram(s, |s.xs|, i, j) + if i == j then lam else 0.0
    ensures forall i | 0 <= i < s.n :: m[i][s.n] == Rhs(s, |s.xs|, i)
  {
    seq(s.n, i requires 0 <= i < s.n =>
      seq(s.n + 1, j requires 0 <= j <= s.n =>
        if j < s.n then Gram(s, |s.xs|, i, j) + (if i == j then lam else 0.0) else Rhs(s, |s.xs|, i)))
  }

  // The largest diagonal entry.
  function MaxDiagonal(s: Sample, i: nat): real
    requires |s.ws| >= |s.xs| && i < s.n && forall l | 0 <= l < |s.xs| :: |s.xs[l]| == s.n
  {
    var d := Gram(s, |s.xs|, i, i);
    if i == 0 then d else if MaxDiagonal(s, i - 1) < d then d else MaxDiagonal(s, i - 1)
  }

  ghost function Ridge(s: Sample, ridgeRel: real): real
    requires Rectangular(s)
  {
    ridgeRel * MaxDiagonal(s, s.n - 1)
  }

  // One observation added to X'WX and X'Wy.
  method AddObservation(s: Sample, k: nat, ata: array2<real>, atb: array<real>)
    requires Rectangular(s) && k < |s.xs| && ata.Length0 == ata.Length1 == atb.Length == s.n
    requires forall i, j | 0 <= i < s.n && 0 <= j < s.n :: ata[i, j] == Gram(s, k, i, j)
    requires forall i | 0 <= i < s.n :: atb[i] == Rhs(s, k, i)
    modifies ata, atb
    ensures forall i, j | 0 <= i < s.n && 0 <= j < s.n :: ata[i, j] == Gram(s, k + 1, i, j)
    ensures forall i | 0 <= i < s.n :: atb[i] == Rhs(s, k + 1, i)
  {
    var x, y, w := s.xs[k], s.ys[k], s.ws[k];
    for i := 0 to s.n
      invariant forall a, b | 0 <= a < i && 0 <= b < s.n :: ata[a, b] == Gram(s, k + 1, a, b)
      invariant forall a, b | i <= a < s.n && 0 <= b < s.n :: ata[a, b] == Gram(s, k, a, b)
      invariant forall a | 0 <= a < i :: atb[a] == Rhs(s, k + 1, a)
      invariant forall a | i <= a < s.n :: atb[a] == Rhs(s, k, a)
    {
      var wi := w * x[i];
      atb[i] := atb[i] + wi * y;
      for j := 0 to s.n
        invariant forall b | 0 <= b < j :: ata[i, b] == Gram(s, k + 1, i, b)
        invariant forall b | j <= b < s.n :: ata[i, b] == Gram(s, k, i, b)
        invariant forall a, b | 0 <= a < i && 0 <= b < s.n :: ata[a, b] == Gram(s, k + 1, a, b)
        invariant forall a, b | i < a < s.n && 0 <= b < s.n :: ata[a, b] == Gram(s, k, a, b)
        invariant forall a | 0 <= a <= i :: atb[a] == Rhs(s, k + 1, a)
        invariant forall a | i < a < s.n :: atb[a] == Rhs(s, k, a)
      {
        ata[i, j] := ata[i, j] + wi * x[j];
      }
    }
  }

  // X'WX and X'Wy, observation by observation.
  method Accumulate(s: Sample) returns (ata: array2<real>, atb: array<real>)
    requires Rectangular(s)
    ensures fresh(ata) && fresh(atb) && ata.Length0 == ata.Length1 == atb.Length == s.n
    ensures forall i, j | 0 <= i < s.n && 0 <= j < s.n :: ata[i, j] == Gram(s, |s.xs|, i, j)
    ensures forall i | 0 <= i < s.n :: atb[i] == Rhs(s, |s.xs|, i)
  {
    ata := new real[s.n, s.n]((i, j) => 0.0);
    atb := new real[s.n](i => 0.0);
    for k := 0 to |s.xs|
      invariant forall i, j | 0 <= i < s.n && 0 <= j < s.n :: ata[i, j] == Gram(s, k, i, j)
      invariant forall i | 0 <= i < s.n :: atb[i] == Rhs(s, k, i)
    {
      AddObservation(s, k, ata, atb);
    }
  }

  // The ridge on the diagonal.
  method AddRidge(ata: array2<real>, n: nat, lam: real)
    requires ata.Length0 == ata.Length1 == n
    modifies ata
    ensures forall i, j | 0 <= i < n && 0 <= j < n :: ata[i, j] == old(ata[i, j]) + if i == j then lam else 0.0
  {
    for i := 0 to n
      invariant forall a, b | 0 <= a < n && 0 <= b < n ::
                  ata[a, b] == old(ata[a, b]) + if a == b && a < i then lam else 0.0
    {
      ata[i, i] := ata[i, i] + lam;
    }
  }

  // The matrix with the right-hand side as its last column.
  method Augment(ata: array2<real>, atb: array<real>, n: nat) returns (m: array<seq<real>>)
    requires ata.Length0 == ata.Length1 == atb.Length == n
    ensures fresh(m) && m.Length == n
    ensures forall i | 0 <= i < n ::
              |m[i]| == n + 1 && m[i][n] == atb[i] && forall j | 0 <= j < n :: m[i][j] == ata[i, j]
  {
    m := new seq<real>[n](_ => []);
    for i := 0 to n
      invariant forall a | 0 <= a < i ::
                  |m[a]| == n + 1 && m[a][n] == atb[a] && forall j | 0 <= j < n :: m[a][j] == ata[a, j]
    {
      var row: seq<real> := [];
      for j := 0 to n
        invariant |row| == j && forall b | 0 <= b < j :: row[b] == ata[i, b]
      {
        row := row + [ata[i, j]];
      }
      m[i] := row + [atb[i]];
    }
  }

  // The solver: no answer exactly when the ridged normal matrix is singular, else the one solution.
  method SolveWls(s: Sample, ridgeRel: real) returns (beta: Option<Vector>)
    requires Rectangular(s)
    ensures var m := NormalSystem(s, Ridge(s, ridgeRel));
            && (beta.None? <==> Singular(m, s.n))
            && (beta.Some? ==> Solves(m, s.n, beta.value) && forall z | Solves(m, s.n, z) :: z == beta.value)
    ensures beta.Some? && Weighed(s) && ridgeRel >= 0.0 ==>
              exists top: nat ::
                && top < s.n && (forall i: nat | i < s.n :: FeatureWeight(s, i) <= FeatureWeight(s, top))
                && Best(s, ridgeRel * FeatureWeight(s, top), beta.value)
  {
    hide Gram, Rhs, Solves, Singular, NormalSystem;
    var ata, atb := Accumulate(s);
    var top := ata[0, 0];
    for i := 1 to s.n
      invariant top == MaxDiagonal(s, i - 1)
    {
      if top < ata[i, i] { top := ata[i, i]; }
    }
    var lam := ridgeRel * top;
    assert lam == Ridge(s, ridgeRel);
    AddRidge(ata, s.n, lam);
    assert forall i | 0 <= i < s.n :: atb[i] == Rhs(s, |s.xs|, i);
    assert forall i, j | 0 <= i < s.n && 0 <= j < s.n ::
             ata[i, j] == Gram(s, |s.xs|, i, j) + if i == j then lam else 0.0;
    var m := Augment(ata, atb, s.n);
    ghost var target := NormalSystem(s, Ridge(s, ridgeRel));
    forall i | 0 <= i < s.n ensures m[i] == target[i] {
      forall j | 0 <= j <= s.n ensures m[i][j] == target[i][j] {}
    }
    assert m[..] == target;
    beta := Eliminate(m, s.n);
    if beta.Some? && Weighed(s) && ridgeRel >= 0.0 {
      ghost var heaviest := Heaviest(s, s.n - 1);
      BestPrices(s, ridgeRel, heaviest, beta.value);
    }
  }

  lemma {:induction false} Heaviest(s: Sample, k: nat) returns (top: nat)
    ensures top <= k && forall i: nat | i <= k :: FeatureWeight(s, i) <= FeatureWeight(s, top)
  {
    hide FeatureWeight;
    if k == 0 {
      top := 0;
    } else {
      top := Heaviest(s, k - 1);
      if FeatureWeight(s, top) < FeatureWeight(s, k) { top := k; }
    }
  }

  // No other prices have a smaller weighted squared error with this penalty.
  ghost predicate Best(s: Sample, lam: real, b: Vector) {
    |b| == s.n && forall z: Vector | |z| == s.n :: PenalisedError(s, lam, b) <= PenalisedError(s, lam, z)
  }

  // ---------- The squared error ----------

  // G·b over the first k observations.
  function Image(s: Sample, k: nat, b: Vector): (r: Vector)
    requires Rectangular(s) && k <= |s.xs| && |b| == s.n
    ensures |r| == s.n && forall i | 0 <= i < s.n :: r[i] == Dot(GramRow(s, k, i), b, s.n)
  {
    seq(s.n, i requires 0 <= i < s.n => Dot(GramRow(s, k, i), b, s.n))
  }

  function RhsVector(s: Sample, k: nat): (r: Vector)
    requires Rectangular(s) && k <= |s.xs|
    ensures |r| == s.n && forall i | 0 <= i < s.n :: r[i] == Rhs(s, k, i)
  {
    seq(s.n, i requires 0 <= i < s.n => Rhs(s, k, i))
  }

  // Σ w·(x·b)·(x·v), and Σ w·y·(x·v), over the first k observations.
  function Cross(s: Sample, k: nat, b: Vector, v: Vector): real
    requires Rectangular(s) && k <= |s.xs| && |b| == |v| == s.n
  {
    if k == 0 then 0.0
    else Cross(s, k - 1, b, v) + Product(s.ws[k - 1], Dot(s.xs[k - 1], b, s.n), Dot(s.xs[k - 1], v, s.n))
  }

  function Pull(s: Sample, k: nat, v: Vector): real
    requires Rectangular(s) && k <= |s.xs| && |v| == s.n
  {
    if k == 0 then 0.0 else Pull(s, k - 1, v) + Product(s.ws[k - 1], s.ys[k - 1], Dot(s.xs[k - 1], v, s.n))
  }

  // The weighted squared error with the ridge's penalty.
  function Error(s: Sample, k: nat, b: Vector): real
    requires Rectangular(s) && k <= |s.xs| && |b| == s.n
  {
    if k == 0 then 0.0
    else
      var e := s.ys[k - 1] - Dot(s.xs[k - 1], b, s.n);
      Error(s, k - 1, b) + Product(s.ws[k - 1], e, e)
  }

  function Objective(s: Sample, lam: real, b: Vector): real
    requires Rectangular(s) && |b| == s.n
  {
    Error(s, |s.xs|, b) + Times(lam, Dot(b, b, s.n))
  }

  lemma {:induction false} DotSymmetric(a: Vector, b: Vector, k: nat)
    requires k <= |a| && k <= |b|
    ensures Dot(a, b, k) == Dot(b, a, k)
  {
    if k > 0 { DotSymmetric(a, b, k - 1); }
  }

  // The normal matrix is the bilinear form of the observations.
  lemma {:induction false} CrossIsForm(s: Sample, k: nat, b: Vector, v: Vector)
    requires Rectangular(s) && k <= |s.xs| && |b| == |v| == s.n
    ensures Cross(s, k, b, v) == Dot(Image(s, k, b), v, s.n)
  {
    hide Product;
    if k == 0 {
      forall i | 0 <= i < s.n ensures Image(s, 0, b)[i] == 0.0 { DotZero(GramRow(s, 0, i), b, s.n); }
      DotZero(Image(s, 0, b), v, s.n);
    } else {
      CrossIsForm(s, k - 1, b, v);
      FormOfOneMore(s, k, b, v);
    }
  }

  lemma FormOfOneMore(s: Sample, k: nat, b: Vector, v: Vector)
    requires Rectangular(s) && 0 < k <= |s.xs| && |b| == |v| == s.n
    ensures Dot(Image(s, k, b), v, s.n) ==
            Dot(Image(s, k - 1, b), v, s.n) + Product(s.ws[k - 1], Dot(s.xs[k - 1], b, s.n), Dot(s.xs[k - 1], v, s.n))
  {
    hide Dot, Image, GramRow, Gram, Times;
    var x, w := s.xs[k - 1], s.ws[k - 1];
    var g := Times(w, Dot(x, b, s.n));
    forall i | 0 <= i < s.n ensures Image(s, k, b)[i] == Image(s, k - 1, b)[i] + Times(g, x[i]) {
      ImageOfOneMore(s, k, b, i);
    }
    DotAdd(x, Image(s, k - 1, b), Image(s, k, b), g, v, s.n);
  }

  lemma ImageOfOneMore(s: Sample, k: nat, b: Vector, i: nat)
    requires Rectangular(s) && 0 < k <= |s.xs| && |b| == s.n && i < s.n
    ensures Image(s, k, b)[i] == Image(s, k - 1, b)[i] + Product(s.ws[k - 1], Dot(s.xs[k - 1], b, s.n), s.xs[k - 1][i])
  {
    hide Dot, Image, GramRow, Times;
    var x, w := s.xs[k - 1], s.ws[k - 1];
    forall j | 0 <= j < s.n ensures GramRow(s, k, i)[j] == GramRow(s, k - 1, i)[j] + Times(Times(w, x[i]), x[j]) {}
    DotAdd(x, GramRow(s, k - 1, i), GramRow(s, k, i), Times(w, x[i]), b, s.n);
    ProductCommutes(w, x[i], Dot(x, b, s.n));
  }

  lemma ProductCommutes(w: real, a: real, b: real)
    ensures Product(w, a, b) == Product(w, b, a)
  {
    assert w * a * b == w * b * a;
  }

  lemma {:induction false} PullIsRhs(s: Sample, k: nat, v: Vector)
    requires Rectangular(s) && k <= |s.xs| && |v| == s.n
    ensures Pull(s, k, v) == Dot(RhsVector(s, k), v, s.n)
  {
    if k == 0 {
      DotZero(RhsVector(s, 0), v, s.n);
    } else {
      PullIsRhs(s, k - 1, v);
      RhsOfOneMore(s, k, v);
    }
  }

  lemma RhsOfOneMore(s: Sample, k: nat, v: Vector)
    requires Rectangular(s) && 0 < k <= |s.xs| && |v| == s.n
    ensures Dot(RhsVector(s, k), v, s.n) ==
            Dot(RhsVector(s, k - 1), v, s.n) + Product(s.ws[k - 1], s.ys[k - 1], Dot(s.xs[k - 1], v, s.n))
  {
    hide Dot, Times, RhsVector;
    var x, w, y := s.xs[k - 1], s.ws[k - 1], s.ys[k - 1];
    forall i | 0 <= i < s.n ensures RhsVector(s, k)[i] == RhsVector(s, k - 1)[i] + Times(Times(w, y), x[i]) {
      ProductCommutes(w, x[i], y);
    }
    DotAdd(x, RhsVector(s, k - 1), RhsVector(s, k), Times(w, y), v, s.n);
  }

  function Plus(b: Vector, v: Vector): (z: Vector)
    requires |b| == |v|
    ensures |z| == |b| && forall i | 0 <= i < |b| :: z[i] == b[i] + v[i]
  {
    seq(|b|, i requires 0 <= i < |b| => b[i] + v[i])
  }

  lemma {:induction false} DotPlus(a: Vector, b: Vector, v: Vector, k: nat)
    requires |b| == |v| && k <= |a| && k <= |b|
    ensures Dot(a, Plus(b, v), k) == Dot(a, b, k) + Dot(a, v, k)
  {
    if k > 0 {
      DotPlus(a, b, v, k - 1);
      assert a[k - 1] * (b[k - 1] + v[k - 1]) == a[k - 1] * b[k - 1] + a[k - 1] * v[k - 1];
    }
  }

  lemma SquareOfSum(w: real, y: real, p: real, d: real)
    ensures var e := y - (p + d);
            Product(w, e, e) == Product(w, y - p, y - p) - 2.0 * (Product(w, y, d) - Product(w, p, d)) +
              Product(w, d, d)
  {
    assert w * (y - p) * d == w * y * d - w * p * d;
  }

  lemma {:induction false} ErrorOfSum(s: Sample, k: nat, b: Vector, v: Vector)
    requires Rectangular(s) && k <= |s.xs| && |b| == |v| == s.n
    ensures Error(s, k, Plus(b, v)) == Error(s, k, b) - 2.0 * (Pull(s, k, v) - Cross(s, k, b, v)) + Cross(s, k, v, v)
  {
    if k > 0 {
      ErrorOfSum(s, k - 1, b, v);
      var x, w, y := s.xs[k - 1], s.ws[k - 1], s.ys[k - 1];
      hide Dot, Times, Product;
      DotPlus(x, b, v, s.n);
      SquareOfSum(w, y, Dot(x, b, s.n), Dot(x, v, s.n));
    }
  }

  // At a solution of the ridged normal equations the error's slope vanishes.
  lemma SlopeVanishes(s: Sample, lam: real, b: Vector, v: Vector)
    requires Rectangular(s) && |b| == |v| == s.n && Solves(NormalSystem(s, lam), s.n, b)
    ensures Pull(s, |s.xs|, v) == Cross(s, |s.xs|, b, v) + Times(lam, Dot(b, v, s.n))
  {
    hide Dot, Gram, Rhs, Cross, Pull, NormalSystem, Image, RhsVector, Times;
    var k := |s.xs|;
    forall i | 0 <= i < s.n ensures RhsVector(s, k)[i] == Image(s, k, b)[i] + Times(lam, b[i]) {
      RidgedRow(s, lam, b, i);
    }
    CrossIsForm(s, k, b, v);
    PullIsRhs(s, k, v);
    DotAdd(b, Image(s, k, b), RhsVector(s, k), lam, v, s.n);
  }

  lemma RidgedRow(s: Sample, lam: real, b: Vector, i: nat)
    requires Rectangular(s) && |b| == s.n && i < s.n
    ensures Dot(NormalSystem(s, lam)[i], b, s.n) == Image(s, |s.xs|, b)[i] + Times(lam, b[i])
  {
    hide Dot, Gram, Rhs, NormalSystem;
    var unit: Vector := seq(s.n, j => if j == i then 1.0 else 0.0);
    var row := NormalSystem(s, lam)[i];
    DotAdd(unit, GramRow(s, |s.xs|, i), row, lam, b, s.n);
    DotOne(unit, b, s.n, i);
    assert unit[i] * b[i] == b[i];
  }

  lemma TimesPositive(x: real, y: real)
    requires (x > 0.0 && y > 0.0) || (x < 0.0 && y < 0.0)
    ensures Times(x, y) > 0.0
  {
    if x < 0.0 {
      var a, b := -x, -y;
      assert a * b > 0.0 && a * b == x * y;
    }
  }

  lemma TimesZero(x: real)
    ensures Times(0.0, x) == 0.0
  {
  }

  lemma SquareIsPositive(x: real)
    ensures Times(x, x) >= 0.0
    ensures x != 0.0 ==> Times(x, x) > 0.0
  {
    hide Times;
    if x != 0.0 { TimesPositive(x, x); } else { TimesZero(x); }
  }

  lemma DotOfOneMore(v: Vector, k: nat)
    requires 0 < k <= |v|
    ensures Dot(v, v, k) == Dot(v, v, k - 1) + Times(v[k - 1], v[k - 1])
  {
  }

  lemma {:induction false} SquaresArePositive(v: Vector, k: nat)
    requires k <= |v|
    ensures Dot(v, v, k) >= 0.0
    ensures forall i | 0 <= i < k && v[i] != 0.0 :: Dot(v, v, k) > 0.0
  {
    hide Times;
    if k > 0 {
      SquaresArePositive(v, k - 1);
      SquareIsPositive(v[k - 1]);
      DotOfOneMore(v, k);
    }
  }

  ghost predicate Weighed(s: Sample) {
    forall l | 0 <= l < |s.ws| :: s.ws[l] >= 0.0
  }

  lemma {:induction false} CrossIsPositive(s: Sample, k: nat, v: Vector)
    requires Rectangular(s) && Weighed(s) && k <= |s.xs| && |v| == s.n
    ensures Cross(s, k, v, v) >= 0.0
  {
    if k > 0 {
      CrossIsPositive(s, k - 1, v);
      var d := Dot(s.xs[k - 1], v, s.n);
      assert d * d >= 0.0;
      assert s.ws[k - 1] * d * d == s.ws[k - 1] * (d * d);
    }
  }

  // What the solver returns minimises the weighted squared error plus the ridge's penalty.
  lemma SolutionMinimises(s: Sample, lam: real, b: Vector, z: Vector)
    requires Rectangular(s) && Weighed(s) && lam >= 0.0 && |z| == s.n
    requires Solves(NormalSystem(s, lam), s.n, b)
    ensures Objective(s, lam, b) <= Objective(s, lam, z)
  {
    var v := seq(s.n, i requires 0 <= i < s.n => z[i] - b[i]);
    assert Plus(b, v) == z;
    var k := |s.xs|;
    hide Dot, Error, Cross, Pull, Plus, Times, NormalSystem;
    ErrorOfSum(s, k, b, v);
    SlopeVanishes(s, lam, b, v);
    CrossIsPositive(s, k, v);
    SquaresArePositive(v, s.n);
    NormOfSum(b, v, s.n);
    PenaltyOfSum(lam, Dot(b, b, s.n), Dot(b, v, s.n), Dot(v, v, s.n));
  }

  lemma PenaltyOfSum(lam: real, bb: real, bv: real, vv: real)
    requires lam >= 0.0 && vv >= 0.0
    ensures Times(lam, bb + 2.0 * bv + vv) >= Times(lam, bb) + 2.0 * Times(lam, bv)
  {
    assert lam * vv >= 0.0;
    assert lam * (bb + 2.0 * bv + vv) == lam * bb + 2.0 * (lam * bv) + lam * vv;
  }

  lemma NormOfSum(b: Vector, v: Vector, n: nat)
    requires |b| == |v| == n
    ensures |Plus(b, v)| == n
    ensures Dot(Plus(b, v), Plus(b, v), n) == Dot(b, b, n) + 2.0 * Dot(b, v, n) + Dot(v, v, n)
  {
    hide Dot;
    DotPlus(Plus(b, v), b, v, n);
    DotSymmetric(Plus(b, v), b, n);
    DotSymmetric(Plus(b, v), v, n);
    DotPlus(b, b, v, n);
    DotPlus(v, b, v, n);
    DotSymmetric(v, b, n);
  }

  // ---------- What the answer is for ----------

  // What an observation says of a price.
  ghost function Fitted(x: Vector, b: Vector, n: nat): real {
    SumTo(n, j => if 0 <= j < |x| && j < |b| then x[j] * b[j] else 0.0)
  }

  // Σ w·x_i² over the observations.
  ghost function FeatureWeight(s: Sample, i: nat): real {
    SumTo(|s.xs|, l =>
      if 0 <= l < |s.xs| && l < |s.ws| && i < |s.xs[l]| then s.ws[l] * s.xs[l][i] * s.xs[l][i] else 0.0)
  }

  // Σ w·(y − x·b)², and lam·Σ b_j² with it.
  ghost function SquaredError(s: Sample, b: Vector): real {
    SumTo(|s.xs|, l =>
      if 0 <= l < |s.xs| && l < |s.ws| && l < |s.ys|
      then s.ws[l] * (s.ys[l] - Fitted(s.xs[l], b, s.n)) * (s.ys[l] - Fitted(s.xs[l], b, s.n)) else 0.0)
  }

  ghost function PenalisedError(s: Sample, lam: real, b: Vector): real {
    SquaredError(s, b) + lam * Fitted(b, b, s.n)
  }

  lemma {:induction false} DotIsSum(a: Vector, b: Vector, k: nat)
    requires k <= |a| && k <= |b|
    ensures Dot(a, b, k) == Fitted(a, b, k)
  {
    if k > 0 {
      DotIsSum(a, b, k - 1);
      SumToEq(k - 1, j => if 0 <= j < |a| && j < |b| then a[j] * b[j] else 0.0,
              j => if 0 <= j < |a| && j < |b| then a[j] * b[j] else 0.0);
    }
  }

  lemma {:induction false} GramIsSum(s: Sample, k: nat, i: nat)
    requires Rectangular(s) && k <= |s.xs| && i < s.n
    ensures Gram(s, k, i, i) == SumTo(k, l =>
              if 0 <= l < |s.xs| && l < |s.ws| && i < |s.xs[l]| then s.ws[l] * s.xs[l][i] * s.xs[l][i] else 0.0)
  {
    var f := (l: int) =>
      if 0 <= l < |s.xs| && l < |s.ws| && i < |s.xs[l]| then s.ws[l] * s.xs[l][i] * s.xs[l][i] else 0.0;
    if k > 0 {
      GramIsSum(s, k - 1, i);
      SumToEq(k - 1, f, l =>
        if 0 <= l < |s.xs| && l < |s.ws| && i < |s.xs[l]| then s.ws[l] * s.xs[l][i] * s.xs[l][i] else 0.0);
    }
    SumToEq(k, f, l =>
      if 0 <= l < |s.xs| && l < |s.ws| && i < |s.xs[l]| then s.ws[l] * s.xs[l][i] * s.xs[l][i] else 0.0);
  }

  lemma {:induction false} ErrorIsSum(s: Sample, k: nat, b: Vector)
    requires Rectangular(s) && k <= |s.xs| && |b| == s.n
    ensures Error(s, k, b) == SumTo(k, l =>
              if 0 <= l < |s.xs| && l < |s.ws| && l < |s.ys|
              then s.ws[l] * (s.ys[l] - Fitted(s.xs[l], b, s.n)) * (s.ys[l] - Fitted(s.xs[l], b, s.n)) else 0.0)
  {
    hide Fitted, Dot;
    var f := (l: int) =>
      if 0 <= l < |s.xs| && l < |s.ws| && l < |s.ys|
      then s.ws[l] * (s.ys[l] - Fitted(s.xs[l], b, s.n)) * (s.ys[l] - Fitted(s.xs[l], b, s.n)) else 0.0;
    if k > 0 {
      ErrorIsSum(s, k - 1, b);
      DotIsSum(s.xs[k - 1], b, s.n);
      SumToEq(k - 1, f, l =>
        if 0 <= l < |s.xs| && l < |s.ws| && l < |s.ys|
        then s.ws[l] * (s.ys[l] - Fitted(s.xs[l], b, s.n)) * (s.ys[l] - Fitted(s.xs[l], b, s.n)) else 0.0);
    }
    SumToEq(k, f, l =>
      if 0 <= l < |s.xs| && l < |s.ws| && l < |s.ys|
      then s.ws[l] * (s.ys[l] - Fitted(s.xs[l], b, s.n)) * (s.ys[l] - Fitted(s.xs[l], b, s.n)) else 0.0);
  }

  // The ridge is the given part of the heaviest feature's weight.
  lemma RidgeIsOfHeaviest(s: Sample, ridgeRel: real, top: nat)
    requires Rectangular(s) && top < s.n && forall i: nat | i < s.n :: FeatureWeight(s, i) <= FeatureWeight(s, top)
    ensures Ridge(s, ridgeRel) == ridgeRel * FeatureWeight(s, top)
  {
    hide Gram, FeatureWeight;
    forall i: nat | i < s.n
      ensures Gram(s, |s.xs|, i, i) == FeatureWeight(s, i) && Gram(s, |s.xs|, i, i) <= MaxDiagonal(s, s.n - 1)
    {
      GramIsWeight(s, i);
      MaxIsAboveAll(s, s.n - 1, i);
    }
    MaxIsAboveAll(s, s.n - 1, 0);
    assert MaxDiagonal(s, s.n - 1) == FeatureWeight(s, top);
  }

  lemma GramIsWeight(s: Sample, i: nat)
    requires Rectangular(s) && i < s.n
    ensures Gram(s, |s.xs|, i, i) == FeatureWeight(s, i)
  {
    GramIsSum(s, |s.xs|, i);
    SumToEq(|s.xs|,
            l => if 0 <= l < |s.xs| && l < |s.ws| && i < |s.xs[l]| then s.ws[l] * s.xs[l][i] * s.xs[l][i] else 0.0,
            l => if 0 <= l < |s.xs| && l < |s.ws| && i < |s.xs[l]| then s.ws[l] * s.xs[l][i] * s.xs[l][i] else 0.0);
  }

  lemma ObjectiveIsSum(s: Sample, lam: real, b: Vector)
    requires Rectangular(s) && |b| == s.n
    ensures Objective(s, lam, b) == PenalisedError(s, lam, b)
  {
    ErrorIsSum(s, |s.xs|, b);
    DotIsSum(b, b, s.n);
    SumToEq(|s.xs|,
            l => if 0 <= l < |s.xs| && l < |s.ws| && l < |s.ys|
                 then s.ws[l] * (s.ys[l] - Fitted(s.xs[l], b, s.n)) * (s.ys[l] - Fitted(s.xs[l], b, s.n)) else 0.0,
            l => if 0 <= l < |s.xs| && l < |s.ws| && l < |s.ys|
                 then s.ws[l] * (s.ys[l] - Fitted(s.xs[l], b, s.n)) * (s.ys[l] - Fitted(s.xs[l], b, s.n)) else 0.0);
  }

  // The prices the solver gives have the least weighted squared error, with the ridge's penalty, of all.
  lemma BestPrices(s: Sample, ridgeRel: real, top: nat, b: Vector)
    requires Rectangular(s) && Weighed(s) && ridgeRel >= 0.0 && top < s.n
    requires forall i: nat | i < s.n :: FeatureWeight(s, i) <= FeatureWeight(s, top)
    requires Solves(NormalSystem(s, Ridge(s, ridgeRel)), s.n, b)
    ensures Best(s, ridgeRel * FeatureWeight(s, top), b)
  {
    hide FeatureWeight, PenalisedError, Objective, MaxDiagonal, NormalSystem, Gram, Dot;
    RidgeIsOfHeaviest(s, ridgeRel, top);
    DiagonalIsPositive(s, |s.xs|, top);
    GramIsWeight(s, top);
    var lam := Ridge(s, ridgeRel);
    assert lam >= 0.0;
    ObjectiveIsSum(s, lam, b);
    forall z: Vector | |z| == s.n ensures PenalisedError(s, lam, b) <= PenalisedError(s, lam, z) {
      SolutionMinimises(s, lam, b, z);
      ObjectiveIsSum(s, lam, z);
    }
  }

  // ---------- When there is an answer ----------

  lemma {:induction false} DiagonalIsPositive(s: Sample, k: nat, i: nat)
    requires Rectangular(s) && Weighed(s) && k <= |s.xs| && i < s.n
    ensures Gram(s, k, i, i) >= 0.0
    ensures Gram(s, k, i, i) == 0.0 ==> forall l | 0 <= l < k :: s.ws[l] * s.xs[l][i] == 0.0
  {
    if k > 0 {
      DiagonalIsPositive(s, k - 1, i);
      var w, x := s.ws[k - 1], s.xs[k - 1][i];
      assert x * x >= 0.0;
      assert w * x * x == w * (x * x);
      if w * x != 0.0 { assert w > 0.0 && x * x > 0.0; }
    }
  }

  lemma {:induction false} MaxIsAboveAll(s: Sample, top: nat, i: nat)
    requires Rectangular(s) && i <= top < s.n
    ensures Gram(s, |s.xs|, i, i) <= MaxDiagonal(s, top)
    ensures exists j | 0 <= j <= top :: MaxDiagonal(s, top) == Gram(s, |s.xs|, j, j)
  {
    if top > 0 { MaxIsAboveAll(s, top - 1, if i < top then i else 0); }
  }

  lemma {:induction false} DeadFeature(s: Sample, k: nat, i: nat, j: nat)
    requires Rectangular(s) && k <= |s.xs| && i < s.n && j < s.n
    requires forall l | 0 <= l < k :: s.ws[l] * s.xs[l][i] == 0.0
    ensures Gram(s, k, i, j) == 0.0
  {
    if k > 0 { DeadFeature(s, k - 1, i, j); }
  }

  // An observation of positive weight has a feature that is not zero.
  ghost predicate HasSignal(s: Sample)
    requires Rectangular(s)
  {
    exists l, i | 0 <= l < |s.xs| && 0 <= i < s.n :: s.ws[l] > 0.0 && s.xs[l][i] != 0.0
  }

  // Then, and only then, the matrix has something on its diagonal.
  lemma {:induction false} SignalOnDiagonal(s: Sample, i: nat)
    requires Rectangular(s) && Weighed(s) && i < s.n
    ensures Gram(s, |s.xs|, i, i) > 0.0 <==> exists l | 0 <= l < |s.xs| :: s.ws[l] > 0.0 && s.xs[l][i] != 0.0
  {
    DiagonalIsPositive(s, |s.xs|, i);
    forall l | 0 <= l < |s.xs| && s.ws[l] > 0.0 && s.xs[l][i] != 0.0 ensures s.ws[l] * s.xs[l][i] != 0.0 {}
    if forall l | 0 <= l < |s.xs| :: s.ws[l] == 0.0 || s.xs[l][i] == 0.0 { DeadFeature(s, |s.xs|, i, i); }
  }

  // With weights that are not negative and a ridge, the solver has an answer exactly when
  // some observation of positive weight has a feature that is not zero: the ridge is then
  // positive and the matrix positive definite; otherwise the matrix is zero throughout.
  lemma AnswerExactlyWithSignal(s: Sample, ridgeRel: real)
    requires Rectangular(s) && Weighed(s) && ridgeRel > 0.0
    ensures Singular(NormalSystem(s, Ridge(s, ridgeRel)), s.n) <==> !HasSignal(s)
  {
    hide Dot, Gram, Rhs, MaxDiagonal, NormalSystem;
    if HasSignal(s) {
      SignalHasAnswer(s, ridgeRel);
    } else {
      NoSignalNoAnswer(s, ridgeRel);
    }
  }

  lemma SignalHasAnswer(s: Sample, ridgeRel: real)
    requires Rectangular(s) && Weighed(s) && ridgeRel > 0.0 && HasSignal(s)
    ensures !Singular(NormalSystem(s, Ridge(s, ridgeRel)), s.n)
  {
    hide Dot, Gram, Rhs, MaxDiagonal, NormalSystem;
    var l, i :| 0 <= l < |s.xs| && 0 <= i < s.n && s.ws[l] > 0.0 && s.xs[l][i] != 0.0;
    SignalOnDiagonal(s, i);
    MaxIsAboveAll(s, s.n - 1, i);
    var lam := Ridge(s, ridgeRel);
    forall v | Kernel(NormalSystem(s, lam), s.n, v) ensures Zero(v) { RidgeIsDefinite(s, lam, v); }
  }

  lemma NoSignalNoAnswer(s: Sample, ridgeRel: real)
    requires Rectangular(s) && Weighed(s) && !HasSignal(s)
    ensures Singular(NormalSystem(s, Ridge(s, ridgeRel)), s.n)
  {
    hide Dot, Gram, Rhs, MaxDiagonal, NormalSystem;
    var m := NormalSystem(s, Ridge(s, ridgeRel));
    MaxIsAboveAll(s, s.n - 1, 0);
    forall i | 0 <= i < s.n ensures Gram(s, |s.xs|, i, i) == 0.0 {
      DiagonalIsPositive(s, |s.xs|, i);
      SignalOnDiagonal(s, i);
    }
    var v: Vector := seq(s.n, _ => 1.0);
    forall i | 0 <= i < s.n ensures Dot(m[i], v, s.n) == 0.0 {
      DiagonalIsPositive(s, |s.xs|, i);
      forall j | 0 <= j < s.n ensures m[i][j] == 0.0 { DeadFeature(s, |s.xs|, i, j); }
      DotZero(m[i], v, s.n);
    }
    assert Kernel(m, s.n, v) && v[0] != 0.0;
  }

  lemma RidgeIsDefinite(s: Sample, lam: real, v: Vector)
    requires Rectangular(s) && Weighed(s) && lam > 0.0 && Kernel(NormalSystem(s, lam), s.n, v)
    ensures Zero(v)
  {
    hide Dot, Gram, Rhs, Cross, Times, Image, NormalSystem;
    var k := |s.xs|;
    var none: Vector := seq(s.n, _ => 0.0);
    forall i | 0 <= i < s.n ensures none[i] == Image(s, k, v)[i] + Times(lam, v[i]) {
      RidgedRow(s, lam, v, i);
    }
    CrossIsForm(s, k, v, v);
    DotAdd(v, Image(s, k, v), none, lam, v, s.n);
    DotZero(none, v, s.n);
    CrossIsPositive(s, k, v);
    SquaresArePositive(v, s.n);
    OnlyZero(lam, Dot(v, v, s.n));
  }

  lemma OnlyZero(lam: real, d: real)
    requires lam > 0.0 && d >= 0.0 && Times(lam, d) <= 0.0
    ensures d == 0.0
  {
    assert d > 0.0 ==> lam * d > 0.0;
  }
}
