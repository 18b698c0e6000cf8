/** The trust rule: a reputation value of at least one half that is not more than one sample standard
    deviation below the mean of all peers' values. Reals stand for floating point; the square root is
    compared by squaring. */
module Trust {
  import opened Types

  function Sum(xs: seq<real>): real {
    if xs == [] then 0.0 else Sum(xs[..|xs| - 1]) + xs[|xs| - 1]
  }

  function Deviations(xs: seq<real>, m: real): (ds: seq<real>)
    ensures |ds| == |xs|
  {
    seq(|xs|, i requires 0 <= i < |xs| => m - xs[i])
  }

  function Square(x: real): real {
    x * x
  }

  function SumSq(xs: seq<real>): real {
    if xs == [] then 0.0 else SumSq(xs[..|xs| - 1]) + Square(xs[|xs| - 1])
  }

  function Mean(xs: seq<real>): real
    requires xs != []
  {
    Sum(xs) / |xs| as real
  }

  function Variance(xs: seq<real>): real
    requires |xs| >= 2
  {
    SumSq(Deviations(xs, Mean(xs))) / (|xs| - 1) as real
  }

  /** Below mean minus standard deviation. */
  predicate Below(v: real, xs: seq<real>)
    requires |xs| >= 2
  {
    v < Mean(xs) && Square(Mean(xs) - v) > Variance(xs)
  }

  /** With fewer than two peers the deviation is not a number, and every comparison with it is false. */
  predicate Passes(v: real, xs: seq<real>) {
    v >= 0.5 && |xs| >= 2 && !Below(v, xs)
  }

  function ValuesOf(peers: seq<PeerID>, valueOf: PeerID -> real): seq<real> {
    seq(|peers|, i requires 0 <= i < |peers| => valueOf(peers[i]))
  }

  method MeanOf(repVals: seq<real>) returns (mean: real)
    requires repVals != []
    ensures mean == Mean(repVals)
  {
    mean := 0.0;
    for i := 0 to |repVals|
      invariant mean == Sum(repVals[..i])
    {
      assert repVals[..i + 1][..i] == repVals[..i];
      mean := mean + repVals[i];
    }
    assert repVals[..|repVals|] == repVals;
    mean := mean / |repVals| as real;
  }

  lemma SquaresNext(xs: seq<real>, m: real, i: nat)
    requires i < |xs|
    ensures SumSq(Deviations(xs[..i + 1], m)) == SumSq(Deviations(xs[..i], m)) + Square(xs[i] - m)
  {
    var ds := Deviations(xs[..i + 1], m);
    assert ds[..i] == Deviations(xs[..i], m);
    SquareOfNegated(xs[i] - m, ds[i]);
  }

  method VarianceOf(repVals: seq<real>, mean: real) returns (variance: real)
    requires |repVals| >= 2 && mean == Mean(repVals)
    ensures variance == Variance(repVals)
  {
    variance := 0.0;
    for i := 0 to |repVals|
      invariant variance == SumSq(Deviations(repVals[..i], mean))
    {
      SquaresNext(repVals, mean, i);
      variance := variance + Square(repVals[i] - mean);
    }
    assert repVals[..|repVals|] == repVals;
    variance := variance / (|repVals| - 1) as real;
  }

  method TrustFunc(value: real, peers: Result<seq<PeerID>>, valueOf: PeerID -> real) returns (trusted: bool, failed: bool)
    ensures failed <==> value >= 0.5 && peers.Err?
    ensures trusted <==> peers.Ok? && Passes(value, ValuesOf(peers.value, valueOf))
    ensures trusted ==> value >= 0.5 && |peers.value| >= 2
  {
    if value < 0.5 {
      return false, false;
    }
    if peers.Err? {
      return false, true;
    }
    failed := false;
    var repVals: seq<real> := [];
    for i := 0 to |peers.value|
      invariant repVals == ValuesOf(peers.value[..i], valueOf)
    {
      repVals := repVals + [valueOf(peers.value[i])];
    }
    assert peers.value[..|peers.value|] == peers.value;
    if |repVals| < 2 {
      return false, false;
    }
    var mean := MeanOf(repVals);
    var variance := VarianceOf(repVals, mean);
    trusted := value >= mean || Square(mean - value) <= variance;
  }

  lemma SquareOfNegated(x: real, y: real)
    requires x == -y
    ensures Square(x) == Square(y)
  {
  }

  // Real arithmetic. A product is named by a variable or by Times before it is compared.

  function Times(x: real, y: real): real {
    x * y
  }

  lemma Scale(x: real, y: real, z: real, xz: real, yz: real)
    requires x > y && z > 0.0 && xz == x * z && yz == y * z
    ensures xz > yz
  {
  }

  lemma SquarePositive(x: real)
    requires x != 0.0
    ensures Square(x) > 0.0
  {
    if x > 0.0 {
      Scale(x, 0.0, x, Square(x), 0.0);
    } else {
      Scale(-x, 0.0, -x, Square(x), 0.0);
    }
  }

  lemma SquareNonNegative(x: real)
    ensures Square(x) >= 0.0
  {
  }

  // Sums

  lemma {:induction false} SumSqNonNegative(xs: seq<real>)
    ensures SumSq(xs) >= 0.0
  {
    if xs != [] {
      SumSqNonNegative(xs[..|xs| - 1]);
      SquareNonNegative(xs[|xs| - 1]);
    }
  }

  lemma {:induction false} SumOfDeviations(xs: seq<real>, m: real)
    ensures Sum(Deviations(xs, m)) == |xs| as real * m - Sum(xs)
  {
    if xs != [] {
      SumOfDeviations(xs[..|xs| - 1], m);
      var ds := Deviations(xs, m);
      assert ds[..|ds| - 1] == Deviations(xs[..|xs| - 1], m);
      assert |xs| as real * m == (|xs| - 1) as real * m + m;
    }
  }

  lemma DeviationsCancel(xs: seq<real>)
    requires xs != []
    ensures Sum(Deviations(xs, Mean(xs))) == 0.0
  {
    SumOfDeviations(xs, Mean(xs));
    TimesQuotient(Sum(xs), |xs| as real);
  }

  lemma Expand(s: real, m: real, x: real)
    ensures Square(s - m * x) == Square(s) - 2.0 * (m * (s * x)) + m * (m * Square(x))
  {
  }

  lemma CauchyStep(s: real, q: real, m: real, x: real)
    requires Square(s) <= Times(m, q) && m >= 0.0 && q >= 0.0
    ensures Square(s + x) <= Times(m + 1.0, q + Square(x))
  {
    var e := q + m * Square(x) - 2.0 * (s * x);
    if m == 0.0 {
      assert Times(m, q) == 0.0;
      if s != 0.0 {
        SquarePositive(s);
      }
    } else {
      SquareNonNegative(s - m * x);
      Expand(s, m, x);
      var me := m * e;
      assert me == Times(m, q) + m * (m * Square(x)) - 2.0 * (m * (s * x));
      if e < 0.0 {
        Scale(0.0, e, m, 0.0, me);
      }
      assert Square(s + x) == Square(s) + 2.0 * (s * x) + Square(x);
      assert Times(m + 1.0, q + Square(x)) == Times(m, q) + m * Square(x) + q + Square(x);
    }
  }

  /** The square of a sum is at most the count times the sum of squares. */
  lemma {:induction false} Cauchy(xs: seq<real>)
    ensures Square(Sum(xs)) <= Times(|xs| as real, SumSq(xs))
  {
    if xs != [] {
      var n := |xs| - 1;
      Cauchy(xs[..n]);
      SumSqNonNegative(xs[..n]);
      CauchyStep(Sum(xs[..n]), SumSq(xs[..n]), n as real, xs[n]);
    }
  }

  // The values that are far below

  predicate Far(d: real, v: real) {
    d > 0.0 && Square(d) > v
  }

  function FarOnes(ds: seq<real>, v: real): seq<real> {
    if ds == [] then []
    else FarOnes(ds[..|ds| - 1], v) + if Far(ds[|ds| - 1], v) then [ds[|ds| - 1]] else []
  }

  function NearOnes(ds: seq<real>, v: real): seq<real> {
    if ds == [] then []
    else NearOnes(ds[..|ds| - 1], v) + if Far(ds[|ds| - 1], v) then [] else [ds[|ds| - 1]]
  }

  lemma SumsAppend(xs: seq<real>, x: real)
    ensures Sum(xs + [x]) == Sum(xs) + x && SumSq(xs + [x]) == SumSq(xs) + Square(x)
  {
  }

  lemma {:induction false} Partition(ds: seq<real>, v: real)
    ensures |FarOnes(ds, v)| + |NearOnes(ds, v)| == |ds|
    ensures Sum(FarOnes(ds, v)) + Sum(NearOnes(ds, v)) == Sum(ds)
    ensures SumSq(FarOnes(ds, v)) + SumSq(NearOnes(ds, v)) == SumSq(ds)
  {
    if ds != [] {
      var init, d := ds[..|ds| - 1], ds[|ds| - 1];
      Partition(init, v);
      if Far(d, v) {
        SumsAppend(FarOnes(init, v), d);
        assert FarOnes(ds, v) == FarOnes(init, v) + [d] && NearOnes(ds, v) == NearOnes(init, v);
      } else {
        SumsAppend(NearOnes(init, v), d);
        assert NearOnes(ds, v) == NearOnes(init, v) + [d] && FarOnes(ds, v) == FarOnes(init, v);
      }
    }
  }

  ghost predicate AllFar(ds: seq<real>, v: real) {
    forall i :: 0 <= i < |ds| ==> Far(ds[i], v)
  }

  lemma {:induction false} FarOnesAreFar(ds: seq<real>, v: real)
    ensures AllFar(FarOnes(ds, v), v)
  {
    if ds != [] {
      FarOnesAreFar(ds[..|ds| - 1], v);
    }
  }

  /** A far deviation d added to k of them that outweigh k roots of v makes k + 1 that do. */
  lemma FarStep(s: real, d: real, k: real, v: real)
    requires s > 0.0 && Square(s) > Times(Square(k), v) && k >= 1.0 && v >= 0.0 && Far(d, v)
    ensures Square(s + d) > Times(Square(k + 1.0), v)
  {
  }

  /** Far deviations add up to more than their count times the standard deviation, and so do their squares. */
  lemma {:induction false} FarOutweigh(far: seq<real>, v: real)
    requires far != [] && v >= 0.0 && AllFar(far, v)
    ensures Sum(far) > 0.0
    ensures Square(Sum(far)) > Times(Square(|far| as real), v)
    ensures SumSq(far) > Times(|far| as real, v)
  {
    var n := |far| - 1;
    var init, d := far[..n], far[n];
    assert Far(d, v);
    if n == 0 {
      assert init == [];
      assert Times(1.0, v) == v && Times(Square(1.0), v) == v;
      assert Sum(far) == d && SumSq(far) == Square(d);
    } else {
      FarOutweigh(init, v);
      FarStep(Sum(init), d, n as real, v);
      assert Times(n as real + 1.0, v) == Times(n as real, v) + v;
    }
  }

  // How many are rejected, and whether anyone passes

  /** How many of ys lie below the line that xs give. */
  function CountBelow(ys: seq<real>, xs: seq<real>): nat
    requires |xs| >= 2
  {
    if ys == [] then 0
    else CountBelow(ys[..|ys| - 1], xs) + if Below(ys[|ys| - 1], xs) then 1 else 0
  }

  /** The number of values strictly below mean minus standard deviation. */
  function Rejected(xs: seq<real>): nat
    requires |xs| >= 2
  {
    CountBelow(xs, xs)
  }

  lemma {:induction false} FarOnesCounted(ys: seq<real>, xs: seq<real>)
    requires |xs| >= 2
    ensures |FarOnes(Deviations(ys, Mean(xs)), Variance(xs))| == CountBelow(ys, xs)
  {
    if ys != [] {
      FarOnesCounted(ys[..|ys| - 1], xs);
      var ds := Deviations(ys, Mean(xs));
      assert ds[..|ds| - 1] == Deviations(ys[..|ys| - 1], Mean(xs));
    }
  }

  /** The real inequality behind the count: qf and a2 are the far ones' squares and squared sum, and qn
      the near ones' squares. */
  lemma Outweighed(n: real, k: real, v: real, a2: real, qf: real, qn: real)
    requires k >= 1.0 && n > k && v >= 0.0
    requires qf > Times(k, v) && a2 > Times(Square(k), v) && a2 <= Times(n - k, qn)
    requires qf + qn == Times(n - 1.0, v)
    ensures Times(n, n - 1.0) > Times(k, 2.0 * n - 1.0)
  {
  }

  /** What the far and the near deviations of some values add up to. */
  lemma BothSides(xs: seq<real>, far: seq<real>, near: seq<real>)
    requires |xs| >= 2
    requires far == FarOnes(Deviations(xs, Mean(xs)), Variance(xs))
    requires near == NearOnes(Deviations(xs, Mean(xs)), Variance(xs))
    ensures |far| + |near| == |xs| && |far| == Rejected(xs)
    ensures Sum(near) == -Sum(far)
    ensures SumSq(far) + SumSq(near) == Times((|xs| - 1) as real, Variance(xs))
  {
    var ds, v := Deviations(xs, Mean(xs)), Variance(xs);
    Partition(ds, v);
    FarOnesCounted(xs, xs);
    DeviationsCancel(xs);
    TimesQuotient(SumSq(ds), (|xs| - 1) as real);
  }

  lemma TimesQuotient(a: real, b: real)
    requires b != 0.0
    ensures Times(b, a / b) == a
  {
  }

  lemma SomeRejected(xs: seq<real>)
    requires |xs| >= 2 && Rejected(xs) > 0
    ensures
      var n, k := |xs| as real, Rejected(xs) as real;
      Times(n, n - 1.0) > Times(k, 2.0 * n - 1.0)
  {
    var ds, v := Deviations(xs, Mean(xs)), Variance(xs);
    var far, near := FarOnes(ds, v), NearOnes(ds, v);
    BothSides(xs, far, near);
    NonNegativeVariance(xs);
    FarOnesAreFar(ds, v);
    FarOutweigh(far, v);
    Cauchy(near);
    if near == [] {
      assert false;
    }
    SquareOfNegated(Sum(far), Sum(near));
    Outweighed(|xs| as real, |far| as real, v, Square(Sum(far)), SumSq(far), SumSq(near));
  }

  /** The exact bound on how many peers can be below the line. */
  lemma RejectedBound(xs: seq<real>)
    requires |xs| >= 2
    ensures var n, k := |xs|, Rejected(xs); k * (2 * n - 1) < n * (n - 1)
  {
    var n, k := |xs|, Rejected(xs);
    if k > 0 {
      SomeRejected(xs);
      ToIntegers(n, k);
    } else {
      OneAtLeast(n);
    }
  }

  /** Fewer than half of the peers can be below the line. */
  lemma FewerThanHalfRejected(xs: seq<real>)
    requires |xs| >= 2
    ensures 2 * Rejected(xs) < |xs|
  {
    RejectedBound(xs);
    if 2 * Rejected(xs) >= |xs| {
      HalfIsTooMany(|xs|, Rejected(xs));
    }
  }

  lemma OneAtLeast(n: int)
    requires n >= 2
    ensures 0 < n * (n - 1)
  {
  }

  lemma HalfIsTooMany(n: int, k: int)
    requires 2 * k >= n >= 2
    ensures k * (2 * n - 1) >= n * (n - 1)
  {
  }

  lemma NonNegativeVariance(xs: seq<real>)
    requires |xs| >= 2
    ensures Variance(xs) >= 0.0
  {
    SumSqNonNegative(Deviations(xs, Mean(xs)));
    var q, m := Variance(xs), (|xs| - 1) as real;
    var qm := q * m;
    TimesQuotient(SumSq(Deviations(xs, Mean(xs))), m);
    if q < 0.0 {
      Scale(0.0, q, m, 0.0, qm);
    }
  }

  lemma ToIntegers(n: int, k: int)
    requires Times(n as real, n as real - 1.0) > Times(k as real, 2.0 * n as real - 1.0)
    ensures k * (2 * n - 1) < n * (n - 1)
  {
  }

  lemma {:induction false} SumBelow(xs: seq<real>, m: real)
    requires xs != [] && forall i :: 0 <= i < |xs| ==> xs[i] < m
    ensures Sum(xs) < |xs| as real * m
  {
    var n := |xs| - 1;
    assert |xs| as real * m == n as real * m + m;
    if n > 0 {
      SumBelow(xs[..n], m);
    } else {
      assert xs[..n] == [];
    }
  }

  lemma {:induction false} SomeValueReachesMean(xs: seq<real>)
    requires xs != []
    ensures exists i :: 0 <= i < |xs| && xs[i] >= Mean(xs) && forall j :: 0 <= j < |xs| ==> xs[j] <= xs[i]
  {
    var i := Largest(xs);
    TimesQuotient(Sum(xs), |xs| as real);
    if xs[i] < Mean(xs) {
      SumBelow(xs, Mean(xs));
    }
  }

  lemma {:induction false} Largest(xs: seq<real>) returns (i: nat)
    requires xs != []
    ensures i < |xs| && forall j :: 0 <= j < |xs| ==> xs[j] <= xs[i]
  {
    var n := |xs| - 1;
    if n == 0 {
      i := 0;
    } else {
      i := Largest(xs[..n]);
      assert forall j :: 0 <= j < n ==> xs[j] == xs[..n][j];
      if xs[n] > xs[i] {
        i := n;
      }
    }
  }

  /** Some peer passes the whole rule exactly when some peer's value is at least one half. */
  lemma SomeonePassesExactly(xs: seq<real>)
    requires |xs| >= 2
    ensures (exists i :: 0 <= i < |xs| && Passes(xs[i], xs)) <==> (exists i :: 0 <= i < |xs| && xs[i] >= 0.5)
  {
    if i :| 0 <= i < |xs| && xs[i] >= 0.5 {
      SomeValueReachesMean(xs);
      var best :| 0 <= best < |xs| && xs[best] >= Mean(xs) && forall j :: 0 <= j < |xs| ==> xs[j] <= xs[best];
      assert Passes(xs[best], xs);
    }
  }
}
