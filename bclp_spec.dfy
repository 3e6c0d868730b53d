/** The band-constrained Lp-norm (BCLP) optimisation as values: the derived
    quantities of a sinogram, the loss and its gradient, one gradient-descent
    step, and the run of `BCLPNorm.gradientDescent` as the source sequences it.
    The class in module Bclp is proved against these functions. */
module BclpSpec {
  import opened Optional
  import opened SinogramShape
  import opened Constraints

  /** The projector of one projection geometry (`projectorconstructor`), whose
      code is not part of this model. */
  datatype Projector = Projector(
    forward: seq<real> -> NdArray,   // `P.forward`: volume to sinogram of the native shape
    backward: NdArray -> seq<real>,  // `P.backward`: sinogram of the native shape to volume
    sinoShape: seq<nat>)             // the native ("cylindrical") sinogram shape

  /** The response model (`options.response_model`), whose code is not part of
      this model. */
  datatype ResponseModel = ResponseModel(
    doseMap: seq<real> -> seq<real>,     // `map`
    doseMapInv: seq<real> -> seq<real>,  // `map_inv`
    dmapdf: seq<real> -> seq<real>)      // derivative of `map`

  /** Everything the optimisation of one target reads and never changes. */
  datatype Problem = Problem(
    projector: Projector,
    response: ResponseModel,
    filterSinogram: (NdArray, string) -> NdArray,  // `util.data.filterSinogram`
    filter: string,                                // `options.filter`
    discretize: Discretizer,                       // `util.data.discretize`
    pow: (real, real) -> real,                     // numpy `**` on reals
    target: seq<real>,                             // `target_geo.array`, flattened
    weight: seq<real>,                             // `options.weight`, one per voxel
    eps: real,
    p: real,
    q: real,
    learningRate: real,
    glb: real,
    gub: real,
    bitDepth: Option<nat>,
    nAngles: nat)

  /** `self.dvol`: the differential volume of the integration. */
  const Dvol: real := 1.0

  /** `self.tomogram_scale = 1/proj_geo.n_angles`. */
  function TomogramScale(pr: Problem): real
    requires pr.nAngles > 0
  {
    1.0 / pr.nAngles as real
  }

  /** What the optimisation assumes of its collaborators and options: each
      external operator gives arrays of the size its caller expects, the
      divisions by `n_angles`, `p` and `q` are defined, and `np.amax` is never
      asked for the maximum of an empty sinogram. */
  ghost predicate WellPosed(pr: Problem)
  {
    && |pr.projector.sinoShape| >= 1
    && |pr.weight| == |pr.target|
    && pr.nAngles > 0
    && pr.p != 0.0
    && pr.q != 0.0
    && (pr.bitDepth.Some? ==> Product(pr.projector.sinoShape) > 0)
    && KeepsLength(pr.discretize)
    && (forall f: seq<real> {:trigger pr.projector.forward(f)} :: |f| == |pr.target| ==>
          WellFormed(pr.projector.forward(f)) && pr.projector.forward(f).shape == pr.projector.sinoShape)
    && (forall g: NdArray {:trigger pr.projector.backward(g)} :: WellFormed(g) && g.shape == pr.projector.sinoShape ==>
          |pr.projector.backward(g)| == |pr.target|)
    && (forall s: seq<real> {:trigger pr.response.doseMap(s)} :: |pr.response.doseMap(s)| == |s|)
    && (forall s: seq<real> {:trigger pr.response.doseMapInv(s)} :: |pr.response.doseMapInv(s)| == |s|)
    && (forall s: seq<real> {:trigger pr.response.dmapdf(s)} :: |pr.response.dmapdf(s)| == |s|)
    && (forall g: NdArray, kind: string {:trigger pr.filterSinogram(g, kind)} :: WellFormed(g) ==>
          WellFormed(pr.filterSinogram(g, kind)) && pr.filterSinogram(g, kind).shape == g.shape)
  }

  /** A sinogram in one of its two canonical shapes: native or flattened. */
  predicate Fits(pr: Problem, g: NdArray)
  {
    && WellFormed(g)
    && (g.shape == pr.projector.sinoShape || g.shape == [Product(pr.projector.sinoShape)])
  }

  /** `checkSinogramShape(g, "flattened")` of a canonical sinogram. */
  function Flatten(pr: Problem, g: NdArray): (r: NdArray)
    requires WellPosed(pr) && Fits(pr, g)
    ensures Fits(pr, r) && r.shape == [Product(pr.projector.sinoShape)] && r.data == g.data
  {
    var s := pr.projector.sinoShape;
    assert Product([Product(s)]) == Product(s);
    assert |s| == 1 ==> s == [Product(s)] by {
      if |s| == 1 { assert Product(s) == s[0] * Product([]); assert s == [s[0]]; }
    }
    CheckSinogramShape(g, FlattenedShape, s).value
  }

  /** `checkSinogramShape(g, "cylindrical")` of a canonical sinogram. */
  function ToCylindrical(pr: Problem, g: NdArray): (r: NdArray)
    requires WellPosed(pr) && Fits(pr, g)
    ensures r == NdArray(pr.projector.sinoShape, g.data)
  {
    assert Product([Product(pr.projector.sinoShape)]) == Product(pr.projector.sinoShape);
    CheckSinogramShape(g, CylindricalShape, pr.projector.sinoShape).value
  }

  /** The five quantities `updateVariables` derives from a sinogram, in the
      order it computes them. */
  datatype Derived = Derived(
    dose: seq<real>,
    mappedDose: seq<real>,
    errorFromTarget: seq<real>,
    errorFromBand: seq<real>,
    v: seq<bool>)

  /** Every derived array has one entry per voxel. */
  predicate Shaped(pr: Problem, d: Derived)
  {
    && |d.dose| == |pr.target|
    && |d.mappedDose| == |pr.target|
    && |d.errorFromTarget| == |pr.target|
    && |d.errorFromBand| == |pr.target|
    && |d.v| == |pr.target|
  }

  /** `np.abs`. */
  function Abs(x: real): (r: real)
    ensures r >= 0.0 && (r == x || r == -x)
  {
    if x < 0.0 then -x else x
  }

  /** `np.sign`. */
  function Sign(x: real): (r: real)
    ensures r * x == Abs(x)
    ensures r == 1.0 || r == -1.0 || r == 0.0
    ensures r == 0.0 <==> x == 0.0
  {
    if x > 0.0 then 1.0 else if x < 0.0 then -1.0 else 0.0
  }

  function Scaled(s: seq<real>, c: real): (r: seq<real>)
    ensures |r| == |s| && forall i :: 0 <= i < |s| ==> r[i] == c * s[i]
  {
    seq(|s|, i requires 0 <= i < |s| => c * s[i])
  }

  function Minus(a: seq<real>, b: seq<real>): (r: seq<real>)
    requires |a| == |b|
    ensures |r| == |a| && forall i :: 0 <= i < |a| ==> r[i] == a[i] - b[i]
  {
    seq(|a|, i requires 0 <= i < |a| => a[i] - b[i])
  }

  /** `np.abs(error_from_f_T) - eps`. */
  function BandError(errorFromTarget: seq<real>, eps: real): (r: seq<real>)
    ensures |r| == |errorFromTarget|
    ensures forall i :: 0 <= i < |r| ==> r[i] == Abs(errorFromTarget[i]) - eps
  {
    seq(|errorFromTarget|, i requires 0 <= i < |errorFromTarget| => Abs(errorFromTarget[i]) - eps)
  }

  /** `error_from_band > 0`. */
  function Violations(errorFromBand: seq<real>): (r: seq<bool>)
    ensures |r| == |errorFromBand|
    ensures forall i :: 0 <= i < |r| ==> (r[i] <==> errorFromBand[i] > 0.0)
  {
    seq(|errorFromBand|, i requires 0 <= i < |errorFromBand| => errorFromBand[i] > 0.0)
  }

  /** The dose of a sinogram: its back-projection, read in the native shape,
      averaged over the `n_angles` projections. */
  function DoseOf(pr: Problem, g: NdArray): (dose: seq<real>)
    requires WellPosed(pr) && Fits(pr, g)
    ensures |dose| == |pr.target|
    ensures forall i :: 0 <= i < |dose| ==>
              dose[i] * pr.nAngles as real == pr.projector.backward(NdArray(pr.projector.sinoShape, g.data))[i]
  {
    assert Product([Product(pr.projector.sinoShape)]) == Product(pr.projector.sinoShape);
    Scaled(pr.projector.backward(ToCylindrical(pr, g)), TomogramScale(pr))
  }

  /** The dependency chain dose, mapped dose, error from the target, error
      from the band and violation mask of a sinogram. */
  function Derive(pr: Problem, g: NdArray): (d: Derived)
    requires WellPosed(pr) && Fits(pr, g)
    ensures Shaped(pr, d)
    ensures d.mappedDose == pr.response.doseMap(d.dose)
    ensures forall i :: 0 <= i < |d.errorFromTarget| ==>
              d.errorFromTarget[i] == d.mappedDose[i] - pr.target[i]
    ensures forall i :: 0 <= i < |d.errorFromBand| ==>
              d.errorFromBand[i] == Abs(d.mappedDose[i] - pr.target[i]) - pr.eps
    ensures forall i :: 0 <= i < |d.v| ==>
              (d.v[i] <==> Abs(d.mappedDose[i] - pr.target[i]) > pr.eps)
  {
    var dose := DoseOf(pr, g);
    var mapped := pr.response.doseMap(dose);
    var errT := Minus(mapped, pr.target);
    var errB := BandError(errT, pr.eps);
    Derived(dose, mapped, errT, errB, Violations(errB))
  }

  /** The chain computed one quantity at a time is `Derive`. */
  lemma DeriveInOrder(pr: Problem, g: NdArray, dose: seq<real>, mapped: seq<real>,
                      errT: seq<real>, errB: seq<real>, v: seq<bool>)
    requires WellPosed(pr) && Fits(pr, g)
    requires dose == DoseOf(pr, g) && mapped == pr.response.doseMap(dose)
    requires |mapped| == |pr.target| && errT == Minus(mapped, pr.target)
    requires errB == BandError(errT, pr.eps) && v == Violations(errB)
    ensures Derived(dose, mapped, errT, errB, v) == Derive(pr, g)
  {
  }

  /** The derived quantities depend on the elements of the sinogram alone, not
      on which of its two canonical shapes it is given in. */
  lemma DeriveIgnoresShape(pr: Problem, g: NdArray, h: NdArray)
    requires WellPosed(pr) && Fits(pr, g) && Fits(pr, h) && g.data == h.data
    ensures Derive(pr, g) == Derive(pr, h)
  {
    assert ToCylindrical(pr, g) == ToCylindrical(pr, h);
  }

  function Sum(s: seq<real>): real
  {
    if s == [] then 0.0 else s[0] + Sum(s[1..])
  }

  /** A sum of zeros is zero. */
  lemma {:induction false} SumOfZeros(s: seq<real>)
    ensures (forall i :: 0 <= i < |s| ==> s[i] == 0.0) ==> Sum(s) == 0.0
  {
    if s != [] {
      SumOfZeros(s[1..]);
    }
  }

  lemma {:induction false} SumNonNegative(s: seq<real>)
    requires forall i :: 0 <= i < |s| ==> s[i] >= 0.0
    ensures Sum(s) >= 0.0
  {
    if s != [] {
      SumNonNegative(s[1..]);
    }
  }

  /** Element-wise `base ** exponent`. */
  function PowAll(pow: (real, real) -> real, base: seq<real>, exponent: real): (r: seq<real>)
    ensures |r| == |base|
    ensures forall i :: 0 <= i < |base| ==> r[i] == pow(base[i], exponent)
  {
    if base == [] then [] else [pow(base[0], exponent)] + PowAll(pow, base[1..], exponent)
  }

  /** `v * weight * error_from_band**p`: zero wherever the band is kept. */
  function LossIntegrand(pr: Problem, d: Derived): (r: seq<real>)
    requires Shaped(pr, d) && |pr.weight| == |pr.target|
    ensures |r| == |pr.target|
    ensures forall i :: 0 <= i < |r| && !d.v[i] ==> r[i] == 0.0
    ensures forall i :: 0 <= i < |r| && d.v[i] ==> r[i] == pr.weight[i] * pr.pow(d.errorFromBand[i], pr.p)
  {
    var powered := PowAll(pr.pow, d.errorFromBand, pr.p);
    // the boolean mask `v` enters as a 0/1 factor
    seq(|d.v|, i requires 0 <= i < |d.v| => if d.v[i] then pr.weight[i] * powered[i] else 0.0)
  }

  /** `computeLoss`: `(sum(integrand) * dvol) ** (q/p)`. */
  function Loss(pr: Problem, d: Derived): real
    requires WellPosed(pr) && Shaped(pr, d)
  {
    pr.pow(Sum(LossIntegrand(pr, d)) * Dvol, pr.q / pr.p)
  }

  /** When no voxel lies outside the band the integrand vanishes, so the loss
      is `0 ** (q/p)`, whatever the weights. */
  lemma LossWithinBand(pr: Problem, d: Derived)
    requires WellPosed(pr) && Shaped(pr, d)
    requires forall i :: 0 <= i < |d.v| ==> !d.v[i]
    ensures Loss(pr, d) == pr.pow(0.0, pr.q / pr.p)
  {
    SumOfZeros(LossIntegrand(pr, d));
  }

  /** The loss is never negative when the weights are not and a power of a
      non-negative base is non-negative (as real powers are). */
  lemma LossNonNegative(pr: Problem, g: NdArray)
    requires WellPosed(pr) && Fits(pr, g)
    requires forall i :: 0 <= i < |pr.weight| ==> pr.weight[i] >= 0.0
    requires forall x: real, y: real :: x >= 0.0 ==> pr.pow(x, y) >= 0.0
    ensures Loss(pr, Derive(pr, g)) >= 0.0
  {
    var d := Derive(pr, g);
    var integrand := LossIntegrand(pr, d);
    forall i | 0 <= i < |integrand| ensures integrand[i] >= 0.0 {
      if d.v[i] {
        assert pr.pow(d.errorFromBand[i], pr.p) >= 0.0;
      }
    }
    SumNonNegative(integrand);
  }

  /** The per-voxel gradient operand
      `v * weight * error_from_band**(p-1) * sign(error_from_f_T) * dmapdf(dose)`:
      inside the band a voxel contributes nothing. */
  function GradientOperand(pr: Problem, d: Derived): (r: seq<real>)
    requires WellPosed(pr) && Shaped(pr, d)
    ensures |r| == |pr.target|
    ensures forall i :: 0 <= i < |r| && !d.v[i] ==> r[i] == 0.0
    ensures forall i :: 0 <= i < |r| && d.v[i] ==>
              r[i] == pr.weight[i] * pr.pow(d.errorFromBand[i], pr.p - 1.0)
                      * Sign(d.errorFromTarget[i]) * pr.response.dmapdf(d.dose)[i]
  {
    var slope := pr.response.dmapdf(d.dose);
    var powered := PowAll(pr.pow, d.errorFromBand, pr.p - 1.0);
    seq(|d.v|, i requires 0 <= i < |d.v| =>
      if d.v[i] then pr.weight[i] * powered[i] * Sign(d.errorFromTarget[i]) * slope[i] else 0.0)
  }

  /** The outer chain-rule factor `q * loss**((q-p)/q)`. */
  function GradientScale(pr: Problem, loss: real): real
    requires pr.q != 0.0
  {
    pr.q * pr.pow(loss, (pr.q - pr.p) / pr.q)
  }

  /** `computeLossGradient` once the quantities are derived: the forward
      projection of the operand, scaled by the outer factor evaluated at the
      loss `previousLoss`, flattened. */
  function LossGradient(pr: Problem, d: Derived, previousLoss: real): (grad: NdArray)
    requires WellPosed(pr) && Shaped(pr, d)
    ensures Fits(pr, grad) && grad.shape == [Product(pr.projector.sinoShape)]
    ensures var projected := pr.projector.forward(GradientOperand(pr, d)).data;
            |grad.data| == |projected| &&
            forall i :: 0 <= i < |grad.data| ==>
              grad.data[i] == GradientScale(pr, previousLoss) * projected[i]
  {
    var projected := pr.projector.forward(GradientOperand(pr, d));
    var scaled := NdArray(projected.shape, Scaled(projected.data, GradientScale(pr, previousLoss)));
    Flatten(pr, scaled)
  }

  /** With `p == q` the outer factor is `q * loss**0`, so the gradient does not
      depend on which loss it is scaled by. */
  lemma GradientIgnoresLossWhenPEqualsQ(pr: Problem, d: Derived, a: real, b: real)
    requires WellPosed(pr) && Shaped(pr, d) && pr.p == pr.q
    requires forall x: real :: pr.pow(x, 0.0) == 1.0
    ensures LossGradient(pr, d, a) == LossGradient(pr, d, b)
  {
    assert (pr.q - pr.p) / pr.q == 0.0;
    assert GradientScale(pr, a) == GradientScale(pr, b);
  }

  /** `g_iter - learning_rate * grad`. */
  function Descend(g: NdArray, grad: NdArray, rate: real): (r: NdArray)
    requires |grad.data| == |g.data|
    ensures r.shape == g.shape && |r.data| == |g.data|
    ensures forall i :: 0 <= i < |g.data| ==> r.data[i] == g.data[i] - rate * grad.data[i]
  {
    NdArray(g.shape, seq(|g.data|, i requires 0 <= i < |g.data| => g.data[i] - rate * grad.data[i]))
  }

  /** `imposeSinogramConstraints` with the options of the problem. */
  function Impose(pr: Problem, g: NdArray): (r: NdArray)
    requires WellPosed(pr) && Fits(pr, g)
    ensures Fits(pr, r) && r.shape == g.shape
    ensures pr.glb <= pr.gub ==> forall i :: 0 <= i < |r.data| ==> pr.glb <= r.data[i] <= pr.gub
  {
    assert |g.data| == Product(pr.projector.sinoShape) by {
      assert Product([Product(pr.projector.sinoShape)]) == Product(pr.projector.sinoShape);
    }
    ImposeSinogramConstraints(g, pr.bitDepth, pr.glb, pr.gub, pr.discretize)
  }

  /** One pass of the loop body of `gradientDescent` on the sinogram: a
      gradient step from `g`, with the gradient taken from the quantities `d`
      and the loss `previousLoss`, then the constraints. */
  function Step(pr: Problem, g: NdArray, d: Derived, previousLoss: real): (r: NdArray)
    requires WellPosed(pr) && Fits(pr, g) && Shaped(pr, d)
    requires g.shape == [Product(pr.projector.sinoShape)]
    ensures Fits(pr, r) && r.shape == g.shape
    ensures pr.glb <= pr.gub ==> forall i :: 0 <= i < |r.data| ==> pr.glb <= r.data[i] <= pr.gub
  {
    Impose(pr, Descend(g, LossGradient(pr, d, previousLoss), pr.learningRate))
  }

  /** The initial sinogram: the forward projection of the inverse-mapped
      target, filtered, under the constraints. */
  function InitialSinogram(pr: Problem): (g0: NdArray)
    requires WellPosed(pr)
    ensures Fits(pr, g0) && g0.shape == pr.projector.sinoShape
    ensures pr.glb <= pr.gub ==> forall i :: 0 <= i < |g0.data| ==> pr.glb <= g0.data[i] <= pr.gub
  {
    var projected := pr.projector.forward(pr.response.doseMapInv(pr.target));
    Impose(pr, pr.filterSinogram(projected, pr.filter))
  }

  /** A run of the optimiser: the sinogram after each iteration (entry 0 is
      the flattened initial sinogram) and the loss recorded in each log slot. */
  datatype Run = Run(sinograms: seq<NdArray>, losses: seq<real>)

  /** The first `n` iterations of `gradientDescent` from the sinogram `g0`, as
      the source sequences them. Iteration k derives the quantities of the
      sinogram it starts from, steps, and then records the loss of the cache
      it just filled (the cache is keyed on the iteration counter, not on the
      sinogram), so slot k+1 holds the loss of sinogram k. */
  function Trace(pr: Problem, g0: NdArray, n: nat): (run: Run)
    requires WellPosed(pr) && Fits(pr, g0)
    ensures |run.sinograms| == n + 1 && |run.losses| == n + 1
    ensures forall k :: 0 <= k <= n ==>
              Fits(pr, run.sinograms[k]) && run.sinograms[k].shape == [Product(pr.projector.sinoShape)]
    decreases n
  {
    if n == 0 then
      Run([Flatten(pr, g0)], [Loss(pr, Derive(pr, g0))])
    else
      var before := Trace(pr, g0, n - 1);
      var g := before.sinograms[n - 1];
      var d := Derive(pr, g);
      Run(before.sinograms + [Step(pr, g, d, before.losses[n - 1])],
          before.losses + [Loss(pr, d)])
  }

  /** One more iteration appends one step and the loss of the sinogram it
      started from. */
  lemma TraceNext(pr: Problem, g0: NdArray, n: nat)
    // bound to `ok` so the conjunction is one proof goal, not one per conjunct
    requires var ok := WellPosed(pr) && Fits(pr, g0); ok
    ensures var before := Trace(pr, g0, n);
            var g := before.sinograms[n];
            Trace(pr, g0, n + 1)
            == Run(before.sinograms + [Step(pr, g, Derive(pr, g), before.losses[n])],
                   before.losses + [Loss(pr, Derive(pr, g))])
  {
  }

  /** One more iteration only appends to a run. */
  lemma TraceExtends(pr: Problem, g0: NdArray, m: nat)
    requires WellPosed(pr) && Fits(pr, g0)
    ensures Trace(pr, g0, m).sinograms == Trace(pr, g0, m + 1).sinograms[..m + 1]
    ensures Trace(pr, g0, m).losses == Trace(pr, g0, m + 1).losses[..m + 1]
  {
  }

  /** A shorter run is a prefix of a longer one. */
  lemma {:induction false} TracePrefix(pr: Problem, g0: NdArray, m: nat, n: nat)
    requires WellPosed(pr) && Fits(pr, g0) && m <= n
    ensures Trace(pr, g0, m).sinograms == Trace(pr, g0, n).sinograms[..m + 1]
    ensures Trace(pr, g0, m).losses == Trace(pr, g0, n).losses[..m + 1]
    decreases n - m
  {
    if m < n {
      TracePrefix(pr, g0, m + 1, n);
      TraceExtends(pr, g0, m);
      SlicesCompose(Trace(pr, g0, n).sinograms, m + 1, m + 2);
      SlicesCompose(Trace(pr, g0, n).losses, m + 1, m + 2);
    }
  }

  lemma SlicesCompose<T>(s: seq<T>, i: nat, j: nat)
    requires i <= j <= |s|
    ensures s[..j][..i] == s[..i]
  {
  }

  /** The sinograms of a run follow the gradient-descent recurrence: sinogram
      k+1 is the step from sinogram k, with the gradient scaled by the loss
      in slot k. */
  lemma TraceSteps(pr: Problem, g0: NdArray, n: nat, k: nat)
    requires WellPosed(pr) && Fits(pr, g0) && k < n
    ensures var run := Trace(pr, g0, n);
            run.sinograms[k + 1]
            == Step(pr, run.sinograms[k], Derive(pr, run.sinograms[k]), run.losses[k])
  {
    TracePrefix(pr, g0, k + 1, n);
  }

  /** The recorded loss lags the sinogram by one iteration: slot 0 holds the
      loss of the initial sinogram, and slot k >= 1 the loss of sinogram
      k-1, the sinogram from before step k. */
  lemma RecordedLossLags(pr: Problem, g0: NdArray, n: nat, k: nat)
    requires WellPosed(pr) && Fits(pr, g0) && k <= n
    ensures var run := Trace(pr, g0, n);
            run.losses[k] == Loss(pr, Derive(pr, run.sinograms[if k == 0 then 0 else k - 1]))
  {
    TracePrefix(pr, g0, k, n);
    if k == 0 {
      DeriveIgnoresShape(pr, g0, Trace(pr, g0, 0).sinograms[0]);
    }
  }

  /** Consequently the loss recorded after the first step repeats the
      initial loss, whatever the step did to the sinogram. */
  lemma FirstStepRepeatsInitialLoss(pr: Problem, g0: NdArray, n: nat)
    requires WellPosed(pr) && Fits(pr, g0) && n >= 1
    ensures Trace(pr, g0, n).losses[1] == Trace(pr, g0, n).losses[0]
  {
    RecordedLossLags(pr, g0, n, 0);
    RecordedLossLags(pr, g0, n, 1);
  }

  /** With `glb <= gub`, every sinogram of a run from a sinogram within the
      bounds stays within the bounds. */
  lemma TraceWithinBounds(pr: Problem, g0: NdArray, n: nat, k: nat)
    requires WellPosed(pr) && Fits(pr, g0) && k <= n && pr.glb <= pr.gub
    requires forall i :: 0 <= i < |g0.data| ==> pr.glb <= g0.data[i] <= pr.gub
    ensures var g := Trace(pr, g0, n).sinograms[k];
            forall i :: 0 <= i < |g.data| ==> pr.glb <= g.data[i] <= pr.gub
  {
    TracePrefix(pr, g0, k, n);
  }
}
