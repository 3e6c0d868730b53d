/** `BCLPNorm` and `minimizeBCLP`: the optimiser object that owns the
    derived-state cache and the performance log, and runs gradient descent. */
module Bclp {
  import opened Optional
  import opened SinogramShape
  import opened Constraints
  import opened BclpSpec
  import opened PerfLog

  /** `options.verbose`: only printing and plotting depend on it. */
  datatype Verbose = Quiet | Time | Plot

  /** The options the optimiser reads (`optim_alg` is stored but never used). */
  datatype Options = Options(
    nIter: nat,
    responseModel: ResponseModel,
    eps: real,
    weight: seq<real>,
    p: real,
    q: real,
    learningRate: real,
    blb: real,
    bub: real,
    bitDepth: Option<nat>,
    filter: string,
    verbose: Verbose)

  /** The collaborators the optimiser calls but whose code is not modelled:
      the projector built for the two geometries, `util.data.filterSinogram`,
      `util.data.discretize` and numpy's real power. */
  datatype Externals = Externals(
    projector: Projector,
    filterSinogram: (NdArray, string) -> NdArray,
    discretize: Discretizer,
    pow: (real, real) -> real)

  /** The fields `BCLPNorm.__init__` copies out of its arguments. */
  function ProblemOf(opts: Options, targetArray: seq<real>, nAngles: nat, ext: Externals): (pr: Problem)
    ensures pr.glb == opts.blb && pr.gub == opts.bub  // the band options are renamed
    ensures pr.target == targetArray && pr.weight == opts.weight && pr.nAngles == nAngles
    ensures pr.eps == opts.eps && pr.p == opts.p && pr.q == opts.q
    ensures pr.learningRate == opts.learningRate && pr.bitDepth == opts.bitDepth
    ensures pr.response == opts.responseModel && pr.projector == ext.projector
  {
    Problem(ext.projector, opts.responseModel, ext.filterSinogram, opts.filter, ext.discretize, ext.pow,
            targetArray, opts.weight, opts.eps, opts.p, opts.q, opts.learningRate,
            opts.blb, opts.bub, opts.bitDepth, nAngles)
  }

  class BclpNorm {
    const pr: Problem
    const verbose: Verbose
    const logs: LogPerf
    const g0: NdArray
    const g0Shape: seq<nat>

    // State variables, in the order of computation, and the iteration each
    // was last computed at.
    var dose: seq<real>
    var mappedDose: seq<real>
    var errorFromTarget: seq<real>
    var errorFromBand: seq<real>
    var v: seq<bool>
    var doseIter: int
    var mappedDoseIter: int
    var errorFromTargetIter: int
    var errorFromBandIter: int
    var vIter: int

    /** The sinogram the cached quantities were derived from. */
    ghost var cachedFrom: NdArray

    function Cache(): Derived
      reads this
    {
      Derived(dose, mappedDose, errorFromTarget, errorFromBand, v)
    }

    /** The iteration stamp shared by the five cached quantities. */
    function Stamp(): int
      reads this
    {
      doseIter
    }

    /** What never changes after construction: well-posed collaborators and
        options, and the initial sinogram in the projector's native shape. */
    ghost predicate Wired()
    {
      && WellPosed(pr)
      && g0Shape == pr.projector.sinoShape
      && Fits(pr, g0) && g0.shape == g0Shape
    }

    /** The five stamps move together and never run ahead of the log's
        counter; once stamped, the cache holds exactly the quantities derived
        from one canonical sinogram. */
    ghost predicate Valid()
      reads this, logs
    {
      logs.Valid() && CacheValid()
    }

    ghost predicate CacheValid()
      reads this, logs
    {
      && Wired()
      && mappedDoseIter == doseIter && errorFromTargetIter == doseIter
      && errorFromBandIter == doseIter && vIter == doseIter
      && -1 <= doseIter <= logs.currIter
      && (doseIter >= 0 ==> Fits(pr, cachedFrom) && Cache() == Derive(pr, cachedFrom))
    }

    /** What `updateVariables(g)` leaves behind: every stamp at the current
        iteration; the cache untouched if it was already stamped with it, and
        otherwise derived from `g`. */
    twostate predicate Refreshed(g: NdArray)
      reads this, logs
    {
      && Stamp() == logs.currIter
      && Stamp() >= old(Stamp())
      && (old(doseIter) == logs.currIter ==> unchanged(this))
      && (old(doseIter) != logs.currIter ==> cachedFrom == g)
    }

    /** `BCLPNorm.__init__`: start the log and its clock at `tStart`, compute
        the initial sinogram, record its loss as iteration 0 and close
        iteration 0 at clock reading `tInit`. */
    constructor (opts: Options, targetArray: seq<real>, nAngles: nat, ext: Externals, tStart: real, tInit: real)
      requires WellPosed(ProblemOf(opts, targetArray, nAngles, ext))
      ensures Valid() && fresh(logs) && fresh(logs.loss) && fresh(logs.iterTimes)
      ensures pr == ProblemOf(opts, targetArray, nAngles, ext) && verbose == opts.verbose
      ensures g0 == InitialSinogram(pr) && logs.nIter == opts.nIter
      ensures logs.currIter == 1 && Stamp() == 0 && cachedFrom == g0
      ensures logs.loss[0] == Some(Loss(pr, Derive(pr, g0)))
      ensures forall k :: 1 <= k < logs.loss.Length ==> logs.loss[k] == None
      ensures logs.t0 == Some(tStart) && logs.iterTimes[0] == tInit - tStart
      ensures logs.MetricsUnset() && forall k :: 1 <= k < logs.iterTimes.Length ==> logs.iterTimes[k] == 0.0
    {
      var problem := ProblemOf(opts, targetArray, nAngles, ext);
      pr := problem;
      verbose := opts.verbose;
      var log := new LogPerf(opts.nIter);
      log.StartTiming(tStart);
      logs := log;
      dose, mappedDose, errorFromTarget, errorFromBand, v := [], [], [], [], [];
      doseIter, mappedDoseIter, errorFromTargetIter, errorFromBandIter, vIter := -1, -1, -1, -1, -1;
      // the plotting observer (verbose == 'plot') has no effect on this state
      var initial := InitialSinogram(problem);
      g0 := initial;
      g0Shape := initial.shape;
      cachedFrom := initial;
      new;
      var _ := ComputeLoss(g0);
      Callback(g0, tInit);
    }

    /** `updateVariables(g)`: recompute each stale quantity, in dependency
        order, and stamp it with the current iteration. The sinogram is read
        only when the dose is stale. */
    method UpdateVariables(g: NdArray)
      requires CacheValid()
      requires doseIter != logs.currIter ==> Fits(pr, g)
      modifies this
      ensures CacheValid() && Refreshed(g)
    {
      var c := logs.currIter;
      RefreshDose(g, c);
      RefreshMappedDose(c);
      RefreshErrorFromTarget(c);
      RefreshErrorFromBand(c);
      RefreshViolations(c);
      RefreshedChain(g);
    }

    twostate lemma RefreshedChain(g: NdArray)
      requires old(CacheValid()) && unchanged(logs)
      requires old(doseIter) != logs.currIter ==> Fits(pr, g)
      requires old(doseIter) != logs.currIter ==>
                && dose == DoseOf(pr, g) && doseIter == logs.currIter && cachedFrom == g
                && mappedDose == pr.response.doseMap(dose) && mappedDoseIter == logs.currIter
                && errorFromTarget == Minus(mappedDose, pr.target) && errorFromTargetIter == logs.currIter
                && errorFromBand == BandError(errorFromTarget, pr.eps) && errorFromBandIter == logs.currIter
                && v == Violations(errorFromBand) && vIter == logs.currIter
      requires old(doseIter) == logs.currIter ==>
                unchanged(this)
      ensures CacheValid() && Refreshed(g)
    {
      if old(doseIter) != logs.currIter {
        DeriveInOrder(pr, g, dose, mappedDose, errorFromTarget, errorFromBand, v);
      }
    }

    /** The first stage: the dose of `g`, read in the projector's native shape. */
    method RefreshDose(g: NdArray, iter: int)
      requires Wired()
      requires doseIter != iter ==> Fits(pr, g)
      modifies this`dose, this`doseIter, this`cachedFrom
      ensures old(doseIter) != iter ==> dose == DoseOf(pr, g) && doseIter == iter && cachedFrom == g
      ensures old(doseIter) == iter ==> dose == old(dose) && doseIter == iter && cachedFrom == old(cachedFrom)
    {
      if doseIter != iter {
        var cylindrical := ToCylindrical(pr, g);
        dose := Scaled(pr.projector.backward(cylindrical), TomogramScale(pr));
        doseIter := iter;
        cachedFrom := g;
      }
    }

    /** The second stage: the dose through the material response. */
    method RefreshMappedDose(iter: int)
      modifies this`mappedDose, this`mappedDoseIter
      ensures old(mappedDoseIter) != iter ==> mappedDose == pr.response.doseMap(dose) && mappedDoseIter == iter
      ensures old(mappedDoseIter) == iter ==> mappedDose == old(mappedDose) && mappedDoseIter == iter
    {
      if mappedDoseIter != iter {
        mappedDose := pr.response.doseMap(dose);
        mappedDoseIter := iter;
      }
    }

    /** The third stage: the signed distance of the mapped dose from the target. */
    method RefreshErrorFromTarget(iter: int)
      requires errorFromTargetIter != iter ==> |mappedDose| == |pr.target|
      modifies this`errorFromTarget, this`errorFromTargetIter
      ensures old(errorFromTargetIter) != iter ==>
                errorFromTarget == Minus(mappedDose, pr.target) && errorFromTargetIter == iter
      ensures old(errorFromTargetIter) == iter ==>
                errorFromTarget == old(errorFromTarget) && errorFromTargetIter == iter
    {
      if errorFromTargetIter != iter {
        errorFromTarget := Minus(mappedDose, pr.target);
        errorFromTargetIter := iter;
      }
    }

    /** The fourth stage: how far outside the tolerance band each voxel lies. */
    method RefreshErrorFromBand(iter: int)
      modifies this`errorFromBand, this`errorFromBandIter
      ensures old(errorFromBandIter) != iter ==>
                errorFromBand == BandError(errorFromTarget, pr.eps) && errorFromBandIter == iter
      ensures old(errorFromBandIter) == iter ==>
                errorFromBand == old(errorFromBand) && errorFromBandIter == iter
    {
      if errorFromBandIter != iter {
        errorFromBand := BandError(errorFromTarget, pr.eps);
        errorFromBandIter := iter;
      }
    }

    /** The last stage: the mask of voxels outside the band. */
    method RefreshViolations(iter: int)
      modifies this`v, this`vIter
      ensures old(vIter) != iter ==> v == Violations(errorFromBand) && vIter == iter
      ensures old(vIter) == iter ==> v == old(v) && vIter == iter
    {
      if vIter != iter {
        v := Violations(errorFromBand);
        vIter := iter;
      }
    }

    /** `computeLoss(g)`: the loss of the cached quantities goes into the log
        slot of the current iteration, and only there. */
    method ComputeLoss(g: NdArray) returns (loss: real)
      requires Valid() && logs.currIter <= logs.nIter
      requires doseIter != logs.currIter ==> Fits(pr, g)
      modifies this, logs.loss
      ensures Valid() && Refreshed(g)
      ensures loss == Loss(pr, Derive(pr, cachedFrom))
      ensures logs.loss[logs.currIter] == Some(loss)
      ensures forall k :: 0 <= k < logs.loss.Length && k != logs.currIter ==> logs.loss[k] == old(logs.loss[k])
    {
      UpdateVariables(g);
      var integrand := LossIntegrand(pr, Cache());
      loss := pr.pow(Sum(integrand) * Dvol, pr.q / pr.p);
      logs.loss[logs.currIter] := Some(loss);
    }

    /** The slot `loss[curr_iter - 1]` reads: Python's index -1 wraps to the last slot. */
    function PreviousLossSlot(): nat
      reads this, logs
      requires logs.Valid()
      ensures PreviousLossSlot() < logs.loss.Length
    {
      if logs.currIter >= 1 then logs.currIter - 1 else logs.loss.Length - 1
    }

    /** `computeLossGradient(g)`: the gradient of the cached quantities, scaled
        by the loss recorded one slot back. */
    method ComputeLossGradient(g: NdArray) returns (grad: NdArray)
      requires Valid()
      requires doseIter != logs.currIter ==> Fits(pr, g)
      requires logs.loss[PreviousLossSlot()].Some?
      modifies this
      ensures Valid() && Refreshed(g)
      ensures grad == LossGradient(pr, Derive(pr, cachedFrom), logs.loss[PreviousLossSlot()].value)
    {
      UpdateVariables(g);
      var operand := GradientOperand(pr, Cache());
      var previousLoss := logs.loss[PreviousLossSlot()].value;
      var projected := pr.projector.forward(operand);
      var scaled := NdArray(projected.shape, Scaled(projected.data, GradientScale(pr, previousLoss)));
      grad := CheckSinogramShape(scaled, FlattenedShape, g0Shape).value;
    }

    /** `callback(g)`: record the iteration time at clock reading `now` in the
        current slot, then advance the counter by one. Printing and the
        plotting observer change nothing modelled here. */
    method Callback(g: NdArray, now: real)
      requires Valid() && logs.currIter <= logs.nIter && logs.t0.Some?
      modifies logs, logs.iterTimes
      ensures Valid() && logs.t0 == old(logs.t0)
      ensures logs.currIter == old(logs.currIter) + 1
      ensures logs.iterTimes[old(logs.currIter)] == now - logs.t0.value
      ensures forall k :: 0 <= k < logs.iterTimes.Length && k != old(logs.currIter) ==>
                logs.iterTimes[k] == old(logs.iterTimes[k])
    {
      logs.RecordIterTime(now);
      logs.currIter := logs.currIter + 1;
    }

    /** The state the constructor leaves: iteration 0 recorded and closed. */
    ghost predicate Initialized()
      reads this, logs, logs.loss
      requires Valid()
    {
      && logs.currIter == 1 && Stamp() == 0 && cachedFrom == g0 && logs.t0.Some?
      && logs.loss[0] == Some(Loss(pr, Derive(pr, g0)))
    }

    /** After `i` iterations of `gradientDescent`: the counter, the cache and
        the loss slots follow the run of `i` iterations. */
    ghost predicate Progress(i: nat, run: Run)
      reads this, logs, logs.loss
    {
      && Valid()
      && i <= logs.nIter && logs.currIter == i + 1 && Stamp() == i
      && run == Trace(pr, g0, i)
      && cachedFrom == (if i == 0 then g0 else run.sinograms[i - 1])
      && forall k :: 0 <= k <= i ==> logs.loss[k] == Some(run.losses[k])
    }

    /** After `i` iterations begun at `t0`, slot k (0 <= k <= i) of the
        iteration times holds the clock reading `times[k]` less `t0`. */
    ghost predicate Timed(i: nat, times: seq<real>, t0: real)
      reads logs, logs.iterTimes
    {
      && logs.t0 == Some(t0) && i < |times| && i < logs.iterTimes.Length
      && forall k :: 0 <= k <= i ==> logs.iterTimes[k] == times[k] - t0
    }

    /** One pass of `Iterate` takes the progress of `i` iterations to that of `i + 1`. */
    twostate lemma ProgressStep(new i: nat, new before: Run, new g: NdArray, new previous: real, new next: NdArray)
      returns (after: Run)
      requires old(Progress(i, before)) && i < logs.nIter && g == before.sinograms[i]
      requires Valid() && logs.currIter == old(logs.currIter) + 1 && Stamp() == old(logs.currIter)
      requires cachedFrom == g && old(logs.loss[logs.currIter - 1]) == Some(previous)
      requires next == Step(pr, g, Derive(pr, g), previous)
      requires logs.loss[old(logs.currIter)] == Some(Loss(pr, Derive(pr, g)))
      requires forall k :: 0 <= k < logs.loss.Length && k != old(logs.currIter) ==>
                 logs.loss[k] == old(logs.loss[k])
      ensures Progress(i + 1, after) && next == after.sinograms[i + 1]
    {
      TraceNext(pr, g0, i);
      after := Trace(pr, g0, i + 1);
    }

    /** The constructor's state is the progress of zero iterations. */
    lemma ProgressStart(times: seq<real>) returns (run: Run)
      // bound to `ok` so the conjunction is one proof goal, not one per conjunct
      requires var ok := Valid() && Initialized(); ok
      requires |times| >= 1 && logs.iterTimes[0] == times[0] - logs.t0.value
      // bound to `ok` so the conjunction is one proof goal, not one per conjunct
      ensures var ok := Progress(0, run) && Timed(0, times, logs.t0.value); ok
      ensures run.sinograms[0] == CheckSinogramShape(g0, FlattenedShape, g0Shape).value
    {
      run := Trace(pr, g0, 0);
    }

    /** Closing iteration `i + 1` at clock reading `times[i + 1]` extends the
        recorded times by that slot. */
    twostate lemma TimedStep(new i: nat, new times: seq<real>, new t0: real)
      requires old(Timed(i, times, t0)) && i + 1 < |times| && i + 1 < logs.iterTimes.Length
      requires logs.t0 == old(logs.t0) && logs.iterTimes[i + 1] == times[i + 1] - t0
      requires forall k :: 0 <= k < logs.iterTimes.Length && k != i + 1 ==>
                 logs.iterTimes[k] == old(logs.iterTimes[k])
      ensures Timed(i + 1, times, t0)
    {
    }

    /** The state `gradientDescent` leaves, slot by slot: the loss of every
        slot, the time of every slot after the first, and the cached dose,
        which is that of the last sinogram a gradient was taken at. */
    lemma Finished(times: seq<real>, t0: real, run: Run)
      // bound to `ok` so the conjunction is one proof goal, not one per conjunct
      requires var ok := Progress(logs.nIter, run) && Timed(logs.nIter, times, t0); ok
      ensures var n := logs.nIter;
              && logs.currIter == n + 1 && logs.loss.Length == n + 1 && logs.iterTimes.Length == n + 1
              && (forall k :: 0 <= k <= n ==> logs.loss[k] == Some(run.losses[k]))
              && (forall k :: 0 <= k <= n ==> logs.iterTimes[k] == times[k] - t0)
              && dose == Derive(pr, run.sinograms[if n == 0 then 0 else n - 1]).dose
    {
      if logs.nIter == 0 {
        DeriveIgnoresShape(pr, g0, run.sinograms[0]);
      }
    }

    /** The first half of a loop pass: the gradient at `g` (which refreshes
        the stale cache from `g`) scaled by the loss `previous` of the slot
        before the current one, the step and the constraints. */
    method GradientStep(g: NdArray, ghost previous: real) returns (next: NdArray)
      requires Valid() && Fits(pr, g) && g.shape == [Product(pr.projector.sinoShape)]
      requires Stamp() < logs.currIter && 1 <= logs.currIter
      requires logs.loss[logs.currIter - 1] == Some(previous)
      modifies this
      ensures Valid() && Stamp() == logs.currIter && cachedFrom == g
      ensures next == Step(pr, g, Derive(pr, g), previous)
    {
      var grad := ComputeLossGradient(g);
      var stepped := Descend(g, grad, pr.learningRate);
      next := ImposeSinogramConstraints(stepped, pr.bitDepth, pr.glb, pr.gub, pr.discretize);
    }

    /** One pass of the loop body of `gradientDescent`, the `i + 1`-th,
        closed at clock reading `times[i + 1]`: the gradient at `g` (which
        refreshes the cache from `g`), the step, the constraints, the loss
        into the current slot and the callback. */
    method Iterate(g: NdArray, times: seq<real>, i: nat, ghost run: Run, ghost t0: real)
      returns (next: NdArray, ghost after: Run)
      // bound to `ok` so the conjunction is one proof goal, not one per conjunct
      requires var ok := Progress(i, run) && Timed(i, times, t0); ok
      requires g == run.sinograms[i]
      requires i < logs.nIter && i + 1 < |times|
      modifies this, logs, logs.loss, logs.iterTimes
      // bound to `ok` so the conjunction is one proof goal, not one per conjunct
      ensures var ok := Progress(i + 1, after) && Timed(i + 1, times, t0); ok
      ensures next == after.sinograms[i + 1]
    {
      ghost var previous := logs.loss[logs.currIter - 1].value;
      next := GradientStep(g, previous);
      var _ := ComputeLoss(next);
      Callback(next, times[i + 1]);
      after := ProgressStep(i, run, g, previous, next);
      TimedStep(i, times, t0);
    }

    /** `gradientDescent()`: exactly `n_iter` iterations of gradient step,
        constraints, loss and callback, the k-th closed at clock reading
        `times[k]`. The sinogram, the loss slots and the cache follow
        `Trace`; the loss recorded in slot k >= 1 is that of the sinogram
        from before step k (see `RecordedLossLags`), and the cached dose is
        that of the sinogram from before the last step. */
    method GradientDescent(times: seq<real>) returns (g: NdArray, ghost run: Run)
      requires Valid() && Initialized() && |times| == logs.nIter + 1
      requires logs.iterTimes[0] == times[0] - logs.t0.value
      modifies this, logs, logs.loss, logs.iterTimes
      ensures Valid() && logs.t0 == old(logs.t0)
      ensures run == Trace(pr, g0, logs.nIter) && g == run.sinograms[logs.nIter]
      ensures WellFormed(g) && |g.shape| == 1
      ensures var n := logs.nIter;
              && logs.currIter == n + 1 && logs.loss.Length == n + 1 && logs.iterTimes.Length == n + 1
              && (forall k :: 0 <= k <= n ==> logs.loss[k] == Some(run.losses[k]))
              && (forall k :: 0 <= k <= n ==> logs.iterTimes[k] == times[k] - logs.t0.value)
              && dose == Derive(pr, run.sinograms[if n == 0 then 0 else n - 1]).dose
    {
      g := CheckSinogramShape(g0, FlattenedShape, g0Shape).value;
      var i := 0;
      ghost var t0 := logs.t0.value;
      run := ProgressStart(times);
      while i < logs.nIter
        // bound to `ok` so the conjunction is one proof goal, not one per conjunct
        invariant var ok := Progress(i, run) && Timed(i, times, t0); ok
        invariant g == run.sinograms[i] && i <= logs.nIter
      {
        g, run := Iterate(g, times, i, run, t0);
        i := i + 1;
      }
      Finished(times, t0, run);
    }
  }

  /** `minimizeBCLP`: build the optimiser, run it, and return the sinogram,
      the dose the cache holds and the log. The final `checkSinogramShape`
      uses its default `"flattened"`, so the sinogram comes back flattened;
      the dose is the one cached by the last gradient evaluation, i.e. of the
      sinogram from before the last step. The ghost `run` names the run of
      `Trace` the results are stated against; the log's norm arrays and `ver`
      come back unset. */
  method MinimizeBclp(opts: Options, targetArray: seq<real>, nAngles: nat, ext: Externals,
                      tStart: real, times: seq<real>)
    returns (gOpt: NdArray, dose: seq<real>, logs: LogPerf, ghost run: Run)
    requires WellPosed(ProblemOf(opts, targetArray, nAngles, ext)) && |times| == opts.nIter + 1
    ensures var pr := ProblemOf(opts, targetArray, nAngles, ext);
            run == Trace(pr, InitialSinogram(pr), opts.nIter)
    ensures gOpt == run.sinograms[opts.nIter] && |gOpt.shape| == 1
    ensures dose == Derive(ProblemOf(opts, targetArray, nAngles, ext),
                           run.sinograms[if opts.nIter == 0 then 0 else opts.nIter - 1]).dose
    ensures logs.nIter == opts.nIter && logs.currIter == opts.nIter + 1
    ensures logs.loss.Length == opts.nIter + 1 && logs.iterTimes.Length == opts.nIter + 1
    ensures forall k :: 0 <= k <= opts.nIter ==> logs.loss[k] == Some(run.losses[k])
    ensures logs.t0 == Some(tStart)
    ensures forall k :: 0 <= k <= opts.nIter ==> logs.iterTimes[k] == times[k] - tStart
    ensures logs.Valid() && logs.MetricsUnset()
  {
    var bclp := new BclpNorm(opts, targetArray, nAngles, ext, tStart, times[0]);
    gOpt, run := bclp.GradientDescent(times);
    gOpt := CheckSinogramShape(gOpt, FlattenedShape, bclp.g0Shape).value;
    dose := bclp.dose;
    logs := bclp.logs;
  }
}
