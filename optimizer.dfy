/**
  The configuration surface shared by the spectral optimizers: the stop-condition
  codes, the convergence monitor's sample history, and the optimizer's settings
  with their setters (the macro-generated ones and the inline scalar "fill" ones).
*/
module Optimizer {
  import opened Exceptions

  /** Why an optimization run ended. */
  datatype StopConditionType =
    | MaximumNumberOfIterations
    | CostFunctionError
    | UpdateParametersError
    | StepTooSmall
    | QuasiNewtonStepError
    | ConvergenceCheckerPassed
    | OtherError

  /** The enumerator's integer value, in declaration order. */
  function Code(c: StopConditionType): (k: nat)
    ensures k < 7
  {
    match c
    case MaximumNumberOfIterations => 0
    case CostFunctionError => 1
    case UpdateParametersError => 2
    case StepTooSmall => 3
    case QuasiNewtonStepError => 4
    case ConvergenceCheckerPassed => 5
    case OtherError => 6
  }

  /** The enumerator with a given integer value. */
  function FromCode(k: nat): (c: StopConditionType)
    requires k < 7
    ensures Code(c) == k
  {
    if k == 0 then MaximumNumberOfIterations
    else if k == 1 then CostFunctionError
    else if k == 2 then UpdateParametersError
    else if k == 3 then StepTooSmall
    else if k == 4 then QuasiNewtonStepError
    else if k == 5 then ConvergenceCheckerPassed
    else OtherError
  }

  /** The seven stop conditions have pairwise-distinct codes, and every code 0..6 is one of them. */
  lemma CodesDistinct(a: StopConditionType, b: StopConditionType)
    ensures Code(a) == Code(b) <==> a == b
    ensures FromCode(Code(a)) == a
  {
    match a
    case MaximumNumberOfIterations =>
    case CostFunctionError =>
    case UpdateParametersError =>
    case StepTooSmall =>
    case QuasiNewtonStepError =>
    case ConvergenceCheckerPassed =>
    case OtherError =>
  }

  /** The parts of the stop-condition description, in the order they are written. */
  datatype Note =
    | NameOfClass
    | EnergyErrorNote
    | StoppedExternallyNote
    | ConvergencePassedNote(iteration: nat)
    | MaximumIterationsNote(limit: nat)
    | UpdateErrorNote

  /** The convergence monitor: its window size and every energy value it was given. */
  datatype ConvergenceMonitor = ConvergenceMonitor(windowSize: nat, energyValues: seq<real>)

  function AddEnergyValue(m: ConvergenceMonitor, e: real): (m': ConvergenceMonitor)
    ensures m'.windowSize == m.windowSize && m'.energyValues == m.energyValues + [e]
  {
    m.(energyValues := m.energyValues + [e])
  }

  /** A vector of `n` copies of `v` (the effect of Fill on a fixed-size vector). */
  function Filled<T>(n: nat, v: T): (r: seq<T>)
    ensures |r| == n && forall i :: 0 <= i < n ==> r[i] == v
  {
    seq(n, _ => v)
  }

  const SizeLimit: int := 0x1_0000_0000_0000_0000

  /**
    Conversion of a double to an unsigned 64-bit size: truncation toward zero,
    defined for values strictly between -1 and 2^64.
  */
  function SizeFromDouble(val: real): (n: nat)
    requires -1.0 < val < SizeLimit as real
    ensures 0.0 <= val ==> n as real <= val < n as real + 1.0
    ensures val < 0.0 ==> n == 0
    ensures n < SizeLimit
  {
    if val < 0.0 then 0 else val.Floor
  }

  class SpectralOptimizer {
    /** Number of spatial dimensions of the functional. */
    const dim: nat

    var learningRate: real
    var minimumConvergenceValue: real
    var convergenceWindowSize: nat
    var convergenceValue: real
    var convergenceMonitoring: Option<ConvergenceMonitor>

    var stop: bool
    var stopCondition: StopConditionType
    var stopConditionDescription: seq<Note>
    var currentIteration: nat
    var numberOfIterations: nat

    var gridSize: seq<nat>
    var stepSize: real
    var alpha: seq<real>
    var beta: seq<real>

    /** Modification time stamp; `Modified()` advances it. */
    var mTime: nat

    ghost predicate Valid()
      reads this
    {
      |alpha| == dim && |beta| == dim && |gridSize| == dim
    }

    constructor (dim: nat)
      ensures Valid() && this.dim == dim
      ensures convergenceMonitoring == None && !stop && currentIteration == 0
      ensures stopConditionDescription == [] && mTime == 0
    {
      this.dim := dim;
      learningRate := 0.0;
      minimumConvergenceValue := 0.0;
      convergenceWindowSize := 0;
      convergenceValue := 0.0;
      convergenceMonitoring := None;
      stop := false;
      stopCondition := MaximumNumberOfIterations;
      stopConditionDescription := [];
      currentIteration := 0;
      numberOfIterations := 0;
      gridSize := Filled(dim, 0);
      stepSize := 0.0;
      alpha := Filled(dim, 0.0);
      beta := Filled(dim, 0.0);
      mTime := 0;
    }

    /** Broadcasts `v` to every axis of Alpha and marks the optimizer modified. */
    method SetAlpha(v: real)
      requires Valid()
      modifies this`alpha, this`mTime
      ensures Valid()
      ensures alpha == Filled(dim, v)
      ensures mTime == old(mTime) + 1
    {
      alpha := Filled(dim, v);
      mTime := mTime + 1;
    }

    /** Broadcasts `v` to every axis of Beta and marks the optimizer modified. */
    method SetBeta(v: real)
      requires Valid()
      modifies this`beta, this`mTime
      ensures Valid()
      ensures beta == Filled(dim, v)
      ensures mTime == old(mTime) + 1
    {
      beta := Filled(dim, v);
      mTime := mTime + 1;
    }

    /**
      Broadcasts the size-converted `val` to every axis of GridSize. Unlike the
      Alpha and Beta fills, it leaves the modification time alone.
    */
    method SetGridSize(val: real)
      requires Valid()
      requires -1.0 < val < SizeLimit as real
      modifies this`gridSize
      ensures Valid()
      ensures gridSize == Filled(dim, SizeFromDouble(val))
    {
      gridSize := Filled(dim, SizeFromDouble(val));
    }

    // Macro-generated setters: they store the argument and call Modified() only
    // when the argument differs from the stored value.

    method SetAlphaVector(v: seq<real>)
      requires Valid() && |v| == dim
      modifies this`alpha, this`mTime
      ensures Valid() && alpha == v
      ensures mTime == if v == old(alpha) then old(mTime) else old(mTime) + 1
    {
      if alpha != v {
        alpha := v;
        mTime := mTime + 1;
      }
    }

    method SetBetaVector(v: seq<real>)
      requires Valid() && |v| == dim
      modifies this`beta, this`mTime
      ensures Valid() && beta == v
      ensures mTime == if v == old(beta) then old(mTime) else old(mTime) + 1
    {
      if beta != v {
        beta := v;
        mTime := mTime + 1;
      }
    }

    method SetGridSizeVector(v: seq<nat>)
      requires Valid() && |v| == dim
      modifies this`gridSize, this`mTime
      ensures Valid() && gridSize == v
      ensures mTime == if v == old(gridSize) then old(mTime) else old(mTime) + 1
    {
      if gridSize != v {
        gridSize := v;
        mTime := mTime + 1;
      }
    }

    method SetStepSize(v: real)
      modifies this`stepSize, this`mTime
      ensures stepSize == v
      ensures mTime == if v == old(stepSize) then old(mTime) else old(mTime) + 1
    {
      if stepSize != v {
        stepSize := v;
        mTime := mTime + 1;
      }
    }

    method SetNumberOfIterations(n: nat)
      modifies this`numberOfIterations, this`mTime
      ensures numberOfIterations == n
      ensures mTime == if n == old(numberOfIterations) then old(mTime) else old(mTime) + 1
    {
      if numberOfIterations != n {
        numberOfIterations := n;
        mTime := mTime + 1;
      }
    }

    method SetLearningRate(v: real)
      modifies this`learningRate, this`mTime
      ensures learningRate == v
      ensures mTime == if v == old(learningRate) then old(mTime) else old(mTime) + 1
    {
      if learningRate != v {
        learningRate := v;
        mTime := mTime + 1;
      }
    }

    method SetMinimumConvergenceValue(v: real)
      modifies this`minimumConvergenceValue, this`mTime
      ensures minimumConvergenceValue == v
      ensures mTime == if v == old(minimumConvergenceValue) then old(mTime) else old(mTime) + 1
    {
      if minimumConvergenceValue != v {
        minimumConvergenceValue := v;
        mTime := mTime + 1;
      }
    }

    method SetConvergenceWindowSize(n: nat)
      modifies this`convergenceWindowSize, this`mTime
      ensures convergenceWindowSize == n
      ensures mTime == if n == old(convergenceWindowSize) then old(mTime) else old(mTime) + 1
    {
      if convergenceWindowSize != n {
        convergenceWindowSize := n;
        mTime := mTime + 1;
      }
    }
  }

  /**
    One call sequence: fill Alpha, set StepSize, fill Beta, fill GridSize, set
    NumberOfIterations. Every getter (a field read) then returns what its own
    setter stored, although other setters ran after it. The two scalar fills
    mark the object modified once each, the GridSize fill not at all, and each
    macro setter only when its value changes.
  */
  method SettersKeepTheirValues(opt: SpectralOptimizer, a: real, b: real, g: real, tau: real, n: nat)
    requires opt.Valid() && -1.0 < g < SizeLimit as real
    modifies opt`alpha, opt`beta, opt`gridSize, opt`stepSize, opt`numberOfIterations, opt`mTime
    ensures opt.alpha == Filled(opt.dim, a) && opt.beta == Filled(opt.dim, b)
    ensures opt.gridSize == Filled(opt.dim, SizeFromDouble(g))
    ensures opt.stepSize == tau && opt.numberOfIterations == n
    ensures opt.mTime == old(opt.mTime) + 2
                         + (if tau != old(opt.stepSize) then 1 else 0)
                         + (if n != old(opt.numberOfIterations) then 1 else 0)
  {
    opt.SetAlpha(a);
    opt.SetStepSize(tau);
    opt.SetBeta(b);
    opt.SetGridSize(g);
    opt.SetNumberOfIterations(n);
  }
}
