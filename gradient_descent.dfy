/**
  The gradient-descent energy optimizer: its defaults, Start, the Resume control
  loop and the Iterate step. The energy functional, the convergence monitor's
  value, the gradient hooks and a Stop() issued by another thread are oracles
  gathered in an Environment; what remains is the stop-condition state machine.
*/
module GradientDescent {
  import opened Exceptions
  import opened Optimizer

  /**
    An exception raised by a collaborator: an ITK exception object, which the
    loop's two catch sites handle, or an exception of any other type, which they
    let through.
  */
  datatype Exception = ItkException(description: string) | OtherException(description: string)

  /** What the functional reports at the current parameters. */
  datatype Evaluation = Evaluation(value: real, derivative: seq<real>)

  /** The collaborators the loop consults, each as a function that may raise. */
  datatype Environment = Environment(
    /** The functional's energy and derivative at the given parameters. */
    getValueAndDerivative: seq<real> -> Result<Evaluation, Exception>,
    /** The functional's new parameters after applying an update. */
    updateTransformParameters: (seq<real>, seq<real>) -> Result<seq<real>, Exception>,
    /** Whether Stop() is called from elsewhere while the energy is evaluated at the given iteration. */
    stopRequestedDuring: nat -> bool,
    /** The monitor's convergence value for a window size and the energies added so far. */
    convergenceValue: (nat, seq<real>) -> Result<real, Exception>,
    /** Division of the gradient by the parameter scales. */
    modifyGradientByScales: seq<real> -> Result<seq<real>, Exception>,
    /**
      The learning rate to use, from the current iteration, the maximum step in
      physical units, the scaled gradient and the current rate.
    */
    estimateLearningRate: (nat, real, seq<real>, real) -> Result<real, Exception>,
    /** The gradient multiplied by the learning rate. */
    modifyGradientByLearningRate: (seq<real>, real) -> Result<seq<real>, Exception>)

  /** The optimizer state the loop reads and writes, including the functional's parameters. */
  datatype Snapshot = Snapshot(
    stop: bool,
    stopCondition: StopConditionType,
    description: seq<Note>,
    currentIteration: nat,
    numberOfIterations: nat,
    minimumConvergenceValue: real,
    convergenceWindowSize: nat,
    monitor: Option<ConvergenceMonitor>,
    convergenceValue: real,
    learningRate: real,
    maximumStepSizeInPhysicalUnits: real,
    currentEnergyValue: real,
    gradient: seq<real>,
    parameters: seq<real>)

  /** A state reached by the loop and whether the step raised an exception on its way there. */
  datatype Step = Step(state: Snapshot, outcome: Outcome<Exception>)

  /** The fields that no step of the loop changes. */
  ghost predicate Settled(s: Snapshot, t: Snapshot) {
    && t.numberOfIterations == s.numberOfIterations
    && t.minimumConvergenceValue == s.minimumConvergenceValue
    && t.convergenceWindowSize == s.convergenceWindowSize
    && t.maximumStepSizeInPhysicalUnits == s.maximumStepSizeInPhysicalUnits
  }

  /**
    The three gradient hooks of Iterate, in their order: divide by the scales,
    estimate the learning rate from the scaled gradient, multiply by that rate.
    None of them is guarded, so an exception escapes with the effects of the
    hooks that completed before it; only the gradient and the rate change.
  */
  function ModifyGradient(env: Environment, s: Snapshot): (r: Step)
    ensures r.state == s.(gradient := r.state.gradient, learningRate := r.state.learningRate)
  {
    match env.modifyGradientByScales(s.gradient)
    case Err(e) => Step(s, Throw(e))
    case Ok(scaled) =>
      var s1 := s.(gradient := scaled);
      match env.estimateLearningRate(s.currentIteration, s.maximumStepSizeInPhysicalUnits, scaled, s.learningRate)
      case Err(e) => Step(s1, Throw(e))
      case Ok(rate) =>
        var s2 := s1.(learningRate := rate);
        match env.modifyGradientByLearningRate(scaled, rate)
        case Err(e) => Step(s2, Throw(e))
        case Ok(stepped) => Step(s2.(gradient := stepped), Pass)
  }

  /** The gradient hooks completed and the update then raised an ITK exception: the one failure Iterate catches. */
  predicate UpdateCaught(env: Environment, s: Snapshot) {
    var m := ModifyGradient(env, s);
    && m.outcome.Pass?
    && var u := env.updateTransformParameters(s.parameters, m.state.gradient);
    && u.Err? && u.error.ItkException?
  }

  /**
    Iterate: the gradient hooks, then the functional's update. It passes exactly
    when every hook and the update succeed. A caught update failure stops with
    UPDATE_PARAMETERS_ERROR and rethrows; any other exception escapes leaving
    the stop flag, the stop condition and the description as they were.
  */
  function IterateStep(env: Environment, s: Snapshot): (r: Step)
    ensures Settled(s, r.state) && r.state.monitor == s.monitor
    ensures r.state.currentIteration == s.currentIteration
    ensures r.outcome.Pass? <==>
      ModifyGradient(env, s).outcome.Pass? &&
      env.updateTransformParameters(s.parameters, ModifyGradient(env, s).state.gradient).Ok?
    ensures UpdateCaught(env, s) ==>
      && r.outcome.Throw? && r.outcome.error.ItkException? && r.state.stop
      && r.state.stopCondition == UpdateParametersError
      && r.state.description == s.description + [UpdateErrorNote]
    ensures !UpdateCaught(env, s) ==>
      r.state.stop == s.stop && r.state.stopCondition == s.stopCondition && r.state.description == s.description
  {
    var m := ModifyGradient(env, s);
    if m.outcome.Throw? then m
    else
      var s1 := m.state;
      match env.updateTransformParameters(s.parameters, s1.gradient)
      case Err(e) =>
        if e.ItkException? then
          Step(s1.(stopCondition := UpdateParametersError,
                   description := s1.description + [UpdateErrorNote],
                   stop := true), Throw(e))
        else Step(s1, Throw(e))
      case Ok(p) => Step(s1.(parameters := p), Pass)
  }

  /** Iterate, then count the iteration and stop with MAXIMUM_NUMBER_OF_ITERATIONS at the budget. */
  function IterateAndCount(env: Environment, s: Snapshot): (r: Step)
    requires !s.stop
    ensures Settled(s, r.state) && r.state.monitor == s.monitor
  {
    var it := IterateStep(env, s);
    if it.outcome.Throw? then it
    else
      var s1 := it.state.(currentIteration := it.state.currentIteration + 1);
      if s1.currentIteration >= s1.numberOfIterations then
        Step(s1.(description := s1.description + [MaximumIterationsNote(s1.numberOfIterations)],
                 stopCondition := MaximumNumberOfIterations,
                 stop := true), Pass)
      else Step(s1, Pass)
  }

  /** Feed the energy to the monitor; pass the threshold, or go on to Iterate (also when the monitor fails). */
  function CheckConvergence(env: Environment, s: Snapshot): (r: Step)
    requires !s.stop && s.monitor.Some?
    ensures Settled(s, r.state) && r.state.monitor.Some?
  {
    var m := AddEnergyValue(s.monitor.value, s.currentEnergyValue);
    var s1 := s.(monitor := Some(m));
    match env.convergenceValue(m.windowSize, m.energyValues)
    case Ok(cv) =>
      var s2 := s1.(convergenceValue := cv);
      if cv <= s.minimumConvergenceValue then
        Step(s2.(description := s2.description + [ConvergencePassedNote(s2.currentIteration)],
                 stopCondition := ConvergenceCheckerPassed,
                 stop := true), Pass)
      else IterateAndCount(env, s2)
    case Err(_) => IterateAndCount(env, s1)
  }

  /**
    One pass of the `while (!m_Stop)` loop. A pass that neither stops nor raises
    has counted exactly one iteration and is still below the budget. A pass that
    does not stop leaves the stop condition and the description as they were,
    also when an exception escapes it.
  */
  function OnePass(env: Environment, s: Snapshot): (r: Step)
    requires !s.stop && s.monitor.Some?
    ensures Settled(s, r.state) && r.state.monitor.Some?
    ensures !r.state.stop ==> r.state.stopCondition == s.stopCondition && r.state.description == s.description
    ensures !r.state.stop && r.outcome.Pass? ==>
      r.state.currentIteration == s.currentIteration + 1 < s.numberOfIterations
    ensures s.currentIteration <= r.state.currentIteration <= s.currentIteration + 1
  {
    match env.getValueAndDerivative(s.parameters)
    case Err(e) =>
      if e.ItkException? then
        Step(s.(stopCondition := CostFunctionError,
                description := s.description + [EnergyErrorNote],
                stop := true), Throw(e))
      else Step(s, Throw(e))
    case Ok(ev) =>
      var s1 := s.(currentEnergyValue := ev.value, gradient := ev.derivative,
                   stop := env.stopRequestedDuring(s.currentIteration));
      if s1.stop then Step(s1.(description := s1.description + [StoppedExternallyNote]), Pass)
      else CheckConvergence(env, s1)
  }

  function Budget(s: Snapshot): nat {
    if s.currentIteration < s.numberOfIterations then s.numberOfIterations - s.currentIteration else 0
  }

  /** The loop run from `s` until a pass stops it or an exception leaves it. */
  function Run(env: Environment, s: Snapshot): (r: Step)
    requires !s.stop && s.monitor.Some?
    ensures (r.state.stop || r.outcome.Throw?) && r.state.monitor.Some? && Settled(s, r.state)
    decreases Budget(s)
  {
    var p := OnePass(env, s);
    if p.state.stop || p.outcome.Throw? then p else Run(env, p.state)
  }

  /** Resume: restart the description, clear the stop flag, run the loop. */
  function ResumeRun(env: Environment, s: Snapshot): Step
    requires s.monitor.Some?
  {
    Run(env, s.(description := [NameOfClass], stop := false))
  }

  /** Start: a fresh monitor with the configured window, iteration counter 0, then Resume. */
  function StartRun(env: Environment, s: Snapshot): Step {
    ResumeRun(env, s.(monitor := Some(ConvergenceMonitor(s.convergenceWindowSize, [])), currentIteration := 0))
  }

  /** A run whose first pass stops or raises is that pass. */
  lemma RunStopsWithPass(env: Environment, s: Snapshot)
    requires !s.stop && s.monitor.Some?
    requires OnePass(env, s).state.stop || OnePass(env, s).outcome.Throw?
    ensures Run(env, s) == OnePass(env, s)
  {}

  function MaxNat(a: nat, b: nat): nat { if a < b then b else a }

  /** The three gradient hooks never raise. */
  ghost predicate HooksSucceed(env: Environment) {
    && (forall g :: env.modifyGradientByScales(g).Ok?)
    && (forall k, m, g, rate :: env.estimateLearningRate(k, m, g, rate).Ok?)
    && (forall g, rate :: env.modifyGradientByLearningRate(g, rate).Ok?)
  }

  /**
    Every exception the collaborators raise is one the loop catches: the gradient
    hooks never raise, and the functional raises only ITK exceptions.
  */
  ghost predicate Contained(env: Environment) {
    && HooksSucceed(env)
    && (forall p :: env.getValueAndDerivative(p).Err? ==> env.getValueAndDerivative(p).error.ItkException?)
    && (forall p, g :: env.updateTransformParameters(p, g).Err? ==>
                       env.updateTransformParameters(p, g).error.ItkException?)
  }

  /** No collaborator ever raises, nobody calls Stop(), and the threshold is never passed. */
  ghost predicate Undisturbed(env: Environment, minimum: real) {
    && HooksSucceed(env)
    && (forall p :: env.getValueAndDerivative(p).Ok?)
    && (forall k :: !env.stopRequestedDuring(k))
    && (forall w, h :: env.convergenceValue(w, h).Ok? ==> env.convergenceValue(w, h).value > minimum)
    && (forall p, g :: env.updateTransformParameters(p, g).Ok?)
  }

  /**
    Undisturbed, the loop runs from iteration k until the counter reaches
    max(k + 1, N), adding one energy value per pass, and stops with
    MAXIMUM_NUMBER_OF_ITERATIONS: the budget check follows the increment.
  */
  lemma {:induction false} RunReachesBudget(env: Environment, s: Snapshot)
    requires !s.stop && s.monitor.Some?
    requires Undisturbed(env, s.minimumConvergenceValue)
    ensures var r := Run(env, s);
      && r.outcome == Pass
      && r.state.stopCondition == MaximumNumberOfIterations
      && r.state.currentIteration == MaxNat(s.currentIteration + 1, s.numberOfIterations)
      && |r.state.monitor.value.energyValues|
         == |s.monitor.value.energyValues| + MaxNat(s.currentIteration + 1, s.numberOfIterations) - s.currentIteration
      && r.state.description == s.description + [MaximumIterationsNote(s.numberOfIterations)]
    decreases Budget(s)
  {
    var p := OnePass(env, s);
    var ev := env.getValueAndDerivative(s.parameters);
    assert ev.Ok?;
    assert !env.stopRequestedDuring(s.currentIteration);
    var s1 := s.(currentEnergyValue := ev.value.value, gradient := ev.value.derivative, stop := false);
    var m := AddEnergyValue(s1.monitor.value, s1.currentEnergyValue);
    var cv := env.convergenceValue(m.windowSize, m.energyValues);
    assert cv.Ok? ==> cv.value > s.minimumConvergenceValue;
    var s2 := if cv.Ok? then s1.(monitor := Some(m), convergenceValue := cv.value) else s1.(monitor := Some(m));
    assert p == IterateAndCount(env, s2);
    var m2 := ModifyGradient(env, s2);
    assert m2.outcome.Pass?;
    assert env.updateTransformParameters(s2.parameters, m2.state.gradient).Ok?;
    assert p.state.currentIteration == s.currentIteration + 1;
    assert |p.state.monitor.value.energyValues| == |s.monitor.value.energyValues| + 1;
    if !p.state.stop {
      RunReachesBudget(env, p.state);
    }
  }

  /**
    Undisturbed, Start ends with MAXIMUM_NUMBER_OF_ITERATIONS after exactly
    max(1, N) passes: with N = 0 the loop still iterates once.
  */
  lemma StartIteratesBudget(env: Environment, s: Snapshot)
    requires Undisturbed(env, s.minimumConvergenceValue)
    ensures var r := StartRun(env, s);
      && r.outcome == Pass
      && r.state.stopCondition == MaximumNumberOfIterations
      && r.state.currentIteration == MaxNat(1, s.numberOfIterations)
      && |r.state.monitor.value.energyValues| == MaxNat(1, s.numberOfIterations)
  {
    RunReachesBudget(env, s.(monitor := Some(ConvergenceMonitor(s.convergenceWindowSize, [])),
                            currentIteration := 0, description := [NameOfClass], stop := false));
  }

  /**
    How a run ended. A run that stopped appended exactly one note, which names
    the reason; a run that did not stop was left by an exception that no catch
    site handled, and left the stop condition and the description as they were.
  */
  ghost predicate ExitExplained(s: Snapshot, r: Step) {
    if r.state.stop then
      && |r.state.description| == |s.description| + 1
      && r.state.description[..|s.description|] == s.description
      && var last := r.state.description[|r.state.description| - 1];
      && (last == EnergyErrorNote ==>
            r.outcome.Throw? && r.outcome.error.ItkException? && r.state.stopCondition == CostFunctionError)
      && (last == UpdateErrorNote ==>
            r.outcome.Throw? && r.outcome.error.ItkException? && r.state.stopCondition == UpdateParametersError)
      && (last == StoppedExternallyNote ==> r.outcome == Pass && r.state.stopCondition == s.stopCondition)
      && (last.ConvergencePassedNote? ==>
            && r.outcome == Pass && r.state.stopCondition == ConvergenceCheckerPassed
            && last.iteration == r.state.currentIteration
            && r.state.convergenceValue <= r.state.minimumConvergenceValue)
      && (last.MaximumIterationsNote? ==>
            && r.outcome == Pass && r.state.stopCondition == MaximumNumberOfIterations
            && r.state.currentIteration >= r.state.numberOfIterations)
      && !last.NameOfClass?
    else
      && r.outcome.Throw?
      && r.state.stopCondition == s.stopCondition
      && r.state.description == s.description
  }

  /**
    Every run that stops ends for exactly one recorded reason and the stop
    condition matches it; of those, only the two caught errors raise. A run that
    does not stop was left by an escaping exception and records nothing. The
    counter never passes max(k + 1, N).
  */
  lemma {:induction false} RunExitExplained(env: Environment, s: Snapshot)
    requires !s.stop && s.monitor.Some?
    ensures ExitExplained(s, Run(env, s))
    ensures s.currentIteration <= Run(env, s).state.currentIteration
                               <= MaxNat(s.currentIteration + 1, s.numberOfIterations)
    decreases Budget(s)
  {
    var p := OnePass(env, s);
    if p.state.stop {
      PassExitExplained(env, s);
    } else if p.outcome.Throw? {
      PassKeepsStopCondition(env, s);
    } else {
      PassKeepsStopCondition(env, s);
      RunExitExplained(env, p.state);
      var r := Run(env, p.state);
      assert Run(env, s) == r;
      if r.state.stop {
        assert r.state.description[..|p.state.description|] == p.state.description;
        if r.state.description[|r.state.description| - 1] == StoppedExternallyNote {
          assert r.state.stopCondition == p.state.stopCondition;
        }
      }
    }
  }

  /**
    When every exception is one the loop catches, every run ends with the stop
    flag set, so the exit is always recorded.
  */
  lemma {:induction false} ContainedRunStops(env: Environment, s: Snapshot)
    requires !s.stop && s.monitor.Some?
    requires Contained(env)
    ensures Run(env, s).state.stop
    decreases Budget(s)
  {
    var p := OnePass(env, s);
    if !p.state.stop {
      var ev := env.getValueAndDerivative(s.parameters);
      assert ev.Ok?;
      assert !env.stopRequestedDuring(s.currentIteration);
      var s1 := s.(currentEnergyValue := ev.value.value, gradient := ev.value.derivative, stop := false);
      var m := AddEnergyValue(s1.monitor.value, s1.currentEnergyValue);
      var cv := env.convergenceValue(m.windowSize, m.energyValues);
      var s2 := if cv.Ok? then s1.(monitor := Some(m), convergenceValue := cv.value) else s1.(monitor := Some(m));
      assert p == IterateAndCount(env, s2);
      var m2 := ModifyGradient(env, s2);
      assert m2.outcome.Pass?;
      var u := env.updateTransformParameters(s2.parameters, m2.state.gradient);
      assert u.Err? ==> UpdateCaught(env, s2);
      assert p.outcome.Pass?;
      ContainedRunStops(env, p.state);
    }
  }

  /** A pass that stops appends exactly one note, which explains the exit. */
  lemma PassExitExplained(env: Environment, s: Snapshot)
    requires !s.stop && s.monitor.Some?
    requires OnePass(env, s).state.stop
    ensures ExitExplained(s, OnePass(env, s))
    ensures s.currentIteration <= OnePass(env, s).state.currentIteration <= s.currentIteration + 1
  {
    var p := OnePass(env, s);
    assert |p.state.description| == |s.description| + 1;
    assert p.state.description[..|s.description|] == s.description;
  }

  /** A pass that does not stop leaves the stop condition and the description as they were. */
  lemma PassKeepsStopCondition(env: Environment, s: Snapshot)
    requires !s.stop && s.monitor.Some?
    requires !OnePass(env, s).state.stop
    ensures OnePass(env, s).state.stopCondition == s.stopCondition
    ensures OnePass(env, s).state.description == s.description
  {}

  /** A failed evaluation with an ITK exception stops with COSTFUNCTION_ERROR and re-raises, before any Iterate. */
  lemma EvaluationFailureStops(env: Environment, s: Snapshot)
    requires !s.stop && s.monitor.Some?
    requires env.getValueAndDerivative(s.parameters).Err?
    requires env.getValueAndDerivative(s.parameters).error.ItkException?
    ensures var r := Run(env, s);
      && r.outcome == Throw(env.getValueAndDerivative(s.parameters).error)
      && r.state.stopCondition == CostFunctionError
      && r.state == s.(stopCondition := CostFunctionError, description := s.description + [EnergyErrorNote], stop := true)
  {}

  /**
    An evaluation exception of another type is not caught: it leaves the loop
    with the state exactly as it was, the stop flag still clear and no note.
  */
  lemma ForeignEvaluationErrorEscapes(env: Environment, s: Snapshot)
    requires !s.stop && s.monitor.Some?
    requires env.getValueAndDerivative(s.parameters).Err?
    requires !env.getValueAndDerivative(s.parameters).error.ItkException?
    ensures Run(env, s) == Step(s, Throw(env.getValueAndDerivative(s.parameters).error))
  {}

  /** An external stop ends the pass before the monitor sees the energy; the stop condition stays. */
  lemma ExternalStopKeepsCondition(env: Environment, s: Snapshot)
    requires !s.stop && s.monitor.Some?
    requires env.getValueAndDerivative(s.parameters).Ok? && env.stopRequestedDuring(s.currentIteration)
    ensures var r := Run(env, s);
      && r.outcome == Pass
      && r.state.stopCondition == s.stopCondition
      && r.state.description == s.description + [StoppedExternallyNote]
      && r.state.monitor == s.monitor
      && r.state.parameters == s.parameters && r.state.currentIteration == s.currentIteration
  {}

  /**
    Passing the threshold ends the loop with CONVERGENCE_CHECKER_PASSED after the
    monitor got exactly one more energy, before Iterate and without counting.
  */
  lemma ConvergenceStopsBeforeIterate(env: Environment, s: Snapshot)
    requires !s.stop && s.monitor.Some?
    requires env.getValueAndDerivative(s.parameters).Ok? && !env.stopRequestedDuring(s.currentIteration)
    requires var e := env.getValueAndDerivative(s.parameters).value.value;
      var h := s.monitor.value.energyValues + [e];
      env.convergenceValue(s.monitor.value.windowSize, h).Ok? &&
      env.convergenceValue(s.monitor.value.windowSize, h).value <= s.minimumConvergenceValue
    ensures var r := Run(env, s);
      && r.outcome == Pass
      && r.state.stopCondition == ConvergenceCheckerPassed
      && r.state.currentIteration == s.currentIteration
      && r.state.parameters == s.parameters
      && r.state.learningRate == s.learningRate
      && r.state.gradient == env.getValueAndDerivative(s.parameters).value.derivative
      && r.state.monitor.value.energyValues
         == s.monitor.value.energyValues + [env.getValueAndDerivative(s.parameters).value.value]
  {}

  /**
    A pass that gets past the evaluation without an external stop gives the
    monitor exactly the new energy, whichever way the pass then ends; its window
    size stays the one the monitor was built with.
  */
  lemma PassFeedsMonitorOnce(env: Environment, s: Snapshot)
    requires !s.stop && s.monitor.Some?
    requires env.getValueAndDerivative(s.parameters).Ok? && !env.stopRequestedDuring(s.currentIteration)
    ensures OnePass(env, s).state.monitor.value.windowSize == s.monitor.value.windowSize
    ensures OnePass(env, s).state.monitor.value.energyValues
            == s.monitor.value.energyValues + [env.getValueAndDerivative(s.parameters).value.value]
  {}

  /**
    A monitor that fails is ignored: the pass goes on to Iterate exactly as if
    the convergence value had been above the threshold (except that the stored
    convergence value is not updated).
  */
  lemma ConvergenceFailureIgnored(env: Environment, s: Snapshot)
    requires !s.stop && s.monitor.Some?
    requires env.getValueAndDerivative(s.parameters).Ok? && !env.stopRequestedDuring(s.currentIteration)
    requires var e := env.getValueAndDerivative(s.parameters).value.value;
      env.convergenceValue(s.monitor.value.windowSize, s.monitor.value.energyValues + [e]).Err?
    ensures var ev := env.getValueAndDerivative(s.parameters).value;
      OnePass(env, s) == IterateAndCount(env, s.(currentEnergyValue := ev.value, gradient := ev.derivative,
        monitor := Some(AddEnergyValue(s.monitor.value, ev.value))))
  {}

  class GradientDescentEnergyOptimizer {
    /** The spectral-optimizer part of the object (its base class in the source). */
    const base: SpectralOptimizer

    var maximumStepSizeInPhysicalUnits: real
    var currentEnergyValue: real
    var gradient: seq<real>
    /** The functional's transform parameters, which the loop reads and the update replaces. */
    var parameters: seq<real>

    /** The loop state as a value. */
    function State(): Snapshot
      reads this, base
    {
      Snapshot(base.stop, base.stopCondition, base.stopConditionDescription,
               base.currentIteration, base.numberOfIterations,
               base.minimumConvergenceValue, base.convergenceWindowSize,
               base.convergenceMonitoring, base.convergenceValue, base.learningRate,
               maximumStepSizeInPhysicalUnits,
               currentEnergyValue, gradient, parameters)
    }

    /** Defaults: learning rate 1, no maximum physical step, convergence threshold 1e-8, window 50. */
    constructor (dim: nat, parameters: seq<real>)
      ensures fresh(base) && base.Valid() && base.dim == dim
      ensures base.learningRate == 1.0
      ensures maximumStepSizeInPhysicalUnits == 0.0
      ensures base.minimumConvergenceValue == 0.00000001
      ensures base.convergenceWindowSize == 50
      ensures this.parameters == parameters
    {
      var b := new SpectralOptimizer(dim);
      base := b;
      this.parameters := parameters;
      currentEnergyValue := 0.0;
      gradient := [];
      new;
      base.learningRate := 1.0;
      maximumStepSizeInPhysicalUnits := 0.0;
      base.minimumConvergenceValue := 0.00000001;
      base.convergenceWindowSize := 50;
    }

    /** Creates the monitor with the configured window, resets the counter and runs Resume. */
    method Start(env: Environment) returns (outcome: Outcome<Exception>)
      modifies this`currentEnergyValue, this`gradient, this`parameters,
               base`stop, base`stopCondition, base`stopConditionDescription,
               base`currentIteration, base`convergenceMonitoring, base`convergenceValue,
               base`learningRate
      ensures var r := StartRun(env, old(State()));
        State() == r.state && outcome == r.outcome
    {
      base.convergenceMonitoring := Some(ConvergenceMonitor(base.convergenceWindowSize, []));
      base.currentIteration := 0;
      outcome := Resume(env);
    }

    /** The control loop, run until a pass stops it; the two error exits rethrow. */
    method Resume(env: Environment) returns (outcome: Outcome<Exception>)
      requires base.convergenceMonitoring.Some?
      modifies this`currentEnergyValue, this`gradient, this`parameters,
               base`stop, base`stopCondition, base`stopConditionDescription,
               base`currentIteration, base`convergenceMonitoring, base`convergenceValue,
               base`learningRate
      ensures var r := ResumeRun(env, old(State()));
        State() == r.state && outcome == r.outcome
    {
      base.stopConditionDescription := [NameOfClass];
      base.stop := false;
      ghost var goal := ResumeRun(env, old(State()));
      outcome := Pass;
      while !base.stop
        invariant base.convergenceMonitoring.Some?
        invariant !base.stop ==> Run(env, State()) == goal
        invariant base.stop ==> State() == goal.state && goal.outcome == Pass
        decreases !base.stop, Budget(State())
      {
        ghost var before := State();
        var thrown := LoopBody(env);
        if base.stop || thrown.Throw? {
          RunStopsWithPass(env, before);
        }
        if thrown.Throw? {
          return thrown;
        }
      }
    }

    /**
      One pass of the loop: evaluate, honour an external stop, then test
      convergence and iterate. Each exit the loop records sets the stop flag,
      and the two caught errors also return the exception; an exception of
      another type is returned with nothing recorded.
    */
    method LoopBody(env: Environment) returns (outcome: Outcome<Exception>)
      requires !base.stop && base.convergenceMonitoring.Some?
      modifies this`currentEnergyValue, this`gradient, this`parameters,
               base`stop, base`stopCondition, base`stopConditionDescription,
               base`currentIteration, base`convergenceMonitoring, base`convergenceValue,
               base`learningRate
      ensures var r := OnePass(env, old(State()));
        State() == r.state && outcome == r.outcome
    {
      var evaluation := env.getValueAndDerivative(parameters);
      if evaluation.Err? {
        if !evaluation.error.ItkException? {
          return Throw(evaluation.error);
        }
        base.stopCondition := CostFunctionError;
        base.stopConditionDescription := base.stopConditionDescription + [EnergyErrorNote];
        base.stop := true;
        return Throw(evaluation.error);
      }
      currentEnergyValue := evaluation.value.value;
      gradient := evaluation.value.derivative;
      base.stop := env.stopRequestedDuring(base.currentIteration);
      if base.stop {
        base.stopConditionDescription := base.stopConditionDescription + [StoppedExternallyNote];
        return Pass;
      }
      outcome := MonitorAndIterate(env);
    }

    /**
      The rest of a pass once the energy is known: feed the monitor, stop with
      CONVERGENCE_CHECKER_PASSED at the threshold, otherwise (also when the
      monitor fails) iterate and count.
    */
    method MonitorAndIterate(env: Environment) returns (outcome: Outcome<Exception>)
      requires !base.stop && base.convergenceMonitoring.Some?
      modifies this`currentEnergyValue, this`gradient, this`parameters,
               base`stop, base`stopCondition, base`stopConditionDescription,
               base`currentIteration, base`convergenceMonitoring, base`convergenceValue,
               base`learningRate
      ensures var r := CheckConvergence(env, old(State()));
        State() == r.state && outcome == r.outcome
    {
      var monitor := AddEnergyValue(base.convergenceMonitoring.value, currentEnergyValue);
      base.convergenceMonitoring := Some(monitor);
      var convergence := env.convergenceValue(monitor.windowSize, monitor.energyValues);
      if convergence.Ok? {
        base.convergenceValue := convergence.value;
        if base.convergenceValue <= base.minimumConvergenceValue {
          base.stopConditionDescription :=
            base.stopConditionDescription + [ConvergencePassedNote(base.currentIteration)];
          base.stopCondition := ConvergenceCheckerPassed;
          base.stop := true;
          return Pass;
        }
      }
      outcome := IterateAndCheckBudget(env);
    }

    /** Iterate, count the iteration, and stop with MAXIMUM_NUMBER_OF_ITERATIONS at the budget. */
    method IterateAndCheckBudget(env: Environment) returns (outcome: Outcome<Exception>)
      requires !base.stop
      modifies this`gradient, this`parameters,
               base`stop, base`stopCondition, base`stopConditionDescription,
               base`currentIteration, base`learningRate
      ensures var r := IterateAndCount(env, old(State()));
        State() == r.state && outcome == r.outcome
    {
      outcome := Iterate(env);
      if outcome.Throw? {
        return;
      }
      base.currentIteration := base.currentIteration + 1;
      if base.currentIteration >= base.numberOfIterations {
        base.stopConditionDescription :=
          base.stopConditionDescription + [MaximumIterationsNote(base.numberOfIterations)];
        base.stopCondition := MaximumNumberOfIterations;
        base.stop := true;
      }
    }

    /**
      Scale modification, learning-rate estimation, learning-rate modification,
      then the functional's update, in that order. An exception from a gradient
      hook escapes at once; a failed update stops with UPDATE_PARAMETERS_ERROR
      and rethrows when it is an ITK exception and escapes otherwise.
    */
    method Iterate(env: Environment) returns (outcome: Outcome<Exception>)
      modifies this`gradient, this`parameters,
               base`stop, base`stopCondition, base`stopConditionDescription, base`learningRate
      ensures var scaled := env.modifyGradientByScales(old(gradient));
        scaled.Ok? ==>
          var rate := env.estimateLearningRate(base.currentIteration, maximumStepSizeInPhysicalUnits,
                                               scaled.value, old(base.learningRate));
          rate.Ok? ==>
            && base.learningRate == rate.value
            && var stepped := env.modifyGradientByLearningRate(scaled.value, rate.value);
            && (stepped.Ok? ==> gradient == stepped.value)
      ensures var r := IterateStep(env, old(State()));
        State() == r.state && outcome == r.outcome
    {
      var scaled := env.modifyGradientByScales(gradient);
      if scaled.Err? {
        return Throw(scaled.error);
      }
      gradient := scaled.value;
      var rate := env.estimateLearningRate(base.currentIteration, maximumStepSizeInPhysicalUnits,
                                           gradient, base.learningRate);
      if rate.Err? {
        return Throw(rate.error);
      }
      base.learningRate := rate.value;
      var stepped := env.modifyGradientByLearningRate(gradient, base.learningRate);
      if stepped.Err? {
        return Throw(stepped.error);
      }
      gradient := stepped.value;
      var update := env.updateTransformParameters(parameters, gradient);
      if update.Err? {
        if update.error.ItkException? {
          base.stopCondition := UpdateParametersError;
          base.stopConditionDescription := base.stopConditionDescription + [UpdateErrorNote];
          base.stop := true;
        }
        return Throw(update.error);
      }
      parameters := update.value;
      outcome := Pass;
    }
  }
}
