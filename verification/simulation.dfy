/** The simulated branch of `get_metrics`: one round of progress for one job. */
module Simulation {
  import opened Wrappers
  import opened Scaling

  /** The scheduling policy named by the `sched_policy` setting. Only "Optimus"
      changes the simulation; every other name behaves alike. */
  datatype Policy = Optimus | Other

  /** Reads a policy name the way the source compares it: exactly "Optimus" or not. */
  function PolicyNamed(name: string): Policy {
    if name == "Optimus" then Optimus else Other
  }

  /** One entry of the active job table, as far as the simulation reads or writes it.
      `attainedService` is `tracked_metrics.attained_service`. */
  datatype JobState = JobState(
    previouslyLaunched: bool,
    launchedFirstTime: bool,
    iterationTime: real,
    executedIteration: real,
    totalIteration: real,
    totalGpus: string,
    attainedService: real)

  /** The record the simulation reports for a job. `jobExit` is the optional
      `job_exit` key: `None` when the key is absent. */
  datatype SimMetrics = SimMetrics(attainedService: real, perIterTime: real, jobExit: Option<bool>)

  /** What the step needs to run without a Python exception: a non-zero iteration
      time (no ZeroDivisionError) and, under Optimus, a GPU count present in the
      table (no KeyError). */
  predicate CanStep(s: JobState, policy: Policy) {
    s.iterationTime != 0.0 && (policy == Optimus ==> s.totalGpus in ScaleTable)
  }

  /** Iterations gained this round: round time over time per iteration, scaled by
      the GPU multiplier under Optimus. */
  function Gain(s: JobState, roundDuration: real, policy: Policy): real
    requires CanStep(s, policy)
  {
    var inRound := roundDuration / s.iterationTime;
    if policy == Optimus then inRound * Scale(s.totalGpus) else inRound
  }

  /** One simulated round: returns the updated table entry and the metrics record. */
  function Step(s: JobState, roundDuration: real, policy: Policy): (out: (JobState, SimMetrics))
    requires CanStep(s, policy)
    // first-launch bookkeeping
    ensures out.0.previouslyLaunched
    ensures out.0.launchedFirstTime <==> !s.previouslyLaunched
    // reported service is one round more than tracked; the tracked value itself stays
    ensures out.1.attainedService == s.attainedService + roundDuration
    ensures out.0.attainedService == s.attainedService
    ensures out.1.perIterTime == s.iterationTime
    // job_exit is present, and true, exactly when the committed total reaches the target
    ensures out.1.jobExit == Some(true) <==> out.0.executedIteration >= s.totalIteration
    ensures out.1.jobExit == None <==> out.0.executedIteration < s.totalIteration
    // the job's static description is untouched
    ensures out.0.iterationTime == s.iterationTime
    ensures out.0.totalIteration == s.totalIteration
    ensures out.0.totalGpus == s.totalGpus
    ensures CanStep(out.0, policy)
  {
    var achieved := s.executedIteration + Gain(s, roundDuration, policy);
    var exit := achieved >= s.totalIteration;
    var s' := s.(previouslyLaunched := true,
                 launchedFirstTime := !s.previouslyLaunched,
                 executedIteration := achieved);
    (s', SimMetrics(s.attainedService + roundDuration, s.iterationTime,
                    if exit then Some(true) else None))
  }

  /** The committed iteration count: the old count plus round time over
      iteration time, where Optimus multiplies only this round's increment by
      the table entry of the job's GPU count. */
  lemma StepProgress(s: JobState, roundDuration: real, policy: Policy)
    requires CanStep(s, policy)
    ensures policy == Other ==>
      Step(s, roundDuration, policy).0.executedIteration
        == s.executedIteration + roundDuration / s.iterationTime
    ensures policy == Optimus ==>
      Step(s, roundDuration, policy).0.executedIteration
        == s.executedIteration + (roundDuration / s.iterationTime) * Scale(s.totalGpus)
  {
  }

  /** The policy name decides the gain of a round: "Optimus" multiplies round
      time over iteration time by the GPU table entry, any other name by one. */
  lemma PolicyNameSelectsScaling(s: JobState, roundDuration: real, name: string)
    requires CanStep(s, PolicyNamed(name))
    ensures name == "Optimus" ==> s.totalGpus in ScaleTable
    ensures Step(s, roundDuration, PolicyNamed(name)).0.executedIteration - s.executedIteration
              == (if name == "Optimus" then Scale(s.totalGpus) else 1.0) * (roundDuration / s.iterationTime)
  {
  }

  /** Optimus and any other policy agree on history and differ only by the GPU
      multiplier applied to this round's increment. */
  lemma OptimusScalesOnlyIncrement(s: JobState, roundDuration: real)
    requires CanStep(s, Optimus)
    ensures var plain := Step(s, roundDuration, Other).0.executedIteration;
            var scaled := Step(s, roundDuration, Optimus).0.executedIteration;
            scaled - s.executedIteration == Scale(s.totalGpus) * (plain - s.executedIteration)
  {
  }

  /** With a non-negative round and a positive iteration time the committed count
      never decreases, whichever policy runs and whether or not the job exits. */
  lemma ExecutedNeverDecreases(s: JobState, roundDuration: real, policy: Policy)
    requires CanStep(s, policy)
    requires roundDuration >= 0.0 && s.iterationTime > 0.0
    ensures Step(s, roundDuration, policy).0.executedIteration >= s.executedIteration
  {
  }

  /** Two consecutive rounds of a job that was never launched report a first
      launch, then not. */
  lemma FirstLaunchOnce(s: JobState, roundDuration: real, policy: Policy)
    requires CanStep(s, policy) && !s.previouslyLaunched
    ensures var s1 := Step(s, roundDuration, policy).0;
            && CanStep(s1, policy)
            && s1.launchedFirstTime
            && !Step(s1, roundDuration, policy).0.launchedFirstTime
  {
  }

  /** Once a round reports exit, a further round with non-negative progress
      reports exit again. */
  lemma ExitPersists(s: JobState, roundDuration: real, policy: Policy)
    requires CanStep(s, policy)
    requires roundDuration >= 0.0 && s.iterationTime > 0.0
    requires Step(s, roundDuration, policy).1.jobExit == Some(true)
    ensures var s1 := Step(s, roundDuration, policy).0;
            Step(s1, roundDuration, policy).1.jobExit == Some(true)
  {
    var s1 := Step(s, roundDuration, policy).0;
    ExecutedNeverDecreases(s1, roundDuration, policy);
  }

  /** `n` rounds of the same length applied in sequence to one table entry. */
  function Rounds(s: JobState, roundDuration: real, policy: Policy, n: nat): (r: JobState)
    requires CanStep(s, policy)
    ensures CanStep(r, policy)
    ensures r.iterationTime == s.iterationTime && r.totalGpus == s.totalGpus
    ensures r.totalIteration == s.totalIteration
    decreases n
  {
    if n == 0 then s else Rounds(Step(s, roundDuration, policy).0, roundDuration, policy, n - 1)
  }

  /** Every round adds the same increment, the one the job's first round adds:
      iterations accrue linearly in the number of rounds. */
  lemma {:induction false} RoundsEqualIncrements(s: JobState, roundDuration: real, policy: Policy, k: nat)
    requires CanStep(s, policy)
    ensures Rounds(s, roundDuration, policy, k + 1).executedIteration
              == Rounds(s, roundDuration, policy, k).executedIteration + Gain(s, roundDuration, policy)
    decreases k
  {
    var s1 := Step(s, roundDuration, policy).0;
    assert Gain(s1, roundDuration, policy) == Gain(s, roundDuration, policy);
    if k > 0 {
      RoundsEqualIncrements(s1, roundDuration, policy, k - 1);
    }
  }

  /** The simulation never advances the tracked service itself; after one round
      the job counts as previously launched, and from the second round on it no
      longer counts as launched for the first time. */
  lemma {:induction false} RoundsBookkeeping(s: JobState, roundDuration: real, policy: Policy, n: nat)
    requires CanStep(s, policy)
    ensures Rounds(s, roundDuration, policy, n).attainedService == s.attainedService
    ensures n >= 1 ==> Rounds(s, roundDuration, policy, n).previouslyLaunched
    ensures n >= 2 ==> !Rounds(s, roundDuration, policy, n).launchedFirstTime
    decreases n
  {
    if n > 0 {
      var s1 := Step(s, roundDuration, policy).0;
      RoundsBookkeeping(s1, roundDuration, policy, n - 1);
      if n == 2 {
        var s2 := Step(s1, roundDuration, policy).0;
        assert Rounds(s1, roundDuration, policy, 1) == Rounds(s2, roundDuration, policy, 0);
      }
    }
  }

  /** A ten-iteration job at one second per iteration finishes in one ten-second round. */
  lemma ExitExample()
    ensures var s := JobState(false, false, 1.0, 0.0, 10.0, "1.0", 0.0);
            var out := Step(s, 10.0, Other);
            out.1.jobExit == Some(true) && out.0.executedIteration == 10.0
  {
  }

  /** Under Optimus with two GPUs a ten-second round at one second per iteration
      adds thirty iterations to the existing count. */
  lemma OptimusExample(executed: real)
    ensures var s := JobState(true, false, 1.0, executed, 1000.0, "2.0", 0.0);
            Step(s, 10.0, Optimus).0.executedIteration == executed + 30.0
  {
  }
}
