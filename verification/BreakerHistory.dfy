/** The breaker against the history of its calls: its counter, its stamp and its admissions are what the
    settlements of the run say, counted from the steps alone. */
module BreakerHistory {
  import opened Counting
  import opened BreakerModel

  datatype Outcome = Success | Failure

  /** How the calls of a run settled, in the order in which they did. */
  function Outcomes(steps: seq<Step>): seq<Outcome> {
    if steps == [] then [] else OutcomeOf(steps[0]) + Outcomes(steps[1..])
  }

  function OutcomeOf(step: Step): seq<Outcome> {
    match step
    case Succeed(_) => [Success]
    case Fail(_) => [Failure]
    case _ => []
  }

  /** The failures since the last success. */
  function Streak(outs: seq<Outcome>): nat {
    if outs == [] || outs[|outs| - 1].Success? then 0 else Streak(outs[..|outs| - 1]) + 1
  }

  /** The last n calls to settle have failed. */
  predicate LastFailed(outs: seq<Outcome>, n: nat) {
    n <= |outs| && forall i :: |outs| - n <= i < |outs| ==> outs[i].Failure?
  }

  lemma {:induction false} StreakIsLast(outs: seq<Outcome>, n: nat)
    ensures LastFailed(outs, n) <==> n <= Streak(outs)
  {
    if n > 0 && outs != [] && outs[|outs| - 1].Failure? {
      var rest := outs[..|outs| - 1];
      StreakIsLast(rest, n - 1);
      assert LastFailed(outs, n) <==> LastFailed(rest, n - 1) by {
        if LastFailed(outs, n) {
          assert forall i :: |rest| - (n - 1) <= i < |rest| ==> rest[i] == outs[i];
        }
      }
    }
  }

  lemma StreakGrows(outs: seq<Outcome>)
    ensures Streak(outs + [Failure]) == Streak(outs) + 1 && Streak(outs + [Success]) == 0
  {
    assert (outs + [Failure])[..|outs|] == outs;
  }

  // --- the count ---

  predicate CountsStreak(b: Breaker, outs: seq<Outcome>) { b.state.Closed? ==> b.failures == Streak(outs) }

  lemma StepCounts(o: Options, s: State, past: seq<Outcome>, step: Step)
    requires CountsStreak(s.b, past) && Enabled(s, step)
    ensures CountsStreak(Apply(o, s, step).b, past + OutcomeOf(step))
  {
    StreakGrows(past);
    assert past + [] == past;
    hide Streak;
  }

  lemma {:induction false} RunCounts(o: Options, s: State, past: seq<Outcome>, steps: seq<Step>)
    requires CountsStreak(s.b, past) && Run(o, s, steps)
    ensures CountsStreak(End(o, s, steps).b, past + Outcomes(steps))
    decreases |steps|
  {
    hide CountsStreak, Enabled, Apply, OutcomeOf;
    if steps == [] {
      assert past + [] == past;
    } else {
      StepCounts(o, s, past, steps[0]);
      RunCounts(o, Apply(o, s, steps[0]), past + OutcomeOf(steps[0]), steps[1..]);
      assert past + OutcomeOf(steps[0]) + Outcomes(steps[1..]) == past + Outcomes(steps);
    }
  }

  /** While the breaker is closed it counts the failures since the last success, whatever calls overlap. */
  lemma CountIsStreak(o: Options, now: int, steps: seq<Step>)
    requires Run(o, Init(now), steps) && End(o, Init(now), steps).b.state.Closed?
    ensures End(o, Init(now), steps).b.failures == Streak(Outcomes(steps))
  {
    RunCounts(o, Init(now), [], steps);
    assert [] + Outcomes(steps) == Outcomes(steps);
  }

  /** A closed breaker trips if and only if a call fails, and with it the last failureThreshold calls to
      settle have failed. */
  lemma TripIsExact(o: Options, now: int, steps: seq<Step>, step: Step)
    requires Run(o, Init(now), steps) && End(o, Init(now), steps).b.state.Closed?
    requires Enabled(End(o, Init(now), steps), step)
    ensures !Apply(o, End(o, Init(now), steps), step).b.state.Closed? <==>
      step.Fail? && LastFailed(Outcomes(steps) + [Failure], Max(o.failureThreshold, 1))
  {
    CountIsStreak(o, now, steps);
    StreakGrows(Outcomes(steps));
    StreakIsLast(Outcomes(steps) + [Failure], Max(o.failureThreshold, 1));
  }

  // --- the stamp ---

  /** When a call last failed in the run, or the given time. */
  function LastFailure(o: Options, s: State, steps: seq<Step>, before: int): int
    requires Run(o, s, steps)
    decreases |steps|
  {
    if steps == [] then before
    else LastFailure(o, Apply(o, s, steps[0]), steps[1..], if steps[0].Fail? then s.now else before)
  }

  predicate Stamped(b: Breaker, time: int) { !b.state.Closed? ==> b.openedAt == time }

  lemma {:induction false} RunStamps(o: Options, s: State, before: int, steps: seq<Step>)
    requires Stamped(s.b, before) && CountOk(o, s.b) && Run(o, s, steps)
    ensures Stamped(End(o, s, steps).b, LastFailure(o, s, steps, before))
    decreases |steps|
  {
    if steps != [] {
      RunStamps(o, Apply(o, s, steps[0]), if steps[0].Fail? then s.now else before, steps[1..]);
    }
  }

  /** While the breaker is not closed, openedAt is the time of the last failure. */
  lemma OpenedAtLastFailure(o: Options, now: int, steps: seq<Step>, before: int)
    requires Run(o, Init(now), steps) && !End(o, Init(now), steps).b.state.Closed?
    ensures End(o, Init(now), steps).b.openedAt == LastFailure(o, Init(now), steps, before)
  {
    RunStamps(o, Init(now), before, steps);
  }

  // --- admission ---

  /** Whether the action of the next call is called: always while closed; while open, once the cooldown has
      passed since the last failure, if a probe is allowed at all; while half-open, as long as fewer
      probes of this episode are in flight than are allowed. */
  lemma AdmissionIsExact(o: Options, now: int, steps: seq<Step>)
    requires Run(o, Init(now), steps)
    ensures var s := End(o, Init(now), steps);
      Admitted(o, s) <==>
        match s.b.state
        case Closed => true
        case Open => s.now - LastFailure(o, Init(now), steps, 0) >= o.cooldownMs && o.halfOpenMaxAttempts >= 1
        case HalfOpen => Count(s.calls, ProbeOf(s.episode)) < o.halfOpenMaxAttempts
  {
    var s := End(o, Init(now), steps);
    RunKeeps(o, Init(now), steps);
    if s.b.state.Open? {
      OpenedAtLastFailure(o, now, steps, 0);
    }
  }
}
