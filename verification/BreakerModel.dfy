/** InMemoryCircuitBreaker of packages/core/src/breakers.ts as a value, and the protocol in which its
    exec calls overlap: a call starts, and some time later it succeeds or fails. */
module BreakerModel {
  import opened Counting

  datatype Mode = Closed | Open | HalfOpen

  datatype Breaker = Breaker(state: Mode, failures: nat, openedAt: int, halfOpenAttempts: int)

  datatype Options = Options(failureThreshold: int, cooldownMs: int, halfOpenMaxAttempts: int)

  const NEW_BREAKER := Breaker(Closed, 0, 0, 0)

  /** exec up to the call of the action: whether the action is called at all. */
  function Admit(b: Breaker, o: Options, now: int): (Breaker, bool) {
    if b.state.Open? && now - b.openedAt < o.cooldownMs then (b, false)
    else
      var c := if b.state.Open? then b.(halfOpenAttempts := 0, state := HalfOpen) else b;
      if !c.state.HalfOpen? then (c, true)
      else if c.halfOpenAttempts >= o.halfOpenMaxAttempts then (c, false)
      else (c.(halfOpenAttempts := c.halfOpenAttempts + 1), true)
  }

  function OnSuccess(b: Breaker): Breaker {
    if b.state.Closed? then b.(failures := 0) else b.(failures := 0, halfOpenAttempts := 0, state := Closed)
  }

  function OnFailure(b: Breaker, o: Options, now: int): Breaker {
    if b.state.HalfOpen? then b.(openedAt := now, state := Open)
    else
      var c := b.(failures := b.failures + 1);
      if c.failures >= o.failureThreshold then c.(openedAt := now, state := Open) else c
  }

  // --- overlapping calls ---

  /** A call whose action was called: when, in which half-open episode if it was a probe, and whether
      the action has settled. */
  datatype Call = Call(start: int, probe: bool, episode: nat, live: bool)

  /** `episode` numbers the times the breaker became half-open. */
  datatype State = State(now: int, b: Breaker, calls: seq<Call>, episode: nat)

  datatype Step = Tick(t: int) | Start | Succeed(i: nat) | Fail(i: nat)

  function Init(now: int): State { State(now, NEW_BREAKER, [], 0) }

  predicate Enabled(s: State, step: Step) {
    match step
    case Tick(t) => s.now <= t
    case Start => true
    case Succeed(i) => i < |s.calls| && s.calls[i].live
    case Fail(i) => i < |s.calls| && s.calls[i].live
  }

  predicate Admitted(o: Options, s: State) { Admit(s.b, o, s.now).1 }

  function Settle(s: State, i: nat, b: Breaker): State
    requires i < |s.calls|
  {
    s.(b := b, calls := s.calls[i := s.calls[i].(live := false)])
  }

  function Apply(o: Options, s: State, step: Step): State
    requires Enabled(s, step)
  {
    match step
    case Tick(t) => s.(now := t)
    case Start =>
      var (c, ok) := Admit(s.b, o, s.now);
      var e := s.episode + One(s.b.state.Open? && c.state.HalfOpen?);
      s.(b := c, episode := e, calls := if ok then s.calls + [Call(s.now, c.state.HalfOpen?, e, true)] else s.calls)
    case Succeed(i) => Settle(s, i, OnSuccess(s.b))
    case Fail(i) => Settle(s, i, OnFailure(s.b, o, s.now))
  }

  predicate Run(o: Options, s: State, steps: seq<Step>)
    decreases |steps|
  {
    steps == [] || (Enabled(s, steps[0]) && Run(o, Apply(o, s, steps[0]), steps[1..]))
  }

  function End(o: Options, s: State, steps: seq<Step>): State
    requires Run(o, s, steps)
    decreases |steps|
  {
    if steps == [] then s else End(o, Apply(o, s, steps[0]), steps[1..])
  }

  ghost predicate Reachable(o: Options, s: State) {
    exists now, steps :: Run(o, Init(now), steps) && s == End(o, Init(now), steps)
  }

  // --- the invariant ---

  function ProbeOf(e: nat): Call -> bool { (c: Call) => c.live && c.probe && c.episode == e }

  /** In half-open the attempts are exactly the probes of this episode, none of which has settled. */
  predicate AttemptsOk(o: Options, s: State) {
    && (s.b.state.HalfOpen? ==>
         s.b.halfOpenAttempts == Count(s.calls, ProbeOf(s.episode))
         && s.b.halfOpenAttempts <= Max(o.halfOpenMaxAttempts, 0)
         && (o.halfOpenMaxAttempts >= 1 ==> s.b.halfOpenAttempts >= 1))
    && (forall i :: 0 <= i < |s.calls| ==> s.calls[i].episode <= s.episode)
  }

  function Max(a: int, b: int): int { if a < b then b else a }

  /** Whoever is in flight while the breaker is open was admitted before it tripped; while it is half-open,
      so was whoever is not one of its probes. */
  predicate LateOk(s: State) {
    forall i :: 0 <= i < |s.calls| ==>
      && s.calls[i].start <= s.now
      && (s.calls[i].live && !s.b.state.Closed? ==> s.calls[i].start <= s.b.openedAt || IsProbe(s, i))
  }

  /** The breaker is half-open, and call i is a probe of this episode. */
  predicate IsProbe(s: State, i: nat)
    requires i < |s.calls|
  {
    s.b.state.HalfOpen? && s.calls[i].probe && s.calls[i].episode == s.episode
  }

  predicate CountOk(o: Options, b: Breaker) {
    o.failureThreshold >= 1 ==> (b.state.Closed? <==> b.failures < o.failureThreshold)
  }

  predicate Inv(o: Options, s: State) { AttemptsOk(o, s) && LateOk(s) && CountOk(o, s.b) }

  lemma StartKeepsAttempts(o: Options, s: State)
    requires AttemptsOk(o, s)
    ensures AttemptsOk(o, Apply(o, s, Start))
  {
    hide Count;
    var t := Apply(o, s, Start);
    if t.b.state.HalfOpen? {
      var n := |s.calls|;
      if s.b.state.Open? {
        CountNone(s.calls, ProbeOf(t.episode));
      }
      if |t.calls| > n {
        CountAppend(s.calls, t.calls[n], ProbeOf(t.episode));
      }
    }
  }

  lemma StepKeeps(o: Options, s: State, step: Step)
    requires Inv(o, s) && Enabled(s, step)
    ensures Inv(o, Apply(o, s, step))
  {
    if step.Start? {
      StartKeepsAttempts(o, s);
    }
  }

  lemma {:induction false} RunKeeps(o: Options, s: State, steps: seq<Step>)
    requires Inv(o, s) && Run(o, s, steps)
    ensures Inv(o, End(o, s, steps))
    decreases |steps|
  {
    hide Inv, Enabled, Apply;
    if steps != [] {
      StepKeeps(o, s, steps[0]);
      RunKeeps(o, Apply(o, s, steps[0]), steps[1..]);
    }
  }

  lemma ReachableInv(o: Options, s: State)
    requires Reachable(o, s)
    ensures Inv(o, s)
  {
    var now, steps :| Run(o, Init(now), steps) && s == End(o, Init(now), steps);
    RunKeeps(o, Init(now), steps);
  }

  // --- half-open accounting ---

  /** The attempts are the probes in flight of this episode, at least one and at most the maximum. */
  lemma HalfOpenAccounting(o: Options, s: State)
    requires Reachable(o, s) && s.b.state.HalfOpen? && o.halfOpenMaxAttempts >= 1
    ensures s.b.halfOpenAttempts == Count(s.calls, ProbeOf(s.episode))
    ensures 1 <= s.b.halfOpenAttempts <= o.halfOpenMaxAttempts
  {
    ReachableInv(o, s);
  }

  /** Hence the breaker cannot stay half-open for ever: some probe is in flight, and whichever call
      settles first, the breaker leaves. */
  lemma HalfOpenEnds(o: Options, s: State)
    requires Reachable(o, s) && s.b.state.HalfOpen? && o.halfOpenMaxAttempts >= 1
    ensures exists i :: 0 <= i < |s.calls| && s.calls[i].live && s.calls[i].probe && s.calls[i].episode == s.episode
    ensures forall i :: Enabled(s, Succeed(i)) ==> Apply(o, s, Succeed(i)).b.state == Closed
    ensures forall i :: Enabled(s, Fail(i)) ==> Apply(o, s, Fail(i)).b.state == Open
  {
    ReachableInv(o, s);
    var i := CountWitness(s.calls, ProbeOf(s.episode));
  }

  /** Half-open and nothing in flight that could end it. */
  predicate Wedged(s: State) {
    s.b.state.HalfOpen? && forall i :: 0 <= i < |s.calls| ==> !s.calls[i].live
  }

  /** A breaker that admits no probe stays wedged for ever, and refuses every call. */
  lemma {:induction false} WedgedForEver(o: Options, s: State, steps: seq<Step>)
    requires Wedged(s) && s.b.halfOpenAttempts >= o.halfOpenMaxAttempts && Run(o, s, steps)
    ensures Wedged(End(o, s, steps)) && End(o, s, steps).calls == s.calls && !Admitted(o, End(o, s, steps))
    decreases |steps|
  {
    if steps != [] {
      WedgedForEver(o, Apply(o, s, steps[0]), steps[1..]);
    }
  }

  /** The first exec after the cooldown wedges the breaker if and only if no probe is allowed and no
      earlier call is still in flight. */
  lemma WedgeIsExact(o: Options, s: State)
    requires Reachable(o, s) && s.b.state.Open? && s.now - s.b.openedAt >= o.cooldownMs
    ensures Wedged(Apply(o, s, Start)) <==>
      o.halfOpenMaxAttempts <= 0 && forall i :: 0 <= i < |s.calls| ==> !s.calls[i].live
  {
    var t := Apply(o, s, Start);
    if o.halfOpenMaxAttempts >= 1 {
      assert t.calls[|s.calls|].live;
    } else {
      assert t.calls == s.calls;
    }
  }

  // --- the failure count decides ---

  /** Closed if and only if the failures are below the threshold, under all interleavings; and this is
      so if and only if the threshold is positive. */
  lemma CountDecides(o: Options)
    ensures o.failureThreshold >= 1 <==>
      forall s :: Reachable(o, s) ==> (s.b.state.Closed? <==> s.b.failures < o.failureThreshold)
  {
    if o.failureThreshold >= 1 {
      forall s | Reachable(o, s) ensures s.b.state.Closed? <==> s.b.failures < o.failureThreshold {
        ReachableInv(o, s);
      }
    } else {
      assert Run(o, Init(0), []) && End(o, Init(0), []) == Init(0);
      assert Reachable(o, Init(0));
    }
  }

  // --- admission after a trip ---

  /** Since a trip at time t nothing has succeeded: still open, or half-open after the cooldown. */
  predicate Guarded(o: Options, s: State, t: int) {
    || (s.b.state.Open? && s.b.openedAt >= t && s.now >= t)
    || (s.b.state.HalfOpen? && s.now - t >= o.cooldownMs && s.now >= t)
  }

  lemma {:induction false} StaysGuarded(o: Options, s: State, t: int, steps: seq<Step>)
    requires Guarded(o, s, t) && Run(o, s, steps) && forall j :: 0 <= j < |steps| ==> !steps[j].Succeed?
    requires CountOk(o, s.b)
    ensures Guarded(o, End(o, s, steps), t)
    decreases |steps|
  {
    if steps != [] {
      StaysGuarded(o, Apply(o, s, steps[0]), t, steps[1..]);
    }
  }

  /** After a failure at time t that left the breaker open, a call whose action starts at time u has
      u - t >= cooldownMs, unless some call succeeded in between. */
  lemma AdmissionAfterTrip(o: Options, s: State, i: nat, steps: seq<Step>)
    requires Reachable(o, s)
    requires Enabled(s, Fail(i)) && Apply(o, s, Fail(i)).b.state.Open?
    requires Run(o, Apply(o, s, Fail(i)), steps) && Admitted(o, End(o, Apply(o, s, Fail(i)), steps))
    ensures
      || End(o, Apply(o, s, Fail(i)), steps).now - s.now >= o.cooldownMs
      || exists j :: 0 <= j < |steps| && steps[j].Succeed?
  {
    var r := Apply(o, s, Fail(i));
    ReachableInv(o, s);
    StepKeeps(o, s, Fail(i));
    if forall j :: 0 <= j < |steps| ==> !steps[j].Succeed? {
      StaysGuarded(o, r, s.now, steps);
    }
  }

  /** openedAt is never in the future, and never decreases. */
  lemma {:induction false} OpenedAtGrows(o: Options, s: State, steps: seq<Step>)
    requires Run(o, s, steps) && s.b.openedAt <= s.now
    ensures s.b.openedAt <= End(o, s, steps).b.openedAt <= End(o, s, steps).now
    decreases |steps|
  {
    if steps != [] {
      OpenedAtGrows(o, Apply(o, s, steps[0]), steps[1..]);
    }
  }

  /** Fail calls until the breaker opens. */
  lemma {:induction false} TripRun(o: Options, s: State) returns (steps: seq<Step>)
    requires s.b.state.Closed?
    ensures Run(o, s, steps) && End(o, s, steps).b.state.Open? && End(o, s, steps).b.openedAt == s.now
    decreases o.failureThreshold - s.b.failures
  {
    var i := |s.calls|;
    var t := Apply(o, s, Start);
    var u := Apply(o, t, Fail(i));
    if u.b.state.Open? {
      steps := [];
      assert Run(o, u, steps) && End(o, u, steps) == u;
    } else {
      steps := TripRun(o, u);
    }
    var rest := steps;
    assert ([Fail(i)] + rest)[1..] == rest;
    assert Run(o, t, [Fail(i)] + rest) && End(o, t, [Fail(i)] + rest) == End(o, u, rest);
    steps := [Start] + ([Fail(i)] + rest);
    assert steps[1..] == [Fail(i)] + rest;
  }

  /** From a new breaker openedAt never falls below its first value if and only if the clock does not
      start below it. */
  lemma OpenedAtIsExact(o: Options, now: int)
    ensures now >= NEW_BREAKER.openedAt <==>
      forall steps :: Run(o, Init(now), steps) ==> End(o, Init(now), steps).b.openedAt >= NEW_BREAKER.openedAt
  {
    if now >= NEW_BREAKER.openedAt {
      forall steps | Run(o, Init(now), steps) ensures End(o, Init(now), steps).b.openedAt >= NEW_BREAKER.openedAt {
        OpenedAtGrows(o, Init(now), steps);
      }
    } else {
      var steps := TripRun(o, Init(now));
    }
  }

  // --- edges ---

  /** The documented edges, each by its cause. */
  predicate Documented(o: Options, s: State, step: Step)
    requires Enabled(s, step)
  {
    var before, after := s.b.state, Apply(o, s, step).b.state;
    || before == after
    || (before == Closed && after == Open && step.Fail? && s.b.failures + 1 >= o.failureThreshold)
    || (before == Open && after == HalfOpen && step.Start? && s.now - s.b.openedAt >= o.cooldownMs)
    || (before == HalfOpen && after == Closed && step.Succeed? && IsProbe(s, step.i))
    || (before == HalfOpen && after == Open && step.Fail? && IsProbe(s, step.i))
  }

  /** A call settles that was admitted before the breaker last tripped. */
  predicate SettlesLate(s: State, step: Step)
    requires Enabled(s, step)
  {
    (step.Succeed? || step.Fail?) && s.calls[step.i].start <= s.b.openedAt && !IsProbe(s, step.i)
  }

  /** Overlap adds three edges, all by a call admitted before the last trip: from open to closed by its
      success, and from half-open to closed or open although it is no probe. Every step takes a documented
      edge, or one of the three, and not both. */
  lemma EdgesUnderOverlap(o: Options, s: State, step: Step)
    requires Reachable(o, s) && Enabled(s, step)
    ensures var before, after := s.b.state, Apply(o, s, step).b.state;
      !Documented(o, s, step) <==>
        SettlesLate(s, step)
        && ((step.Succeed? && before == Open && after == Closed)
            || (step.Succeed? && before == HalfOpen && after == Closed)
            || (step.Fail? && before == HalfOpen && after == Open))
  {
    ReachableInv(o, s);
  }

  /** Two calls; the first trips the breaker, and the second is still there when a third is the probe. */
  const TRIP := [Start, Start, Fail(0), Tick(10), Start]

  /** All three do occur: the second call decides, and the probe's own answer comes too late. */
  lemma LateCallsDecide()
    ensures var o := Options(1, 10, 1); Run(o, Init(0), TRIP[..3]) && Run(o, Init(0), TRIP)
    ensures var o, s := Options(1, 10, 1), End(Options(1, 10, 1), Init(0), TRIP[..3]);
      && s.b.state == Open && Enabled(s, Succeed(1)) && Apply(o, s, Succeed(1)).b.state == Closed
      && !Documented(o, s, Succeed(1))
    ensures var o, s := Options(1, 10, 1), End(Options(1, 10, 1), Init(0), TRIP);
      && s.b.state == HalfOpen && |s.calls| == 3 && IsProbe(s, 2) && s.calls[1].live
      && Apply(o, s, Succeed(1)).b.state == Closed && !Documented(o, s, Succeed(1))
      && Apply(o, s, Fail(1)).b.state == Open && !Documented(o, s, Fail(1))
  {
    var o := Options(1, 10, 1);
    var call := Call(0, false, 0, true);
    var two := State(0, NEW_BREAKER, [call, call], 0);
    var tripped := State(0, Breaker(Open, 1, 0, 0), [call.(live := false), call], 0);
    var probing := State(10, Breaker(HalfOpen, 1, 0, 1), [call.(live := false), call, Call(10, true, 1, true)], 1);
    assert Apply(o, Apply(o, Init(0), Start), Start) == two;
    assert Apply(o, two, Fail(0)) == tripped;
    assert Apply(o, Apply(o, tripped, Tick(10)), Start) == probing;
    TwoThen(o, two, TRIP[..3]);
    TwoThen(o, two, TRIP);
    assert TRIP[..3][2..] == [Fail(0)] && TRIP[2..] == [Fail(0), Tick(10), Start];
    assert Run(o, two, [Fail(0)]) && End(o, two, [Fail(0)]) == tripped;
    var late := [Fail(0), Tick(10), Start];
    assert late[1..] == [Tick(10), Start] && [Tick(10), Start][1..] == [Start];
    assert Run(o, two, late) && End(o, two, late) == probing;
  }

  lemma TwoThen(o: Options, s: State, steps: seq<Step>)
    requires |steps| >= 2 && steps[0] == steps[1] == Start
    requires s == Apply(o, Apply(o, Init(0), Start), Start)
    ensures Run(o, Init(0), steps) == Run(o, s, steps[2..])
    ensures Run(o, s, steps[2..]) ==> Run(o, Init(0), steps) && End(o, Init(0), steps) == End(o, s, steps[2..])
  {
    assert steps[1..][1..] == steps[2..];
  }

  /** Each call starts after the ones before it have settled. */
  predicate Sequential(o: Options, s: State, steps: seq<Step>)
    requires Run(o, s, steps)
    decreases |steps|
  {
    steps != [] ==>
      && (steps[0].Start? ==> forall i :: 0 <= i < |s.calls| ==> !s.calls[i].live)
      && Sequential(o, Apply(o, s, steps[0]), steps[1..])
  }

  /** At most one call is in flight, not while the breaker is open, and while it is half-open only a probe. */
  predicate OneAtATime(s: State) {
    && (forall i, j :: 0 <= i < j < |s.calls| ==> !(s.calls[i].live && s.calls[j].live))
    && (forall i :: 0 <= i < |s.calls| && s.calls[i].live ==> s.b.state.Closed? || IsProbe(s, i))
  }

  lemma {:induction false} SequentialRun(o: Options, s: State, steps: seq<Step>)
    requires OneAtATime(s) && Run(o, s, steps) && Sequential(o, s, steps)
    ensures OneAtATime(End(o, s, steps))
    decreases |steps|
  {
    if steps != [] {
      SequentialStep(o, s, steps[0]);
      SequentialRun(o, Apply(o, s, steps[0]), steps[1..]);
    }
  }

  lemma SequentialStep(o: Options, s: State, step: Step)
    requires OneAtATime(s) && Enabled(s, step)
    requires step.Start? ==> forall i :: 0 <= i < |s.calls| ==> !s.calls[i].live
    ensures OneAtATime(Apply(o, s, step))
  {
  }

  /** Without overlap, only the documented edges are taken. */
  lemma EdgesWithoutOverlap(o: Options, now: int, steps: seq<Step>, step: Step)
    requires Run(o, Init(now), steps) && Sequential(o, Init(now), steps) && Enabled(End(o, Init(now), steps), step)
    ensures Documented(o, End(o, Init(now), steps), step)
  {
    SequentialRun(o, Init(now), steps);
  }
}
