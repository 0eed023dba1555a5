/** InMemoryCircuitBreaker as the program has it: four fields that exec's two halves update in place; and
    the listener with which the pool counts the changes of all its breakers. */
module HeapBreaker {
  import opened Counting
  import opened BreakerModel

  datatype BreakerCounts = BreakerCounts(closed: nat, open: nat, halfOpen: nat)

  function Is(m: Mode): Mode -> bool { (x: Mode) => x == m }

  /** How often each state occurs among those told. */
  function Tally(told: seq<Mode>): BreakerCounts {
    BreakerCounts(Count(told, Is(Closed)), Count(told, Is(Open)), Count(told, Is(HalfOpen)))
  }

  /** The counters that one listener keeps for every breaker it is registered with. */
  class BreakerStats {
    var counts: BreakerCounts
    /** All that the breakers have told it, in order. */
    ghost var told: seq<Mode>

    ghost predicate Valid()
      reads this
    {
      counts == Tally(told)
    }

    constructor ()
      ensures Valid() && told == []
    {
      counts, told := BreakerCounts(0, 0, 0), [];
    }

    method Hear(state: Mode)
      requires Valid()
      modifies this
      ensures Valid() && told == old(told) + [state]
    {
      CountAppend(told, state, Is(Closed));
      CountAppend(told, state, Is(Open));
      CountAppend(told, state, Is(HalfOpen));
      match state {
        case Closed => counts := counts.(closed := counts.closed + 1);
        case Open => counts := counts.(open := counts.open + 1);
        case HalfOpen => counts := counts.(halfOpen := counts.halfOpen + 1);
      }
      told := told + [state];
    }
  }

  class InMemoryCircuitBreaker {
    var state: Mode
    var failures: nat
    var openedAt: int
    var halfOpenAttempts: int
    const options: Options
    const listener: BreakerStats

    constructor (options: Options, listener: BreakerStats)
      ensures Value() == NEW_BREAKER && this.options == options && this.listener == listener
    {
      this.options, this.listener := options, listener;
      state, failures, openedAt, halfOpenAttempts := Closed, 0, 0, 0;
    }

    function Value(): Breaker
      reads this
    {
      Breaker(state, failures, openedAt, halfOpenAttempts)
    }

    /** The listener, whatever it has heard from other breakers, hears of every change of state, once, and
        of nothing else. */
    twostate predicate Told()
      reads this, listener
    {
      listener.Valid()
      && listener.told == if state == old(state) then old(listener.told) else old(listener.told) + [state]
    }

    /** exec up to the call of the action; if it does not admit, it throws CircuitOpenError. */
    method Begin(now: int) returns (admitted: bool)
      requires listener.Valid()
      modifies this, listener
      ensures (Value(), admitted) == Admit(old(Value()), options, now) && Told()
    {
      if state == Open {
        if now - openedAt >= options.cooldownMs {
          halfOpenAttempts := 0;
          Transition(HalfOpen);
        } else {
          return false;
        }
      }
      if state == HalfOpen {
        if halfOpenAttempts >= options.halfOpenMaxAttempts {
          return false;
        }
        halfOpenAttempts := halfOpenAttempts + 1;
      }
      return true;
    }

    method OnSuccess()
      requires listener.Valid()
      modifies this, listener
      ensures Value() == BreakerModel.OnSuccess(old(Value())) && Told()
    {
      failures := 0;
      if state != Closed {
        halfOpenAttempts := 0;
        Transition(Closed);
      }
    }

    method OnFailure(now: int)
      requires listener.Valid()
      modifies this, listener
      ensures Value() == BreakerModel.OnFailure(old(Value()), options, now) && Told()
    {
      if state == HalfOpen {
        openedAt := now;
        Transition(Open);
        return;
      }
      failures := failures + 1;
      if failures >= options.failureThreshold {
        openedAt := now;
        Transition(Open);
      }
    }

    method Transition(next: Mode)
      requires listener.Valid()
      modifies this`state, listener
      ensures state == next && Told()
    {
      if next == state {
        return;
      }
      state := next;
      listener.Hear(next);
    }
  }
}
