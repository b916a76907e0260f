/**
 * The coalescing redraw scheduler `drawProc(f)`.
 *
 * `drawProc(f)` returns a function that, when called while no callback is
 * outstanding, sets the captured flag `requested` and hands one callback to the
 * host timer; that callback captured the argument array of this call. Calls made
 * while `requested` is set do nothing. When the timer runs the callback, it first
 * clears `requested` and then runs `f` with the captured argument array.
 *
 * The state of one instance is the closure's flag together with the host's queue
 * of scheduled, not yet run callbacks (each represented by the argument array it
 * captured). The timer itself is the explicit `Fire` event.
 */
module Coalescing {

  /** Closure flag `requested` plus the callbacks the host timer still holds. */
  datatype Machine<A> = Machine(requested: bool, scheduled: seq<seq<A>>)

  /** A call of the scheduled function with its arguments, or one run of the host timer. */
  datatype Event<A> = Call(args: seq<A>) | Fire

  /** The state right after `drawProc(f)` returns: flag clear, nothing scheduled. */
  function Initial<A>(): Machine<A>
  {
    Machine(false, [])
  }

  /** At most one callback is outstanding, and one is outstanding exactly when `requested` is set. */
  predicate Inv<A>(m: Machine<A>)
  {
    |m.scheduled| <= 1 && (m.requested <==> |m.scheduled| == 1)
  }

  /** One call of the function `drawProc` returned. */
  function OnCall<A>(m: Machine<A>, args: seq<A>): (r: Machine<A>)
    ensures Inv(m) ==> Inv(r)
    ensures m.requested ==> r == m
    ensures Inv(m) && !m.requested ==> r == Machine(true, [args])
  {
    if !m.requested then Machine(true, m.scheduled + [args]) else m
  }

  /** One run of the host timer: the earliest scheduled callback, if there is one. */
  function OnFire<A>(m: Machine<A>): (r: Machine<A>)
    ensures Inv(m) ==> Inv(r)
    ensures Inv(m) && m.requested ==> r == Initial()
    ensures !m.requested && Inv(m) ==> r == m
  {
    if m.scheduled == [] then m else Machine(false, m.scheduled[1..])
  }

  /** The argument arrays `f` is run with during one event: none, or the captured one. */
  function Delivered<A>(m: Machine<A>, e: Event<A>): (d: seq<seq<A>>)
    ensures |d| <= 1
    ensures e.Call? ==> d == []
    ensures e.Fire? && Inv(m) ==> (d != [] <==> m.requested)
    ensures d != [] ==> d[0] in m.scheduled
  {
    if e.Fire? && m.scheduled != [] then [m.scheduled[0]] else []
  }

  function Step<A>(m: Machine<A>, e: Event<A>): Machine<A>
  {
    match e
    case Call(args) => OnCall(m, args)
    case Fire => OnFire(m)
  }

  /** The state after a trace of events. */
  function Run<A>(m: Machine<A>, es: seq<Event<A>>): Machine<A>
    decreases |es|
  {
    if es == [] then m else Run(Step(m, es[0]), es[1..])
  }

  /** Every argument array `f` is run with during a trace, in order. */
  function Deliveries<A>(m: Machine<A>, es: seq<Event<A>>): seq<seq<A>>
    decreases |es|
  {
    if es == [] then [] else Delivered(m, es[0]) + Deliveries(Step(m, es[0]), es[1..])
  }

  /** A burst of calls, one per argument array. */
  function Calls<A>(argss: seq<seq<A>>): (es: seq<Event<A>>)
    ensures |es| == |argss|
    ensures forall i :: 0 <= i < |es| ==> es[i] == Call(argss[i])
  {
    if argss == [] then [] else [Call(argss[0])] + Calls(argss[1..])
  }

  /** Number of timer runs in a trace. */
  function FireCount<A>(es: seq<Event<A>>): nat
  {
    if es == [] then 0 else (if es[0].Fire? then 1 else 0) + FireCount(es[1..])
  }

  /** Number of calls in a trace. */
  function CallCount<A>(es: seq<Event<A>>): nat
  {
    if es == [] then 0 else (if es[0].Call? then 1 else 0) + CallCount(es[1..])
  }

  // ---------------------------------------------------------------------------
  // Properties of traces

  /** No trace ever leaves more than one callback outstanding. */
  lemma {:induction false} RunKeepsInv<A>(m: Machine<A>, es: seq<Event<A>>)
    requires Inv(m)
    ensures Inv(Run(m, es))
    decreases |es|
  {
    if es != [] {
      assert Inv(Step(m, es[0]));
      RunKeepsInv(Step(m, es[0]), es[1..]);
    }
  }

  /** Running two traces one after the other is running their concatenation. */
  lemma {:induction false} RunAppend<A>(m: Machine<A>, xs: seq<Event<A>>, ys: seq<Event<A>>)
    ensures Run(m, xs + ys) == Run(Run(m, xs), ys)
    ensures Deliveries(m, xs + ys) == Deliveries(m, xs) + Deliveries(Run(m, xs), ys)
    decreases |xs|
  {
    if xs != [] {
      assert (xs + ys)[0] == xs[0];
      assert (xs + ys)[1..] == xs[1..] + ys;
      RunAppend(Step(m, xs[0]), xs[1..], ys);
    } else {
      assert xs + ys == ys;
    }
  }

  /** Calls made while a callback is outstanding change nothing and run nothing. */
  lemma {:induction false} CallsWhilePendingAreDropped<A>(m: Machine<A>, argss: seq<seq<A>>)
    requires m.requested
    ensures Run(m, Calls(argss)) == m
    ensures Deliveries(m, Calls(argss)) == []
    decreases |argss|
  {
    if argss != [] {
      var es := Calls(argss);
      assert es[0] == Call(argss[0]);
      assert es[1..] == Calls(argss[1..]);
      CallsWhilePendingAreDropped(m, argss[1..]);
    }
  }

  /**
   * Coalescing: from an idle state, a burst of calls followed by one timer run
   * runs `f` exactly once, with the argument array of the FIRST call of the
   * burst, and leaves the scheduler idle again.
   */
  lemma Coalesce<A>(m: Machine<A>, first: seq<A>, rest: seq<seq<A>>)
    requires Inv(m) && !m.requested
    ensures Run(m, [Call(first)] + Calls(rest) + [Fire]) == Initial()
    ensures Deliveries(m, [Call(first)] + Calls(rest) + [Fire]) == [first]
  {
    var m1 := OnCall(m, first);
    assert Run(m, [Call(first)]) == m1 by {
      assert Run(m1, []) == m1;
    }
    assert Deliveries(m, [Call(first)]) == [];
    CallsWhilePendingAreDropped(m1, rest);
    RunAppend(m, [Call(first)], Calls(rest));
    RunAppend(m, [Call(first)] + Calls(rest), [Fire]);
    assert Run(m1, [Fire]) == Initial() by {
      assert Run(OnFire(m1), []) == OnFire(m1);
    }
    assert Deliveries(m1, [Fire]) == [first];
  }

  /** After a timer run the next call schedules anew (a call made from inside `f` is this `Call` right after `Fire`). */
  lemma CallAfterFireSchedules<A>(m: Machine<A>, args: seq<A>)
    requires Inv(m) && m.requested
    ensures Run(m, [Fire, Call(args)]) == Machine(true, [args])
    ensures Deliveries(m, [Fire, Call(args)]) == [m.scheduled[0]]
  {
    var es := [Fire, Call(args)];
    assert es[1..] == [Call(args)];
    var m1 := OnFire(m);
    assert m1 == Initial();
    assert Run(m1, [Call(args)]) == Run(Machine(true, [args]), []);
    assert Deliveries(m1, [Call(args)]) == [] + Deliveries(Machine(true, [args]), []);
  }

  /** Every argument array `f` runs with was captured earlier or passed by a call of the trace. */
  lemma {:induction false} DeliveriesComeFromCalls<A>(m: Machine<A>, es: seq<Event<A>>)
    ensures forall d :: d in Deliveries(m, es) ==> d in m.scheduled || Call(d) in es
    decreases |es|
  {
    if es != [] {
      var m1 := Step(m, es[0]);
      DeliveriesComeFromCalls(m1, es[1..]);
      forall d | d in Deliveries(m, es)
        ensures d in m.scheduled || Call(d) in es
      {
        if d in Delivered(m, es[0]) {
        } else {
          assert d in Deliveries(m1, es[1..]);
          assert d in m1.scheduled || Call(d) in es[1..];
          if d in m1.scheduled && d !in m.scheduled {
            assert es[0] == Call(d);
          }
        }
      }
    }
  }

  /** `f` never runs more often than the timer fires, nor more often than it was requested. */
  lemma {:induction false} DeliveriesBounded<A>(m: Machine<A>, es: seq<Event<A>>)
    requires Inv(m)
    ensures |Deliveries(m, es)| <= FireCount(es)
    ensures |Deliveries(m, es)| + |Run(m, es).scheduled| <= |m.scheduled| + CallCount(es)
    decreases |es|
  {
    if es != [] {
      var m1 := Step(m, es[0]);
      DeliveriesBounded(m1, es[1..]);
    }
  }

  // ---------------------------------------------------------------------------
  // The scheduler as an object: `requested` is the closure's captured flag.

  class RedrawScheduler<A> {
    var requested: bool
    /** Callbacks handed to the host timer and not yet run, each with the argument array it captured. */
    var scheduled: seq<seq<A>>

    ghost function State(): Machine<A>
      reads this
    {
      Machine(requested, scheduled)
    }

    ghost predicate Valid()
      reads this
    {
      Inv(State())
    }

    constructor ()
      ensures Valid() && State() == Initial()
    {
      requested := false;
      scheduled := [];
    }

    /** One call of the function `drawProc` returned, with `args` as its rest parameter. */
    method Call(args: seq<A>)
      requires Valid()
      modifies this
      ensures Valid()
      ensures State() == Step(old(State()), Event.Call(args))
      ensures old(requested) ==> State() == old(State())
      ensures !old(requested) ==> requested && scheduled == [args]
    {
      if !requested {
        requested := true;
        scheduled := scheduled + [args];
      }
    }

    /**
     * The host timer runs the outstanding callback: the flag is cleared, then
     * `f` is run with `params`, the argument array that callback captured.
     */
    method Fire() returns (params: seq<A>)
      requires Valid() && requested
      modifies this
      ensures Valid()
      ensures State() == Step(old(State()), Event.Fire) && State() == Initial()
      ensures [params] == Delivered(old(State()), Event.Fire)
      ensures params == old(scheduled)[0]
    {
      params := scheduled[0];
      requested := false;
      scheduled := scheduled[1..];
    }
  }
}
