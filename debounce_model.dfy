/**
 * The `debounce` wrapper as values, over a discrete abstract clock.
 *
 * The wrapper owns one timer slot. Every call of the wrapped function clears
 * the slot and schedules a new timer that, `delay` time units later, calls
 * `func` with that call's arguments and resolves that call's promise with the
 * result. Calls are numbered from 0 in the order they are made; the number of
 * a call names its promise. `Tick(now)` is the runtime delivering the timer
 * when the clock reads `now`.
 */
module DebounceModel {
  import opened Wrappers

  /** The delay used when the caller gives none. */
  const DefaultDelay: nat := 500

  /** The one scheduled timer: the call that scheduled it, that call's arguments, and when it is due. */
  datatype Timer<A> = Timer(call: nat, args: A, deadline: int)

  /**
   * `calls` holds the arguments of every call made so far; `invocations` the
   * arguments of every run of `func`, in order; `resolved` the value each
   * settled promise resolved to, keyed by call number.
   */
  datatype State<A, O> = State(
    delay: nat,
    calls: seq<A>,
    pending: Option<Timer<A>>,
    invocations: seq<A>,
    resolved: map<nat, O>)

  datatype Event<A> = CallAt(args: A, now: int) | TickAt(now: int)

  /**
   * The pending timer, when there is one, belongs to the latest call and its
   * promise is unsettled; every settled promise holds `func` applied to its
   * own call's arguments; `func` ran once per settled promise.
   */
  ghost predicate Inv<A, O>(s: State<A, O>, func: A -> O) {
    && (s.pending.Some? ==>
          && s.pending.value.call == |s.calls| - 1
          && s.pending.value.args == s.calls[s.pending.value.call]
          && s.pending.value.call !in s.resolved)
    && (forall id :: id in s.resolved ==> id < |s.calls| && s.resolved[id] == func(s.calls[id]))
    && |s.invocations| == |s.resolved|
  }

  /** The wrapper right after `debounce(func, delay)`: no call, no timer. */
  function Init<A, O>(delay: nat): (s: State<A, O>)
    ensures s.delay == delay
    ensures s.pending == None && s.calls == [] && s.invocations == [] && s.resolved == map[]
  {
    State(delay, [], None, [], map[])
  }

  /**
   * A call of the wrapped function at time `now`: the previous timer is
   * dropped and a timer for this call, due `delay` later, takes its place.
   * `func` does not run and no promise settles.
   */
  function Call<A, O>(s: State<A, O>, args: A, now: int): (r: State<A, O>)
    ensures r.pending == Some(Timer(|s.calls|, args, now + s.delay))
    ensures r.calls == s.calls + [args]
    ensures r.invocations == s.invocations && r.resolved == s.resolved && r.delay == s.delay
  {
    s.(calls := s.calls + [args], pending := Some(Timer(|s.calls|, args, now + s.delay)))
  }

  /** The pending timer is due at time `now`. */
  predicate Due<A, O>(s: State<A, O>, now: int) {
    s.pending.Some? && now >= s.pending.value.deadline
  }

  /**
   * The clock reads `now`: a due timer runs `func` on its call's arguments,
   * resolves that call's promise with the result and empties the slot; before
   * the deadline, or with no timer, nothing happens.
   */
  function Tick<A, O>(s: State<A, O>, func: A -> O, now: int): (r: State<A, O>)
    ensures Due(s, now) ==> r.pending == None
    ensures Due(s, now) ==> r.invocations == s.invocations + [s.pending.value.args]
    ensures Due(s, now) ==> r.resolved == s.resolved[s.pending.value.call := func(s.pending.value.args)]
    ensures !Due(s, now) ==> r == s
    ensures r.calls == s.calls && r.delay == s.delay
  {
    match s.pending
    case Some(t) =>
      if now >= t.deadline then
        s.(pending := None, invocations := s.invocations + [t.args], resolved := s.resolved[t.call := func(t.args)])
      else s
    case None => s
  }

  function Step<A, O>(s: State<A, O>, func: A -> O, e: Event<A>): (r: State<A, O>) {
    match e
    case CallAt(args, now) => Call(s, args, now)
    case TickAt(now) => Tick(s, func, now)
  }

  /** The state after the events `evs`, in order. */
  function Run<A, O>(s: State<A, O>, func: A -> O, evs: seq<Event<A>>): (r: State<A, O>)
    decreases |evs|
  {
    if evs == [] then s else Run(Step(s, func, evs[0]), func, evs[1..])
  }

  lemma StepPreservesInv<A, O>(s: State<A, O>, func: A -> O, e: Event<A>)
    requires Inv(s, func)
    ensures Inv(Step(s, func, e), func)
  {
    match e
    case CallAt(args, now) =>
      var r := Call(s, args, now);
      assert r.calls[|s.calls|] == args;
      forall id | id in r.resolved
        ensures id < |r.calls| && r.resolved[id] == func(r.calls[id])
      {
        assert r.calls[id] == s.calls[id];
      }
    case TickAt(now) =>
      if Due(s, now) {
        var t := s.pending.value;
        assert t.call !in s.resolved;
        assert |s.resolved[t.call := func(t.args)]| == |s.resolved| + 1;
      }
  }

  /** Every sequence of calls and ticks keeps `Inv`. */
  lemma {:induction false} RunPreservesInv<A, O>(s: State<A, O>, func: A -> O, evs: seq<Event<A>>)
    requires Inv(s, func)
    ensures Inv(Run(s, func, evs), func)
    decreases |evs|
  {
    if evs != [] {
      StepPreservesInv(s, func, evs[0]);
      RunPreservesInv(Step(s, func, evs[0]), func, evs[1..]);
    }
  }

  /**
   * A superseded promise never resolves: once call `id`'s promise is
   * unsettled and its timer is no longer the pending one, no later call or
   * tick settles it.
   */
  lemma {:induction false} SupersededNeverResolves<A, O>(s: State<A, O>, func: A -> O, evs: seq<Event<A>>, id: nat)
    requires id < |s.calls| && id !in s.resolved
    requires s.pending.None? || s.pending.value.call != id
    ensures id !in Run(s, func, evs).resolved
    decreases |evs|
  {
    if evs != [] {
      var s' := Step(s, func, evs[0]);
      assert id !in s'.resolved;
      SupersededNeverResolves(s', func, evs[1..], id);
    }
  }

  /** After a burst of calls only, the slot holds the last call's timer and nothing ran. */
  lemma {:induction false} RunCalls<A, O>(s: State<A, O>, func: A -> O, evs: seq<Event<A>>)
    requires evs != [] && forall i :: 0 <= i < |evs| ==> evs[i].CallAt?
    ensures Run(s, func, evs).pending ==
              Some(Timer(|s.calls| + |evs| - 1, evs[|evs| - 1].args, evs[|evs| - 1].now + s.delay))
    ensures |Run(s, func, evs).calls| == |s.calls| + |evs|
    ensures Run(s, func, evs).calls[..|s.calls|] == s.calls
    ensures Run(s, func, evs).invocations == s.invocations && Run(s, func, evs).resolved == s.resolved
    ensures Run(s, func, evs).delay == s.delay
    decreases |evs|
  {
    var s' := Call(s, evs[0].args, evs[0].now);
    assert Step(s, func, evs[0]) == s';
    if |evs| > 1 {
      RunCalls(s', func, evs[1..]);
      var r := Run(s', func, evs[1..]);
      assert r.calls[..|s.calls|] == r.calls[..|s'.calls|][..|s.calls|];
    }
  }

  /** Each call of `evs` comes before the previous call's timer is due, at the same time or later. */
  predicate WithinWindow<A>(evs: seq<Event<A>>, delay: nat)
    decreases |evs|
  {
    |evs| <= 1 || (evs[0].now <= evs[1].now < evs[0].now + delay && WithinWindow(evs[1..], delay))
  }

  /** A tick before the last call of a burst is due runs nothing: the earlier deadlines were all cleared. */
  lemma BurstWaits<A, O>(s: State<A, O>, func: A -> O, evs: seq<Event<A>>, now: int)
    requires evs != [] && forall i :: 0 <= i < |evs| ==> evs[i].CallAt?
    requires WithinWindow(evs, s.delay)
    requires now < evs[|evs| - 1].now + s.delay
    ensures Tick(Run(s, func, evs), func, now).invocations == s.invocations
    ensures Tick(Run(s, func, evs), func, now).resolved == s.resolved
  {
    RunCalls(s, func, evs);
  }

  /**
   * A burst of calls, each made before the previous call's timer is due,
   * collapses into one run of `func`: a tick at or after the last call's
   * deadline runs `func` exactly once, on the last call's arguments, and
   * settles the last call's promise with the result.
   */
  lemma BurstFiresOnce<A, O>(s: State<A, O>, func: A -> O, evs: seq<Event<A>>, now: int)
    requires evs != [] && forall i :: 0 <= i < |evs| ==> evs[i].CallAt?
    requires WithinWindow(evs, s.delay)
    requires now >= evs[|evs| - 1].now + s.delay
    ensures Tick(Run(s, func, evs), func, now).invocations == s.invocations + [evs[|evs| - 1].args]
    ensures Tick(Run(s, func, evs), func, now).resolved ==
              s.resolved[|s.calls| + |evs| - 1 := func(evs[|evs| - 1].args)]
    ensures Tick(Run(s, func, evs), func, now).pending == None
  {
    LastTimerPending(s, func, evs);
    FiresLastTimer(s, func, evs, now);
  }

  /** A tick at or after the deadline of the timer left pending by the calls `evs` runs the last of them. */
  lemma FiresLastTimer<A, O>(s: State<A, O>, func: A -> O, evs: seq<Event<A>>, now: int)
    requires evs != [] && evs[|evs| - 1].CallAt?
    requires var r := Run(s, func, evs);
             && r.pending == Some(Timer(|s.calls| + |evs| - 1, evs[|evs| - 1].args, evs[|evs| - 1].now + s.delay))
             && r.invocations == s.invocations && r.resolved == s.resolved
    requires now >= evs[|evs| - 1].now + s.delay
    ensures Tick(Run(s, func, evs), func, now).invocations == s.invocations + [evs[|evs| - 1].args]
    ensures Tick(Run(s, func, evs), func, now).resolved ==
              s.resolved[|s.calls| + |evs| - 1 := func(evs[|evs| - 1].args)]
    ensures Tick(Run(s, func, evs), func, now).pending == None
  {
    var last := evs[|evs| - 1];
    TickFires(Run(s, func, evs), func, now, |s.calls| + |evs| - 1, last.args, last.now + s.delay);
  }

  /** A tick at or after the pending timer's deadline runs `func` on its arguments and settles its call. */
  lemma TickFires<A, O>(r: State<A, O>, func: A -> O, now: int, id: nat, args: A, deadline: int)
    requires r.pending == Some(Timer(id, args, deadline)) && now >= deadline
    ensures Tick(r, func, now).invocations == r.invocations + [args]
    ensures Tick(r, func, now).resolved == r.resolved[id := func(args)]
    ensures Tick(r, func, now).pending == None
  {
  }

  /** The part of `RunCalls` that the tick after a burst depends on. */
  lemma LastTimerPending<A, O>(s: State<A, O>, func: A -> O, evs: seq<Event<A>>)
    requires evs != [] && forall i :: 0 <= i < |evs| ==> evs[i].CallAt?
    ensures var r := Run(s, func, evs);
            && r.pending == Some(Timer(|s.calls| + |evs| - 1, evs[|evs| - 1].args, evs[|evs| - 1].now + s.delay))
            && r.invocations == s.invocations && r.resolved == s.resolved
  {
    RunCalls(s, func, evs);
  }

  /** Of a burst's promises, only the last can be settled by the tick that follows it. */
  lemma BurstSettlesOnlyLast<A, O>(s: State<A, O>, func: A -> O, evs: seq<Event<A>>, now: int, id: nat)
    requires Inv(s, func)
    requires evs != [] && forall i :: 0 <= i < |evs| ==> evs[i].CallAt?
    requires WithinWindow(evs, s.delay)
    requires |s.calls| <= id < |s.calls| + |evs| - 1
    ensures id !in Tick(Run(s, func, evs), func, now).resolved
  {
    RunCalls(s, func, evs);
    assert id !in s.resolved;
  }
}
