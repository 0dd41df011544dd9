/**
 * `debounce(func, delay)` as an object: the captured timer variable is the
 * `pending` field, a call of the wrapped function is `Call`, and the runtime
 * delivering the timer is `Tick`. Each method is specified by the matching
 * step of `DebounceModel`.
 */
module Debounce {
  import opened Wrappers
  import DM = DebounceModel

  class Debouncer<A, O> {
    const func: A -> O
    const delay: nat
    /** Arguments of every call so far; a call's number (its promise) is its index. */
    var calls: seq<A>
    /** The single timer slot. */
    var pending: Option<DM.Timer<A>>
    /** Arguments of every run of `func`, in order. */
    var invocations: seq<A>
    /** The value each settled promise resolved to, by call number. */
    var resolved: map<nat, O>

    function View(): (v: DM.State<A, O>)
      reads this
    {
      DM.State(delay, calls, pending, invocations, resolved)
    }

    ghost predicate Valid()
      reads this
    {
      DM.Inv(View(), func)
    }

    constructor (func: A -> O, delay: nat)
      ensures this.func == func && View() == DM.Init(delay) && Valid()
    {
      this.func := func;
      this.delay := delay;
      calls := [];
      pending := None;
      invocations := [];
      resolved := map[];
    }

    /** `debounce(func)` with the delay left out. */
    constructor WithDefaultDelay(func: A -> O)
      ensures this.func == func && View() == DM.Init(DM.DefaultDelay) && Valid()
    {
      this.func := func;
      this.delay := DM.DefaultDelay;
      calls := [];
      pending := None;
      invocations := [];
      resolved := map[];
    }

    /** The wrapped function is called with `args` at time `now`; returns the number of the call's promise. */
    method Call(args: A, now: int) returns (promise: nat)
      requires Valid()
      modifies this
      ensures View() == DM.Call(old(View()), args, now)
      ensures promise == old(|calls|)
      ensures Valid()
    {
      promise := |calls|;
      calls := calls + [args];
      pending := Some(DM.Timer(promise, args, now + delay));
      DM.StepPreservesInv(old(View()), func, DM.CallAt(args, now));
    }

    /** The clock reads `now`; returns the value `func` produced if the timer fired. */
    method Tick(now: int) returns (fired: Option<O>)
      requires Valid()
      modifies this
      ensures View() == DM.Tick(old(View()), func, now)
      ensures fired == if DM.Due(old(View()), now) then Some(func(old(pending).value.args)) else None
      ensures Valid()
    {
      DM.StepPreservesInv(View(), func, DM.TickAt(now));
      if pending.Some? && now >= pending.value.deadline {
        var t := pending.value;
        var v := func(t.args);
        invocations := invocations + [t.args];
        resolved := resolved[t.call := v];
        pending := None;
        fired := Some(v);
      } else {
        fired := None;
      }
    }
  }

  /** A call at 0 with delay 500: nothing has run at 400, `func` has run by 800. */
  method DelayExecutionScenario() returns (runsAt400: nat, runsAt800: nat)
    ensures runsAt400 == 0 && runsAt800 == 1
  {
    var d := new Debouncer((args: seq<int>) => 0, 500);
    var promise := d.Call([], 0);
    var fired := d.Tick(400);
    runsAt400 := |d.invocations|;
    fired := d.Tick(800);
    runsAt800 := |d.invocations|;
  }

  /**
   * A second call at 400 pushes the deadline to 900: the first deadline (500)
   * passes at 800 without a run, and the first call's promise is dropped.
   */
  method RetriggerScenario() returns (runsAt400: nat, runsAt800: nat, firstSettled: bool, runsAt900: nat)
    ensures runsAt400 == 0 && runsAt800 == 0 && !firstSettled && runsAt900 == 1
  {
    var d := new Debouncer((args: seq<int>) => 0, 500);
    var first := d.Call([], 0);
    var fired := d.Tick(400);
    runsAt400 := |d.invocations|;
    var second := d.Call([], 400);
    fired := d.Tick(800);
    runsAt800 := |d.invocations|;
    fired := d.Tick(900);
    runsAt900 := |d.invocations|;
    firstSettled := first in d.resolved;
  }

  /** `func` receives the arguments given to the call. */
  method ArgumentsScenario() returns (invoked: seq<seq<int>>)
    ensures invoked == [[1, 2]]
  {
    var d := new Debouncer((args: seq<int>) => |args|, 500);
    var promise := d.Call([1, 2], 0);
    var fired := d.Tick(1000);
    invoked := d.invocations;
  }

  /** The call's promise settles with what `func` returned, once the timer ran and not before. */
  method ResultScenario() returns (settledAtCall: bool, result: Option<string>)
    ensures !settledAtCall && result == Some("hello world")
  {
    var d := new Debouncer((args: seq<int>) => "hello world", 500);
    var promise := d.Call([], 0);
    settledAtCall := promise in d.resolved;
    var fired := d.Tick(1000);
    result := if promise in d.resolved then Some(d.resolved[promise]) else None;
  }

  /** Without an explicit delay the timer is due 500 after the call. */
  method DefaultDelayScenario() returns (runsAt499: nat, runsAt500: nat)
    ensures runsAt499 == 0 && runsAt500 == 1
  {
    var d := new Debouncer.WithDefaultDelay((args: seq<int>) => 0);
    var promise := d.Call([], 0);
    var fired := d.Tick(499);
    runsAt499 := |d.invocations|;
    fired := d.Tick(500);
    runsAt500 := |d.invocations|;
  }
}
