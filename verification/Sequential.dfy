/** Tool calls run one after the other: `execute_single_call` without permits and
    `execute_sequential`. Each step is also taken by the machine of the parallel executor, so a
    sequential execution is one of its runs. */
module Sequential {
  import opened Values
  import opened Executor

  /** From which query on a stop is requested, which lifecycle events the sink accepts, and which
      results it accepts. */
  datatype Env = Env(stopAt: Option<nat>, accepts: nat -> bool, delivers: nat -> bool)

  predicate Stopped(env: Env, check: nat) {
    env.stopAt.Some? && env.stopAt.value <= check
  }

  /** What a call settles as when the stop has been queried `checks` times before it: it is aborted
      if the stop comes before it starts, or before its tool is launched. */
  function SettleUnder(c: Config, i: nat, x: Script, env: Env, checks: nat): Finalized {
    if Stopped(env, checks + 1) || (Passes(c, x) && Stopped(env, checks + 3)) then ErrorResult(i, ABORTED, false)
    else Settle(c, i, x)
  }

  /** Once requested, a stop stays requested; without one nothing is aborted. */
  lemma {:induction false} SettleUnstopped(c: Config, i: nat, x: Script, env: Env, checks: nat)
    requires !Stopped(env, checks + 3)
    ensures SettleUnder(c, i, x, env, checks) == Settle(c, i, x)
  {
  }

  // ---------------------------------------------------------------- steps of the machine

  lemma {:induction false} RunSnoc(c: Config, s: State, run: seq<Action>, t: State, a: Action)
    requires IsRun(c, s, run, t) && Enabled(t, a)
    ensures IsRun(c, s, run + [a], Next(c, t, a))
    decreases |run|
  {
    if run == [] {
      assert ([a])[1..] == [];
      assert run + [a] == [a];
    } else {
      assert (run + [a])[0] == run[0] && (run + [a])[1..] == run[1..] + [a];
      RunSnoc(c, Next(c, s, run[0]), run[1..], t, a);
    }
  }

  /** No task holds a permit. */
  predicate Idle(c: Config, s: State) {
    s.preparation == 1 && s.lanes == Limit(c, |s.tasks|) && s.after == 1
  }

  // ---------------------------------------------------------------- one batch

  /** The events of one call: nothing, a refused start, or a start, `updates` updates and an end. */
  predicate CallEvents(own: seq<Event>, i: nat, updates: nat) {
    && (forall k :: 0 <= k < |own| ==> own[k].call == i)
    && (|own| <= 1 ==> own == [] || own == [StartEvent(i, false)])
    && (|own| >= 2 ==> |own| == updates + 2 && Complete(own))
  }

  /** How many updates a call's tool reports: none if it is not launched. */
  function Updates(c: Config, x: Script, env: Env, checks: nat): nat {
    if Passes(c, x) && !Stopped(env, checks + 3) then x.updates else 0
  }

  /** Updates of one call. */
  predicate UpdatesOf(updates: seq<Event>, i: nat) {
    forall k :: 0 <= k < |updates| ==> updates[k].UpdateEvent? && updates[k].call == i
  }

  function CompleteCall(i: nat, updates: seq<Event>, ok: bool): seq<Event> {
    [StartEvent(i, true)] + updates + [EndEvent(i, ok)]
  }

  lemma {:induction false} CompleteCallEvents(before: seq<Event>, i: nat, updates: seq<Event>, ok: bool)
    requires UpdatesOf(updates, i)
    ensures CallEvents(CompleteCall(i, updates, ok), i, |updates|)
    ensures before + [StartEvent(i, true)] + updates + [EndEvent(i, ok)] == before + CompleteCall(i, updates, ok)
  {
    var own := CompleteCall(i, updates, ok);
    assert own[..|own| - 1] == [StartEvent(i, true)] + updates;
    assert own[..|own| - 1][1..] == updates;
  }

  /** Settled calls make the sequential batch. */
  lemma {:induction false} AllSettled(c: Config, scripts: seq<Script>, finals: seq<Finalized>)
    requires |finals| == |scripts| && forall k: nat :: k < |finals| ==> finals[k] == Settle(c, k, scripts[k])
    ensures MakeBatch(finals) == SequentialBatch(c, scripts) && BatchSays(c, scripts, MakeBatch(finals))
  {
    SequentialSays(c, scripts);
    assert finals == SequentialResults(c, scripts);
  }

  class Batch {
    const c: Config
    const env: Env
    /** How often the stop was queried, and the lifecycle events emitted so far. */
    var checks: nat
    var events: seq<Event>
    /** The same execution on the machine of the parallel executor. */
    ghost const calls: nat
    ghost var run: seq<Action>
    ghost var machine: State

    /** The machine made the same steps, up to an event that was just emitted. */
    ghost predicate Mirrors()
      reads this
    {
      && IsRun(c, Initial(c, calls), run, machine) && |machine.tasks| == calls
      && (machine.stop ==> Stopped(env, checks))
    }

    ghost predicate Valid()
      reads this
    {
      Mirrors() && machine.events == events
    }

    constructor (c: Config, env: Env, ghost calls: nat)
      ensures Valid() && Idle(c, machine) && checks == 0 && events == []
      ensures this.c == c && this.env == env && this.calls == calls && machine == Initial(c, calls)
    {
      this.c, this.env, this.calls := c, env, calls;
      checks, events, run, machine := 0, [], [], Initial(c, calls);
    }

    /** Task `i` takes an action that has the effect `e`. */
    ghost method Step(i: nat, a: Action, e: Effect)
      requires Mirrors() && Enabled(machine, a) && !a.RequestStop? && a.task == i
      requires e == React(c, machine.stop, machine.tasks[i], a)
      modifies this`run, this`machine
      ensures IsRun(c, Initial(c, calls), run, machine)
      ensures machine.tasks == old(machine.tasks)[i := e.pc] && machine.stop == old(machine.stop)
      ensures machine.events == old(machine.events) + e.emitted
      ensures machine.preparation == old(machine.preparation) + e.preparation
      ensures machine.lanes == old(machine.lanes) + e.lanes && machine.after == old(machine.after) + e.after
      ensures machine.emitError == (old(machine.emitError) || e.emitError)
      ensures machine.fatalError == (old(machine.fatalError) || e.fatalError)
    {
      RunSnoc(c, Initial(c, calls), run, machine, a);
      run := run + [a];
      machine := Next(c, machine, a);
    }

    method StopRequested() returns (stop: bool)
      requires Valid()
      modifies this`checks, this`run, this`machine
      ensures Valid() && checks == old(checks) + 1 && stop == Stopped(env, checks)
      ensures machine == old(machine).(stop := stop)
    {
      checks := checks + 1;
      stop := Stopped(env, checks);
      if stop {
        RunSnoc(c, Initial(c, calls), run, machine, RequestStop);
        run := run + [RequestStop];
        machine := Next(c, machine, RequestStop);
      }
    }

    /** Resolve the call and ask the before hook: what the call settles as already, or the arguments to
        run the tool with. */
    method Decide(i: nat, x: Script) returns (settled: Option<Finalized>, arguments: string)
      ensures settled == if Passes(c, x) then None else Some(Settle(c, i, x))
      ensures Passes(c, x) ==> arguments == Arguments(c, x)
    {
      settled, arguments := None, "";
      match x.resolution {
        case Rejected(message) =>
          settled := Some(ErrorResult(i, message, false));
        case Resolved(prepared) =>
          arguments := prepared;
          if c.beforeHook {
            match x.before {
              case BeforeFails(message) => settled := Some(ErrorResult(i, message, false));
              case Blocks(reason, terminate) =>
                settled := Some(ErrorResult(i, OrElse(reason, BLOCKED), OrElse(terminate, false)));
              case Proceeds(replaced) =>
                if replaced.Some? { arguments := replaced.value; }
            }
          }
      }
    }

    /** The machine resolves the call, asks the before hook and passes the stop check. */
    ghost method Prepared(i: nat, x: Script) returns (pc: Pc)
      requires Valid() && i < calls && machine.tasks[i].Resolving?
      modifies this`run, this`machine
      ensures Valid() && machine.stop == old(machine.stop)
      ensures machine.tasks == old(machine.tasks)[i := pc] && machine.lanes == old(machine.lanes) && machine.after == old(machine.after)
      ensures pc == if !Passes(c, x) then Closing(Settle(c, i, x), true, false)
                    else if machine.stop then Closing(ErrorResult(i, ABORTED, false), true, false)
                    else WaitLane(Arguments(c, x))
      ensures machine.preparation == old(machine.preparation) + if pc.WaitLane? then 1 else 0
    {
      var e := React(c, machine.stop, Resolving, Resolve(i, x.resolution));
      Step(i, Resolve(i, x.resolution), e);
      if e.pc.InBeforeHook? {
        e := React(c, machine.stop, e.pc, FinishBefore(i, x.before));
        Step(i, FinishBefore(i, x.before), e);
      }
      pc := e.pc;
    }

    /** The tool runs with its updates. */
    method RunTool(i: nat, x: Script, arguments: string) returns (outcome: Outcome, ghost updates: seq<Event>)
      requires Valid() && i < calls && machine.tasks[i] == Executing(arguments)
      modifies this`events, this`run, this`machine
      ensures Valid() && outcome == x.tool(arguments) && machine == old(machine).(events := events)
      ensures events == old(events) + updates && UpdatesOf(updates, i) && |updates| == x.updates
    {
      updates := [];
      for n := 0 to x.updates
        invariant Valid() && machine == old(machine).(events := events)
        invariant events == old(events) + updates && UpdatesOf(updates, i) && |updates| == n
      {
        var ok := env.accepts(|events|);
        updates := updates + [UpdateEvent(i, ok)];
        events := events + [UpdateEvent(i, ok)];
        Step(i, Update(i, ok), Goes(machine.tasks[i]).(emitted := [UpdateEvent(i, ok)]));
      }
      outcome := x.tool(arguments);
    }

    /** The machine finishes the tool and asks the after hook. */
    ghost method Finished(i: nat, x: Script, outcome: Outcome, settled: Finalized)
      requires Valid() && i < calls && machine.tasks[i].Executing? && machine.after > 0
      requires settled == if c.afterHook then Amended(i, outcome, x.after) else ToolOutcome(i, outcome)
      modifies this`run, this`machine
      ensures Valid() && machine.stop == old(machine.stop)
      ensures machine.tasks == old(machine.tasks)[i := Closing(settled, false, false)]
      ensures machine.preparation == old(machine.preparation) && machine.lanes == old(machine.lanes) + 1 && machine.after == old(machine.after)
    {
      var e := React(c, machine.stop, machine.tasks[i], FinishTool(i, outcome));
      Step(i, FinishTool(i, outcome), e);
      if c.afterHook {
        Step(i, TakeAfter(i), Goes(InAfterHook(outcome)).(after := -1));
        Step(i, FinishAfter(i, x.after), Goes(Closing(settled, false, false)).(after := 1));
      }
    }

    /** Take a lane; give it back if a stop is requested. */
    method LaunchTool(i: nat, arguments: string) returns (stop: bool)
      requires Valid() && i < calls && machine.tasks[i] == WaitLane(arguments) && Idle(c, machine)
      modifies this`checks, this`run, this`machine
      ensures Valid() && checks == old(checks) + 1 && stop == Stopped(env, checks)
      ensures machine.tasks == old(machine.tasks)[i := if stop then Closing(ErrorResult(i, ABORTED, false), false, false)
                                                       else Executing(arguments)]
      ensures machine.preparation == 1 && machine.after == 1
      ensures machine.lanes == Limit(c, calls) - if stop then 0 else 1
    {
      Step(i, TakeLane(i), Goes(HaveLane(arguments)).(lanes := -1));
      stop := StopRequested();
      ghost var e := React(c, stop, HaveLane(arguments), Launch(i));
      Step(i, Launch(i), e);
    }

    /** `execute_resolved_call`: the stop check, the tool with its updates, and the after hook. */
    method Execute(i: nat, x: Script, arguments: string) returns (settled: Finalized, ghost updates: seq<Event>)
      requires Valid() && i < calls && machine.tasks[i] == WaitLane(arguments) && Idle(c, machine)
      requires Passes(c, x) && arguments == Arguments(c, x)
      modifies this`checks, this`events, this`run, this`machine
      ensures Valid() && checks == old(checks) + 1 && Idle(c, machine)
      ensures settled == if Stopped(env, checks) then ErrorResult(i, ABORTED, false) else Settle(c, i, x)
      ensures machine.tasks == old(machine.tasks)[i := Closing(settled, false, false)]
      ensures events == old(events) + updates && UpdatesOf(updates, i)
      ensures |updates| == if Stopped(env, checks) then 0 else x.updates
    {
      updates := [];
      var stop := LaunchTool(i, arguments);
      if stop {
        return ErrorResult(i, ABORTED, false), [];
      }
      var outcome;
      outcome, updates := RunTool(i, x, arguments);
      settled := ToolOutcome(i, outcome);
      if c.afterHook {
        settled := Amended(i, outcome, x.after);
      }
      Finished(i, x, outcome, settled);
    }

    /** `execute_single_call` without permits: the call settles as the stop requests say, emits its start,
        updates and end, and gives no result exactly when its start or end was refused. */
    method SingleCall(i: nat, x: Script) returns (r: Option<Finalized>, ghost own: seq<Event>)
      requires Valid() && i < calls && machine.tasks[i].WaitPreparation? && Idle(c, machine)
      modifies this`checks, this`events, this`run, this`machine
      ensures Valid() && Idle(c, machine) && old(checks) < checks <= old(checks) + 3
      ensures machine.tasks == old(machine.tasks)[i := Done(r)]
      ensures events == old(events) + own && CallEvents(own, i, Updates(c, x, env, old(checks)))
      ensures own == [] <==> Stopped(env, old(checks) + 1)
      ensures r.None? <==> own == [StartEvent(i, false)] || (own != [] && own[|own| - 1] == EndEvent(i, false))
      ensures r.Some? ==> r.value == SettleUnder(c, i, x, env, old(checks))
      ensures r.Some? && !Stopped(env, checks) ==> r.value == Settle(c, i, x)
    {
      var start := Start(i);
      if start.None? {
        return Some(ErrorResult(i, ABORTED, false)), [];
      }
      if !start.value {
        return None, [StartEvent(i, false)];
      }
      var settled; ghost var updates;
      settled, updates := Settled(i, x);
      var ok := End(i, settled);
      r := if ok then Some(settled) else None;
      CompleteCallEvents(old(events), i, updates, ok);
      own := CompleteCall(i, updates, ok);
    }

    /** Take the preparation permit and emit the start, unless a stop is requested. */
    method Start(i: nat) returns (ok: Option<bool>)
      requires Valid() && i < calls && machine.tasks[i].WaitPreparation? && Idle(c, machine)
      modifies this`checks, this`events, this`run, this`machine
      ensures Valid() && checks == old(checks) + 1 && (ok.None? <==> Stopped(env, checks))
      ensures machine.lanes == Limit(c, calls) && machine.after == 1
      ensures machine.preparation == if ok == Some(true) then 0 else 1
      ensures machine.tasks == old(machine.tasks)[i := match ok
                                                       case None => Done(Some(ErrorResult(i, ABORTED, false)))
                                                       case Some(accepted) => if accepted then Resolving else Done(None)]
      ensures events == old(events) + if ok.Some? then [StartEvent(i, ok.value)] else []
    {
      Step(i, TakePreparation(i), Goes(Preparing).(preparation := -1));
      var stop := StopRequested();
      if stop {
        Step(i, Begin(i, true), Goes(Done(Some(ErrorResult(i, ABORTED, false)))).(preparation := 1));
        return None;
      }
      var accepted := env.accepts(|events|);
      events := events + [StartEvent(i, accepted)];
      Step(i, Begin(i, accepted), React(c, false, Preparing, Begin(i, accepted)));
      return Some(accepted);
    }

    /** Emit the end and give back what is still held. */
    method End(i: nat, settled: Finalized) returns (ok: bool)
      requires Valid() && i < calls && machine.preparation <= 1 && machine.lanes == Limit(c, calls) && machine.after == 1
      requires machine.tasks[i] == Closing(settled, machine.preparation == 0, false)
      modifies this`events, this`run, this`machine
      ensures Valid() && Idle(c, machine) && events == old(events) + [EndEvent(i, ok)]
      ensures machine.tasks == old(machine.tasks)[i := Done(if ok then Some(settled) else None)]
    {
      ok := env.accepts(|events|);
      events := events + [EndEvent(i, ok)];
      Step(i, Close(i, ok), React(c, machine.stop, machine.tasks[i], Close(i, ok)));
    }

    /** What a started call settles as. */
    method Settled(i: nat, x: Script) returns (settled: Finalized, ghost updates: seq<Event>)
      requires Valid() && i < calls && machine.tasks[i].Resolving? && !Stopped(env, checks) && checks > 0
      requires machine.preparation == 0 && machine.lanes == Limit(c, calls) && machine.after == 1
      modifies this`checks, this`events, this`run, this`machine
      ensures Valid() && old(checks) <= checks <= old(checks) + 2
      ensures machine.tasks == old(machine.tasks)[i := machine.tasks[i]] && machine.lanes == Limit(c, calls) && machine.after == 1
      ensures machine.tasks[i] == Closing(settled, machine.preparation == 0, false) && machine.preparation <= 1
      ensures events == old(events) + updates && UpdatesOf(updates, i)
      ensures |updates| == Updates(c, x, env, old(checks) - 1)
      ensures settled == SettleUnder(c, i, x, env, old(checks) - 1)
      ensures !Stopped(env, checks) ==> settled == Settle(c, i, x)
    {
      updates := [];
      var early, arguments := Decide(i, x);
      if early.None? {
        var stop := StopRequested();
        if stop {
          early := Some(ErrorResult(i, ABORTED, false));
        }
      }
      ghost var pc := Prepared(i, x);
      if early.Some? {
        return early.value, [];
      }
      settled, updates := Execute(i, x, arguments);
    }

    /** What an executed call left: its result on the machine, and the result the stop requests allow. */
    ghost predicate Left(scripts: seq<Script>, finals: seq<Finalized>)
      reads this
      requires |scripts| == calls
    {
      && |finals| <= calls && |machine.tasks| == calls
      && (forall k: nat :: k < |finals| ==> machine.tasks[k] == Done(Some(finals[k])))
      && (forall k: nat :: k < |finals| ==>
            finals[k] == Settle(c, k, scripts[k]) || (finals[k] == ErrorResult(k, ABORTED, false) && Stopped(env, checks)))
    }

    /** `execute_sequential`: the calls are executed in order until a stop is requested or an event or a
        result is refused. Without a stop the results are those of all calls; a stop cuts them to a
        prefix, of which only the last can have been aborted. The machine of the parallel executor
        made the same steps. */
    method ExecuteSequential(scripts: seq<Script>) returns (r: Option<BatchResult>, finals: seq<Finalized>)
      requires Valid() && Idle(c, machine) && |scripts| == calls && machine.tasks == Initial(c, calls).tasks
      modifies this`checks, this`events, this`run, this`machine
      ensures Valid() && Left(scripts, finals)
      ensures r.Some? ==> Collects(finals, r.value)
      ensures forall k: nat :: k + 1 < |finals| ==> finals[k] == Settle(c, k, scripts[k])
      ensures r.Some? && |finals| < calls ==> Stopped(env, checks)
      ensures r.Some? && !Stopped(env, checks) ==>
                r == Some(SequentialBatch(c, scripts)) && BatchSays(c, scripts, r.value)
    {
      finals := [];
      for i := 0 to |scripts|
        invariant Valid() && Idle(c, machine) && |finals| == i && Left(scripts, finals)
        invariant forall k: nat :: i <= k < calls ==> machine.tasks[k].WaitPreparation?
        invariant forall k: nat :: k < i ==> finals[k] == Settle(c, k, scripts[k])
        invariant i > 0 ==> !Stopped(env, checks)
      {
        var stop := StopRequested();
        if stop {
          break;
        }
        var one, _ := SingleCall(i, scripts[i]);
        if one.None? || !env.delivers(i) {
          return None, finals;
        }
        finals := finals + [one.value];
        stop := StopRequested();
        if stop {
          break;
        }
      }
      r := Some(MakeBatch(finals));
      MakeBatchCollects(finals);
      if !Stopped(env, checks) {
        AllSettled(c, scripts, finals);
      }
    }
  }
}
