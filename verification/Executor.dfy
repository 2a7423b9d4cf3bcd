/** The tool-call executor: N tasks that share three permit channels, as a transition system.

    One action is what a task does between two suspension points. Tools, hooks, the event sink
    and the stop request are nondeterministic: their answers are part of the action. */
module Executor {
  import opened Values

  // ---------------------------------------------------------------- results

  datatype Outcome = Outcome(content: string, details: Option<string>, isError: bool, terminate: bool)

  datatype ToolResult = ToolResult(call: nat, content: string, details: Option<string>, isError: bool)

  /** A call's result and its vote to end the batch. */
  datatype Finalized = Finalized(result: ToolResult, terminate: bool)

  datatype BeforeDecision =
    | BeforeFails(message: string)
    | Blocks(reason: Option<string>, terminate: Option<bool>)
    | Proceeds(arguments: Option<string>)

  /** Whether a call names an executable tool and its arguments could be prepared. */
  datatype Resolution = Rejected(message: string) | Resolved(arguments: string)

  datatype AfterDecision =
    | AfterFails(message: string)
    | Amends(content: Option<string>, details: Option<Option<string>>, isError: Option<bool>, terminate: Option<bool>)

  const ABORTED: string := "Operation aborted"
  const BLOCKED: string := "Tool execution was blocked"

  function OrElse<T>(o: Option<T>, default: T): T {
    if o.Some? then o.value else default
  }

  function ErrorResult(call: nat, message: string, terminate: bool): Finalized {
    Finalized(ToolResult(call, message, None, true), terminate)
  }

  function BlockedResult(call: nat, d: BeforeDecision): Finalized
    requires !d.Proceeds?
  {
    match d
    case BeforeFails(m) => ErrorResult(call, m, false)
    case Blocks(reason, terminate) => ErrorResult(call, OrElse(reason, BLOCKED), OrElse(terminate, false))
  }

  function ToolOutcome(call: nat, o: Outcome): Finalized {
    Finalized(ToolResult(call, o.content, o.details, o.isError), o.terminate)
  }

  /** `apply_after_result`, and the result of a failing afterToolCall hook. */
  function Amended(call: nat, o: Outcome, d: AfterDecision): Finalized {
    match d
    case AfterFails(m) => ErrorResult(call, m, false)
    case Amends(content, details, isError, terminate) =>
      Finalized(
        ToolResult(call, OrElse(content, o.content), OrElse(details, o.details), OrElse(isError, o.isError)),
        OrElse(terminate, o.terminate))
  }

  datatype BatchResult = BatchResult(results: seq<ToolResult>, terminate: bool)

  /** `make_batch_result`: the results in call order; the batch ends only if every call votes so. */
  function MakeBatch(calls: seq<Finalized>): BatchResult {
    BatchResult(
      seq(|calls|, i requires 0 <= i < |calls| => calls[i].result),
      calls != [] && forall i :: 0 <= i < |calls| ==> calls[i].terminate)
  }

  /** The vote apart from how it is computed: nobody votes for an empty batch, one call decides alone,
      and two batches together end only if both do. The results are the calls' own, in order. */
  lemma {:induction false} BatchMeaning(a: seq<Finalized>, b: seq<Finalized>, x: Finalized)
    ensures !MakeBatch([]).terminate && MakeBatch([x]).terminate == x.terminate
    ensures a != [] && b != [] ==> (MakeBatch(a + b).terminate <==> MakeBatch(a).terminate && MakeBatch(b).terminate)
    ensures MakeBatch([x]).results == [x.result] && MakeBatch(a + b).results == MakeBatch(a).results + MakeBatch(b).results
  {
    assert [x][0] == x;
    if a != [] && b != [] {
      var c := a + b;
      assert forall i :: 0 <= i < |a| ==> c[i] == a[i];
      assert forall i :: 0 <= i < |b| ==> c[|a| + i] == b[i];
    }
  }

  /** The results of finished calls in order, and an end if there is one and all vote for it. */
  predicate Collects(finals: seq<Finalized>, r: BatchResult) {
    && |r.results| == |finals|
    && (forall k :: 0 <= k < |finals| ==> r.results[k] == finals[k].result)
    && (r.terminate <==> finals != [] && forall k :: 0 <= k < |finals| ==> finals[k].terminate)
  }

  lemma {:induction false} MakeBatchCollects(finals: seq<Finalized>)
    ensures Collects(finals, MakeBatch(finals))
  {
  }

  // ---------------------------------------------------------------- the machine

  datatype Pc =
    | WaitPreparation
    | Preparing
    | Resolving
    | InBeforeHook(arguments: string)
    | WaitLane(arguments: string)
    | HaveLane(arguments: string)
    | Executing(arguments: string)
    | WaitAfterHook(outcome: Outcome)
    | InAfterHook(outcome: Outcome)
    | Closing(settled: Finalized, preparation: bool, fatal: bool)
    | Done(final: Option<Finalized>)

  datatype Event =
    | StartEvent(call: nat, ok: bool)
    | UpdateEvent(call: nat, ok: bool)
    | EndEvent(call: nat, ok: bool)

  datatype Config = Config(maxInFlight: nat, beforeHook: bool, afterHook: bool)

  /** How many tools may execute at once; zero in flight means no limit. */
  function Limit(c: Config, calls: nat): nat {
    if c.maxInFlight == 0 then calls else c.maxInFlight
  }

  datatype State = State(
    tasks: seq<Pc>,
    preparation: nat,
    lanes: nat,
    after: nat,
    stop: bool,
    events: seq<Event>,
    emitError: bool,
    fatalError: bool)

  datatype Action =
    | RequestStop
    | TakePreparation(task: nat)
    | PreparationFails(task: nat)
    | Begin(task: nat, ok: bool)
    | Resolve(task: nat, resolution: Resolution)
    | FinishBefore(task: nat, decision: BeforeDecision)
    | TakeLane(task: nat)
    | LaneFails(task: nat, message: string)
    | Launch(task: nat)
    | Update(task: nat, ok: bool)
    | FinishTool(task: nat, outcome: Outcome)
    | TakeAfter(task: nat)
    | AfterPermitFails(task: nat, message: string)
    | FinishAfter(task: nat, amendment: AfterDecision)
    | Close(task: nat, ok: bool)

  /** Whether a task that stands at `pc` can take an action, its permit being there. */
  predicate Fits(pc: Pc, a: Action) {
    match a
    case RequestStop => false
    case TakePreparation(_) => pc.WaitPreparation?
    case PreparationFails(_) => pc.WaitPreparation?
    case Begin(_, _) => pc.Preparing?
    case Resolve(_, _) => pc.Resolving?
    case FinishBefore(_, _) => pc.InBeforeHook?
    case TakeLane(_) => pc.WaitLane?
    case LaneFails(_, _) => pc.WaitLane?
    case Launch(_) => pc.HaveLane?
    case Update(_, _) => pc.Executing?
    case FinishTool(_, _) => pc.Executing?
    case TakeAfter(_) => pc.WaitAfterHook?
    case AfterPermitFails(_, _) => pc.WaitAfterHook?
    case FinishAfter(_, _) => pc.InAfterHook?
    case Close(_, _) => pc.Closing?
  }

  /** Whether an action can be taken. A task waiting on an empty channel cannot go on. */
  predicate Enabled(s: State, a: Action) {
    a.RequestStop? ||
    (&& a.task < |s.tasks| && Fits(s.tasks[a.task], a)
     && (a.TakePreparation? ==> s.preparation > 0)
     && (a.TakeLane? ==> s.lanes > 0)
     && (a.TakeAfter? ==> s.after > 0))
  }

  /** What one action of a task does: where the task stands then, what it takes from (-1) or puts
      back into (+1) each channel, the event it emits, and the errors it records. */
  datatype Effect = Effect(
    pc: Pc,
    preparation: int,
    lanes: int,
    after: int,
    emitted: seq<Event>,
    emitError: bool,
    fatalError: bool)

  function Goes(pc: Pc): Effect {
    Effect(pc, 0, 0, 0, [], false, false)
  }

  /** The stop check at the end of preparation; an unstopped call gives its permit back before
      it waits for a lane. */
  function Gate(task: nat, stop: bool, arguments: string): Effect {
    if stop then Goes(Closing(ErrorResult(task, ABORTED, false), true, false))
    else Goes(WaitLane(arguments)).(preparation := 1)
  }

  function React(c: Config, stop: bool, pc: Pc, a: Action): Effect
    requires Fits(pc, a)
  {
    match a
    case TakePreparation(i) => Goes(Preparing).(preparation := -1)
    case PreparationFails(i) => Goes(Done(None)).(fatalError := true)
    case Begin(i, ok) =>
      if stop then Goes(Done(Some(ErrorResult(i, ABORTED, false)))).(preparation := 1)
      else if ok then Goes(Resolving).(emitted := [StartEvent(i, true)])
      else Goes(Done(None)).(preparation := 1, emitted := [StartEvent(i, false)], emitError := true, fatalError := true)
    case Resolve(i, resolution) =>
      if resolution.Rejected? then Goes(Closing(ErrorResult(i, resolution.message, false), true, false))
      else if c.beforeHook then Goes(InBeforeHook(resolution.arguments))
      else Gate(i, stop, resolution.arguments)
    case FinishBefore(i, d) =>
      if d.Proceeds? then Gate(i, stop, OrElse(d.arguments, pc.arguments))
      else Goes(Closing(BlockedResult(i, d), true, false))
    case TakeLane(i) => Goes(HaveLane(pc.arguments)).(lanes := -1)
    case LaneFails(i, m) => Goes(Closing(ErrorResult(i, m, false), false, true))
    case Launch(i) =>
      if stop then Goes(Closing(ErrorResult(i, ABORTED, false), false, false)).(lanes := 1)
      else Goes(Executing(pc.arguments))
    case Update(i, ok) => Goes(pc).(emitted := [UpdateEvent(i, ok)])
    case FinishTool(i, o) =>
      Goes(if c.afterHook then WaitAfterHook(o) else Closing(ToolOutcome(i, o), false, false)).(lanes := 1)
    case TakeAfter(i) => Goes(InAfterHook(pc.outcome)).(after := -1)
    case AfterPermitFails(i, m) => Goes(Closing(ErrorResult(i, m, false), false, false))
    case FinishAfter(i, d) => Goes(Closing(Amended(i, pc.outcome, d), false, false)).(after := 1)
    case Close(i, ok) =>
      var failed := !ok || pc.fatal;
      Effect(Done(if failed then None else Some(pc.settled)), if pc.preparation then 1 else 0, 0, 0,
             [EndEvent(i, ok)], !ok, failed)
  }

  function Next(c: Config, s: State, a: Action): State
    requires Enabled(s, a)
  {
    if a.RequestStop? then s.(stop := true)
    else
      var e := React(c, s.stop, s.tasks[a.task], a);
      State(s.tasks[a.task := e.pc], s.preparation + e.preparation, s.lanes + e.lanes, s.after + e.after, s.stop,
            s.events + e.emitted, s.emitError || e.emitError, s.fatalError || e.fatalError)
  }

  function Initial(c: Config, calls: nat): State {
    State(seq(calls, _ => WaitPreparation), 1, Limit(c, calls), 1, false, [], false, false)
  }

  /** A run: each action is enabled where it is taken. */
  ghost predicate IsRun(c: Config, s: State, run: seq<Action>, t: State)
    decreases |run|
  {
    if run == [] then s == t else Enabled(s, run[0]) && IsRun(c, Next(c, s, run[0]), run[1..], t)
  }

  // ---------------------------------------------------------------- permits

  predicate HoldsPreparation(pc: Pc) {
    pc.Preparing? || pc.Resolving? || pc.InBeforeHook? || (pc.Closing? && pc.preparation)
  }

  predicate HoldsLane(pc: Pc) {
    pc.HaveLane? || pc.Executing?
  }

  predicate HoldsAfter(pc: Pc) {
    pc.InAfterHook?
  }

  function Count(tasks: seq<Pc>, p: Pc -> bool): nat {
    if tasks == [] then 0 else (if p(tasks[0]) then 1 else 0) + Count(tasks[1..], p)
  }

  lemma {:induction false} CountUpdate(tasks: seq<Pc>, p: Pc -> bool, i: nat, pc: Pc)
    requires i < |tasks|
    ensures Count(tasks[i := pc], p) + (if p(tasks[i]) then 1 else 0) == Count(tasks, p) + if p(pc) then 1 else 0
    decreases |tasks|
  {
    var u := tasks[i := pc];
    if i == 0 {
      assert u[1..] == tasks[1..];
    } else {
      assert u[1..] == tasks[1..][i - 1 := pc];
      CountUpdate(tasks[1..], p, i - 1, pc);
    }
  }

  lemma {:induction false} CountSome(tasks: seq<Pc>, p: Pc -> bool) returns (i: nat)
    requires Count(tasks, p) > 0
    ensures i < |tasks| && p(tasks[i])
    decreases |tasks|
  {
    if p(tasks[0]) {
      i := 0;
    } else {
      i := CountSome(tasks[1..], p);
      i := i + 1;
    }
  }

  lemma {:induction false} CountNone(tasks: seq<Pc>, p: Pc -> bool)
    requires forall i :: 0 <= i < |tasks| ==> !p(tasks[i])
    ensures Count(tasks, p) == 0
  {
    if tasks != [] {
      CountNone(tasks[1..], p);
    }
  }

  /** Every permit is in its channel or held by exactly one task. */
  predicate Conserved(c: Config, s: State) {
    && s.preparation + Count(s.tasks, HoldsPreparation) == 1
    && s.lanes + Count(s.tasks, HoldsLane) == Limit(c, |s.tasks|)
    && s.after + Count(s.tasks, HoldsAfter) == 1
  }

  // ---------------------------------------------------------------- lifecycles

  function EventsOf(events: seq<Event>, i: nat): seq<Event> {
    if events == [] then []
    else EventsOf(events[..|events| - 1], i) + if events[|events| - 1].call == i then [events[|events| - 1]] else []
  }

  lemma {:induction false} EventsOfSnoc(events: seq<Event>, e: Event, i: nat)
    ensures EventsOf(events + [e], i) == EventsOf(events, i) + if e.call == i then [e] else []
  {
    assert (events + [e])[..|events|] == events;
  }

  predicate OnlyUpdates(events: seq<Event>) {
    forall k :: 0 <= k < |events| ==> events[k].UpdateEvent?
  }

  /** A start that succeeded and then updates only. */
  predicate Opened(events: seq<Event>) {
    events != [] && events[0].StartEvent? && events[0].ok && OnlyUpdates(events[1..])
  }

  /** A successful start, updates, and one end. */
  predicate Complete(events: seq<Event>) {
    events != [] && events[|events| - 1].EndEvent? && Opened(events[..|events| - 1])
  }

  /** What a task has emitted where it stands. */
  predicate Lifecycle(pc: Pc, events: seq<Event>, i: nat) {
    match pc
    case WaitPreparation => events == []
    case Preparing => events == []
    case Resolving => events == [StartEvent(i, true)]
    case InBeforeHook(_) => events == [StartEvent(i, true)]
    case WaitLane(_) => events == [StartEvent(i, true)]
    case HaveLane(_) => events == [StartEvent(i, true)]
    case Done(final) => events == [] || events == [StartEvent(i, false)] || Complete(events)
    case _ => Opened(events)
  }

  predicate AllLifecycles(s: State) {
    forall i: nat :: i < |s.tasks| ==> Lifecycle(s.tasks[i], EventsOf(s.events, i), i)
  }

  /** Errors are remembered: without one, every finished call has a result. */
  predicate NoLostResult(s: State) {
    !s.emitError && !s.fatalError ==> forall i: nat :: i < |s.tasks| && s.tasks[i].Done? ==> s.tasks[i].final.Some?
  }

  predicate Inv(c: Config, s: State) {
    Conserved(c, s) && AllLifecycles(s) && NoLostResult(s)
  }

  lemma {:induction false} InitialInv(c: Config, calls: nat)
    ensures Inv(c, Initial(c, calls))
  {
    var s := Initial(c, calls);
    CountNone(s.tasks, HoldsPreparation);
    CountNone(s.tasks, HoldsLane);
    CountNone(s.tasks, HoldsAfter);
  }

  function Held(b: bool): int {
    if b then 1 else 0
  }

  /** What a task takes or puts back is exactly what it then holds more or less. */
  lemma {:induction false} ReactConserves(c: Config, stop: bool, pc: Pc, a: Action)
    requires Fits(pc, a)
    ensures var e := React(c, stop, pc, a);
            && e.preparation == Held(HoldsPreparation(pc)) - Held(HoldsPreparation(e.pc))
            && e.lanes == Held(HoldsLane(pc)) - Held(HoldsLane(e.pc))
            && e.after == Held(HoldsAfter(pc)) - Held(HoldsAfter(e.pc))
  {
  }

  lemma {:induction false} ConservedStep(c: Config, s: State, a: Action)
    requires Conserved(c, s) && Enabled(s, a)
    ensures Conserved(c, Next(c, s, a))
  {
    if !a.RequestStop? {
      var i := a.task;
      var e := React(c, s.stop, s.tasks[i], a);
      ReactConserves(c, s.stop, s.tasks[i], a);
      CountUpdate(s.tasks, HoldsPreparation, i, e.pc);
      CountUpdate(s.tasks, HoldsLane, i, e.pc);
      CountUpdate(s.tasks, HoldsAfter, i, e.pc);
    }
  }

  lemma {:induction false} ReactLifecycle(c: Config, stop: bool, pc: Pc, a: Action, events: seq<Event>)
    requires Fits(pc, a) && Lifecycle(pc, events, a.task)
    ensures var e := React(c, stop, pc, a);
            && Lifecycle(e.pc, events + e.emitted, a.task)
            && |e.emitted| <= 1 && (e.emitted != [] ==> e.emitted[0].call == a.task)
  {
    if React(c, stop, pc, a).emitted == [] {
      assert events + [] == events;
      OpenedAlone(a.task);
    } else {
      ReactEmits(c, stop, pc, a, events);
    }
  }

  lemma {:induction false} OpenedAlone(i: nat)
    ensures Opened([StartEvent(i, true)])
  {
    assert [StartEvent(i, true)][1..] == [];
  }

  lemma {:induction false} ReactEmits(c: Config, stop: bool, pc: Pc, a: Action, events: seq<Event>)
    requires Fits(pc, a) && Lifecycle(pc, events, a.task) && React(c, stop, pc, a).emitted != []
    ensures var e := React(c, stop, pc, a);
            && Lifecycle(e.pc, events + e.emitted, a.task)
            && |e.emitted| == 1 && e.emitted[0].call == a.task
  {
    match a
    case Begin(i, ok) => assert [] + [StartEvent(i, ok)] == [StartEvent(i, ok)];
    case Update(i, ok) => OneUpdate(events, i, ok);
    case Close(i, ok) => OneEnd(events, i, ok);
  }

  lemma {:induction false} OneUpdate(events: seq<Event>, i: nat, ok: bool)
    requires Opened(events)
    ensures Opened(events + [UpdateEvent(i, ok)])
  {
    assert (events + [UpdateEvent(i, ok)])[1..] == events[1..] + [UpdateEvent(i, ok)];
  }

  lemma {:induction false} OneEnd(events: seq<Event>, i: nat, ok: bool)
    requires Opened(events)
    ensures Complete(events + [EndEvent(i, ok)])
  {
    assert (events + [EndEvent(i, ok)])[..|events|] == events;
  }

  lemma {:induction false} LifecycleStep(c: Config, s: State, a: Action)
    requires AllLifecycles(s) && Enabled(s, a)
    ensures AllLifecycles(Next(c, s, a))
  {
    if !a.RequestStop? {
      var e := React(c, s.stop, s.tasks[a.task], a);
      ReactLifecycle(c, s.stop, s.tasks[a.task], a, EventsOf(s.events, a.task));
      forall i: nat | i < |s.tasks|
        ensures Lifecycle(s.tasks[a.task := e.pc][i], EventsOf(s.events + e.emitted, i), i)
      {
        assert Lifecycle(s.tasks[i], EventsOf(s.events, i), i);
        if e.emitted == [] {
          assert s.events + [] == s.events;
          assert EventsOf(s.events, i) + [] == EventsOf(s.events, i);
        } else {
          assert e.emitted == [e.emitted[0]];
          EventsOfSnoc(s.events, e.emitted[0], i);
          assert EventsOf(s.events, i) + [] == EventsOf(s.events, i);
        }
      }
    }
  }

  lemma {:induction false} NoLostResultStep(c: Config, s: State, a: Action)
    requires NoLostResult(s) && Enabled(s, a)
    ensures NoLostResult(Next(c, s, a))
  {
    if !a.RequestStop? {
      var e := React(c, s.stop, s.tasks[a.task], a);
      assert e.pc.Done? && e.pc.final.None? ==> e.fatalError;
    }
  }

  /** Every action of every task keeps the invariant. */
  lemma {:induction false} InvStep(c: Config, s: State, a: Action)
    requires Inv(c, s) && Enabled(s, a)
    ensures Inv(c, Next(c, s, a))
  {
    ConservedStep(c, s, a);
    LifecycleStep(c, s, a);
    NoLostResultStep(c, s, a);
  }

  lemma {:induction false} NextTasks(c: Config, s: State, a: Action)
    requires Enabled(s, a)
    ensures |Next(c, s, a).tasks| == |s.tasks|
  {
  }

  lemma {:induction false} InvRun(c: Config, s: State, run: seq<Action>, t: State)
    requires Inv(c, s) && IsRun(c, s, run, t)
    ensures Inv(c, t) && |t.tasks| == |s.tasks|
    decreases |run|
  {
    if run != [] {
      InvStep(c, s, run[0]);
      NextTasks(c, s, run[0]);
      InvRun(c, Next(c, s, run[0]), run[1..], t);
    }
  }

  /** In every state any run reaches: at most one call is in preparation and at most one in the
      afterToolCall hook, at most the limit of tools execute, a call that started has emitted its
      start first and its end at most once and last, and the others have emitted nothing that
      succeeded. */
  lemma {:induction false} Safety(c: Config, calls: nat, run: seq<Action>, s: State)
    requires IsRun(c, Initial(c, calls), run, s)
    ensures |s.tasks| == calls
    ensures Count(s.tasks, HoldsPreparation) <= 1 && Count(s.tasks, HoldsAfter) <= 1
    ensures Count(s.tasks, HoldsLane) <= Limit(c, calls)
    ensures forall i: nat :: i < calls ==> Lifecycle(s.tasks[i], EventsOf(s.events, i), i)
  {
    InitialInv(c, calls);
    InvRun(c, Initial(c, calls), run, s);
  }

  predicate AllDone(s: State) {
    forall i: nat :: i < |s.tasks| ==> s.tasks[i].Done?
  }

  /** A call that started has its updates and then one end; one that did not start emitted at most
      a start that was refused. */
  predicate StartedEnded(e: seq<Event>, i: nat) {
    && (StartEvent(i, true) in e <==> Complete(e))
    && (StartEvent(i, true) !in e ==> e == [] || e == [StartEvent(i, false)])
  }

  /** When all tasks are done, every permit is back and every call that started has ended. */
  lemma {:induction false} FinallyReleased(c: Config, calls: nat, run: seq<Action>, s: State)
    requires IsRun(c, Initial(c, calls), run, s) && AllDone(s)
    ensures s.preparation == 1 && s.lanes == Limit(c, calls) && s.after == 1
    ensures forall i: nat :: i < calls ==> StartedEnded(EventsOf(s.events, i), i)
  {
    InitialInv(c, calls);
    InvRun(c, Initial(c, calls), run, s);
    CountNone(s.tasks, HoldsPreparation);
    CountNone(s.tasks, HoldsLane);
    CountNone(s.tasks, HoldsAfter);
    forall i: nat | i < calls
      ensures StartedEnded(EventsOf(s.events, i), i)
    {
      var e := EventsOf(s.events, i);
      assert Lifecycle(s.tasks[i], e, i);
      EventsOfCall(s.events, i);
      if Complete(e) {
        assert e[0] == e[..|e| - 1][0];
        assert e[0] in e && e[0].call == i;
      }
    }
  }

  lemma {:induction false} EventsOfCall(events: seq<Event>, i: nat)
    ensures forall k :: 0 <= k < |EventsOf(events, i)| ==> EventsOf(events, i)[k].call == i
    decreases |events|
  {
    if events != [] {
      EventsOfCall(events[..|events| - 1], i);
    }
  }

  // ---------------------------------------------------------------- progress

  /** In every state any run reaches: until all are done, some task can step, whatever the others
      wait for. */
  lemma {:induction false} Progress(c: Config, calls: nat, run: seq<Action>, s: State) returns (a: Action)
    requires IsRun(c, Initial(c, calls), run, s) && !AllDone(s)
    ensures !a.RequestStop? && !a.Update? && Enabled(s, a)
  {
    InitialInv(c, calls);
    InvRun(c, Initial(c, calls), run, s);
    a := SomeStep(c, s);
  }

  lemma {:induction false} SomeStep(c: Config, s: State) returns (a: Action)
    requires Conserved(c, s) && !AllDone(s)
    ensures !a.RequestStop? && !a.Update? && Enabled(s, a)
  {
    var i: nat :| i < |s.tasks| && !s.tasks[i].Done?;
    var pc := s.tasks[i];
    if pc.WaitPreparation? && s.preparation > 0 {
      return TakePreparation(i);
    }
    if pc.WaitLane? && s.lanes > 0 {
      return TakeLane(i);
    }
    if pc.WaitAfterHook? && s.after > 0 {
      return TakeAfter(i);
    }
    var j := i;
    if pc.WaitPreparation? {
      j := CountSome(s.tasks, HoldsPreparation);
    } else if pc.WaitLane? {
      j := CountSome(s.tasks, HoldsLane);
    } else if pc.WaitAfterHook? {
      j := CountSome(s.tasks, HoldsAfter);
    }
    a := StepOf(j, s.tasks[j]);
  }

  /** What a task that waits for no permit does next. */
  function StepOf(i: nat, pc: Pc): Action
    requires !pc.Done? && !pc.WaitPreparation? && !pc.WaitLane? && !pc.WaitAfterHook?
  {
    match pc
    case Preparing => Begin(i, true)
    case Resolving => Resolve(i, Rejected(""))
    case InBeforeHook(_) => FinishBefore(i, Proceeds(None))
    case HaveLane(_) => Launch(i)
    case Executing(_) => FinishTool(i, Outcome("", None, false, false))
    case InAfterHook(_) => FinishAfter(i, Amends(None, None, None, None))
    case Closing(_, _, _) => Close(i, true)
  }

  /** How many actions a task has left at most. */
  function Rank(pc: Pc): nat {
    match pc
    case WaitPreparation => 10
    case Preparing => 9
    case Resolving => 8
    case InBeforeHook(_) => 7
    case WaitLane(_) => 6
    case HaveLane(_) => 5
    case Executing(_) => 4
    case WaitAfterHook(_) => 3
    case InAfterHook(_) => 2
    case Closing(_, _, _) => 1
    case Done(_) => 0
  }

  function TotalRank(tasks: seq<Pc>): nat {
    if tasks == [] then 0 else Rank(tasks[0]) + TotalRank(tasks[1..])
  }

  lemma {:induction false} RankUpdate(tasks: seq<Pc>, i: nat, pc: Pc)
    requires i < |tasks|
    ensures TotalRank(tasks[i := pc]) + Rank(tasks[i]) == TotalRank(tasks) + Rank(pc)
    decreases |tasks|
  {
    var u := tasks[i := pc];
    if i == 0 {
      assert u[1..] == tasks[1..];
    } else {
      assert u[1..] == tasks[1..][i - 1 := pc];
      RankUpdate(tasks[1..], i - 1, pc);
    }
  }

  function Work(run: seq<Action>): nat {
    if run == [] then 0 else (if run[0].RequestStop? || run[0].Update? then 0 else 1) + Work(run[1..])
  }

  lemma {:induction false} ReactRank(c: Config, stop: bool, pc: Pc, a: Action)
    requires Fits(pc, a)
    ensures Rank(React(c, stop, pc, a).pc) + (if a.Update? then 0 else 1) <= Rank(pc)
  {
  }

  lemma {:induction false} RankStep(c: Config, s: State, a: Action)
    requires Enabled(s, a)
    ensures TotalRank(Next(c, s, a).tasks) + (if a.RequestStop? || a.Update? then 0 else 1) <= TotalRank(s.tasks)
  {
    if !a.RequestStop? {
      var e := React(c, s.stop, s.tasks[a.task], a);
      ReactRank(c, s.stop, s.tasks[a.task], a);
      RankUpdate(s.tasks, a.task, e.pc);
    }
  }

  /** Every action but an update and a stop request brings its task closer to the end, so a run
      has at most ten of them per call. */
  lemma {:induction false} WorkBounded(c: Config, s: State, run: seq<Action>, t: State)
    requires IsRun(c, s, run, t)
    ensures Work(run) + TotalRank(t.tasks) <= TotalRank(s.tasks)
    decreases |run|
  {
    if run != [] {
      RankStep(c, s, run[0]);
      WorkBounded(c, Next(c, s, run[0]), run[1..], t);
    }
  }

  lemma {:induction false} InitialRank(c: Config, calls: nat)
    ensures TotalRank(Initial(c, calls).tasks) == 10 * calls
  {
    if calls > 0 {
      InitialRank(c, calls - 1);
      assert Initial(c, calls).tasks[1..] == Initial(c, calls - 1).tasks;
    }
  }

  /** From the start of a batch, at most ten actions per call besides updates and stop requests. */
  lemma {:induction false} RunsEnd(c: Config, calls: nat, run: seq<Action>, s: State)
    requires IsRun(c, Initial(c, calls), run, s)
    ensures Work(run) <= 10 * calls
  {
    WorkBounded(c, Initial(c, calls), run, s);
    InitialRank(c, calls);
  }

  // ---------------------------------------------------------------- parallel refines sequential

  /** What a call's tool, hooks and argument preparation answer; the tool answers to the arguments it
      is run with and reports a number of updates. */
  datatype Script = Script(
    resolution: Resolution,
    before: BeforeDecision,
    updates: nat,
    tool: string -> Outcome,
    after: AfterDecision)

  predicate Passes(c: Config, x: Script) {
    x.resolution.Resolved? && (c.beforeHook ==> x.before.Proceeds?)
  }

  /** The arguments the tool is run with: the prepared ones unless the before hook replaced them. */
  function Arguments(c: Config, x: Script): string
    requires Passes(c, x)
  {
    if c.beforeHook then OrElse(x.before.arguments, x.resolution.arguments) else x.resolution.arguments
  }

  /** The result of a call whose answers are fixed. */
  function Settle(c: Config, i: nat, x: Script): Finalized {
    if x.resolution.Rejected? then ErrorResult(i, x.resolution.message, false)
    else if c.beforeHook && !x.before.Proceeds? then BlockedResult(i, x.before)
    else if c.afterHook then Amended(i, x.tool(Arguments(c, x)), x.after)
    else ToolOutcome(i, x.tool(Arguments(c, x)))
  }

  /** Whether a call's answers vote to end the batch: a block, the tool's outcome or its amendment does. */
  predicate Ends(c: Config, x: Script) {
    && x.resolution.Resolved?
    && (c.beforeHook && x.before.Blocks? ==> x.before.terminate == Some(true))
    && !(c.beforeHook && x.before.BeforeFails?)
    && (!(c.beforeHook && x.before.Blocks?) ==>
          && !(c.afterHook && x.after.AfterFails?)
          && (if c.afterHook && x.after.Amends? && x.after.terminate.Some? then x.after.terminate.value
              else x.tool(UsedArguments(c, x)).terminate))
  }

  /** The arguments a tool gets: those the before hook put in place of the prepared ones, if it did. */
  function UsedArguments(c: Config, x: Script): string
    requires x.resolution.Resolved?
  {
    match (c.beforeHook, x.before)
    case (true, Proceeds(Some(replaced))) => replaced
    case _ => x.resolution.arguments
  }

  /** What a result says: why the call did not run, or what its tool answered, as amended. */
  predicate Says(c: Config, x: Script, r: ToolResult) {
    if x.resolution.Rejected? then r.content == x.resolution.message && r.details == None && r.isError
    else if c.beforeHook && x.before.BeforeFails? then r.content == x.before.message && r.details == None && r.isError
    else if c.beforeHook && x.before.Blocks? then
      && r.content == (if x.before.reason.Some? then x.before.reason.value else "Tool execution was blocked")
      && r.details == None && r.isError
    else if c.afterHook && x.after.AfterFails? then r.content == x.after.message && r.details == None && r.isError
    else
      var o := x.tool(UsedArguments(c, x));
      if !c.afterHook then r.content == o.content && r.details == o.details && r.isError == o.isError
      else
        && (if x.after.content.Some? then r.content == x.after.content.value else r.content == o.content)
        && (if x.after.details.Some? then r.details == x.after.details.value else r.details == o.details)
        && (if x.after.isError.Some? then r.isError == x.after.isError.value else r.isError == o.isError)
  }

  lemma {:induction false} SettleMeaning(c: Config, i: nat, x: Script)
    ensures var f := Settle(c, i, x); f.result.call == i && Says(c, x, f.result) && (f.terminate <==> Ends(c, x))
  {
  }

  /** The batch of these answers: a result per call, in order, and an end if there is a call and all
      vote for it. */
  predicate BatchSays(c: Config, scripts: seq<Script>, r: BatchResult) {
    && |r.results| == |scripts|
    && (forall i: nat :: i < |scripts| ==> r.results[i].call == i && Says(c, scripts[i], r.results[i]))
    && (r.terminate <==> scripts != [] && forall i :: 0 <= i < |scripts| ==> Ends(c, scripts[i]))
  }

  lemma {:induction false} SequentialSays(c: Config, scripts: seq<Script>)
    ensures BatchSays(c, scripts, SequentialBatch(c, scripts))
  {
    var finals := SequentialResults(c, scripts);
    forall i: nat | i < |scripts|
      ensures finals[i].result.call == i && Says(c, scripts[i], finals[i].result) && (finals[i].terminate <==> Ends(c, scripts[i]))
    {
      SettleMeaning(c, i, scripts[i]);
    }
  }

  function SequentialResults(c: Config, scripts: seq<Script>): seq<Finalized> {
    seq(|scripts|, i requires 0 <= i < |scripts| => Settle(c, i, scripts[i]))
  }

  function SequentialBatch(c: Config, scripts: seq<Script>): BatchResult {
    MakeBatch(SequentialResults(c, scripts))
  }

  /** The end of `execute_parallel`: an error fails the batch, and a task that left no result
      counts as aborted. */
  function ParallelBatch(s: State): Option<BatchResult> {
    if s.emitError || s.fatalError then None
    else
      Some(MakeBatch(seq(|s.tasks|, i requires 0 <= i < |s.tasks| =>
        if s.tasks[i].Done? && s.tasks[i].final.Some? then s.tasks[i].final.value else ErrorResult(i, ABORTED, false))))
  }

  /** An action that answers as the scripts say, with no failing channel or sink. */
  predicate Follows(scripts: seq<Script>, pc: Pc, a: Action) {
    match a
    case RequestStop => true
    case PreparationFails(_) => false
    case LaneFails(_, _) => false
    case AfterPermitFails(_, _) => false
    case Begin(_, ok) => ok
    case Close(_, ok) => ok
    case Resolve(i, r) => i < |scripts| && r == scripts[i].resolution
    case FinishBefore(i, d) => i < |scripts| && d == scripts[i].before
    case FinishTool(i, o) => i < |scripts| && pc.Executing? && o == scripts[i].tool(pc.arguments)
    case FinishAfter(i, d) => i < |scripts| && d == scripts[i].after
    case _ => true
  }

  /** A run in which every action follows the scripts where it is taken. */
  ghost predicate IsScriptedRun(c: Config, scripts: seq<Script>, s: State, run: seq<Action>, t: State)
    decreases |run|
  {
    if run == [] then s == t
    else
      && Enabled(s, run[0]) && (!run[0].RequestStop? ==> Follows(scripts, s.tasks[run[0].task], run[0]))
      && IsScriptedRun(c, scripts, Next(c, s, run[0]), run[1..], t)
  }

  /** The result of the answers, or an abortion by a stop request. */
  predicate Outcomes(c: Config, i: nat, x: Script, stop: bool, f: Finalized) {
    f == Settle(c, i, x) || (stop && f == ErrorResult(i, ABORTED, false))
  }

  predicate ScriptedPc(c: Config, i: nat, x: Script, stop: bool, pc: Pc) {
    match pc
    case InBeforeHook(args) => c.beforeHook && x.resolution == Resolved(args)
    case WaitLane(args) => Passes(c, x) && args == Arguments(c, x)
    case HaveLane(args) => Passes(c, x) && args == Arguments(c, x)
    case Executing(args) => Passes(c, x) && args == Arguments(c, x)
    case WaitAfterHook(o) => Passes(c, x) && c.afterHook && o == x.tool(Arguments(c, x))
    case InAfterHook(o) => Passes(c, x) && c.afterHook && o == x.tool(Arguments(c, x))
    case Closing(f, _, fatal) => Outcomes(c, i, x, stop, f) && !fatal
    case Done(f) => f.Some? && Outcomes(c, i, x, stop, f.value)
    case _ => true
  }

  predicate Scripted(c: Config, scripts: seq<Script>, s: State) {
    && |s.tasks| == |scripts| && !s.emitError && !s.fatalError
    && forall i: nat :: i < |s.tasks| ==> ScriptedPc(c, i, scripts[i], s.stop, s.tasks[i])
  }

  lemma {:induction false} ReactScripted(c: Config, scripts: seq<Script>, stop: bool, pc: Pc, a: Action)
    requires Fits(pc, a) && Follows(scripts, pc, a) && a.task < |scripts|
    requires ScriptedPc(c, a.task, scripts[a.task], stop, pc)
    ensures var e := React(c, stop, pc, a);
            ScriptedPc(c, a.task, scripts[a.task], stop, e.pc) && !e.emitError && !e.fatalError
  {
  }

  lemma {:induction false} ScriptedStep(c: Config, scripts: seq<Script>, s: State, a: Action)
    requires Scripted(c, scripts, s) && Enabled(s, a)
    requires !a.RequestStop? ==> Follows(scripts, s.tasks[a.task], a)
    ensures Scripted(c, scripts, Next(c, s, a))
  {
    if !a.RequestStop? {
      ReactScripted(c, scripts, s.stop, s.tasks[a.task], a);
    }
  }

  lemma {:induction false} ScriptedRun(c: Config, scripts: seq<Script>, s: State, run: seq<Action>, t: State)
    requires Scripted(c, scripts, s) && IsScriptedRun(c, scripts, s, run, t)
    ensures Scripted(c, scripts, t) && (t.stop <==> s.stop || RequestStop in run)
    decreases |run|
  {
    if run != [] {
      ScriptedStep(c, scripts, s, run[0]);
      ScriptedRun(c, scripts, Next(c, s, run[0]), run[1..], t);
      assert run == [run[0]] + run[1..];
    }
  }

  /** With the answers of every call fixed and nothing failing, a parallel batch gives each call the
      result of its answers, under every schedule and every limit; a stop request can only turn
      results into abortions. */
  lemma {:induction false} ParallelUnderStop(c: Config, scripts: seq<Script>, run: seq<Action>, s: State)
    requires IsScriptedRun(c, scripts, Initial(c, |scripts|), run, s) && AllDone(s)
    ensures ParallelBatch(s).Some? && |ParallelBatch(s).value.results| == |scripts|
    ensures forall i: nat :: i < |scripts| ==>
              var r := ParallelBatch(s).value.results[i];
              r == Settle(c, i, scripts[i]).result || (RequestStop in run && r == ErrorResult(i, ABORTED, false).result)
  {
    ScriptedRun(c, scripts, Initial(c, |scripts|), run, s);
    forall i: nat | i < |scripts|
      ensures var r := ParallelBatch(s).value.results[i];
              r == Settle(c, i, scripts[i]).result || (RequestStop in run && r == ErrorResult(i, ABORTED, false).result)
    {
      assert s.tasks[i].Done? && ScriptedPc(c, i, scripts[i], s.stop, s.tasks[i]);
    }
  }

  /** Without a stop request it ends with the results and the vote of the sequential batch, which are
      those of the answers. */
  lemma {:induction false} ParallelRefinesSequential(c: Config, scripts: seq<Script>, run: seq<Action>, s: State)
    requires IsScriptedRun(c, scripts, Initial(c, |scripts|), run, s) && AllDone(s) && RequestStop !in run
    ensures ParallelBatch(s) == Some(SequentialBatch(c, scripts)) && BatchSays(c, scripts, ParallelBatch(s).value)
  {
    ScriptedRun(c, scripts, Initial(c, |scripts|), run, s);
    var finals := seq(|s.tasks|, i requires 0 <= i < |s.tasks| =>
      if s.tasks[i].Done? && s.tasks[i].final.Some? then s.tasks[i].final.value else ErrorResult(i, ABORTED, false));
    forall i: nat | i < |s.tasks|
      ensures finals[i] == SequentialResults(c, scripts)[i]
    {
      assert s.tasks[i].Done? && ScriptedPc(c, i, scripts[i], s.stop, s.tasks[i]);
    }
    assert finals == SequentialResults(c, scripts);
    SequentialSays(c, scripts);
  }

  // ---------------------------------------------------------------- when a batch fails

  /** A start or end event that the sink did not accept. */
  predicate Refuses(e: Event) {
    !e.UpdateEvent? && !e.ok
  }

  predicate Refused(events: seq<Event>) {
    exists e :: e in events && Refuses(e)
  }

  /** A permit that could not be taken for the start or the execution of a call. */
  predicate Fails(a: Action) {
    a.PreparationFails? || a.LaneFails?
  }

  predicate SomeFails(run: seq<Action>) {
    exists a :: a in run && Fails(a)
  }

  /** An error is recorded, or will be when a call closes. */
  predicate Broken(s: State) {
    s.emitError || s.fatalError || exists i :: 0 <= i < |s.tasks| && s.tasks[i].Closing? && s.tasks[i].fatal
  }

  lemma {:induction false} ReactBreaks(c: Config, stop: bool, pc: Pc, a: Action)
    requires Fits(pc, a)
    ensures var e := React(c, stop, pc, a);
            (e.emitError || e.fatalError || (e.pc.Closing? && e.pc.fatal)) <==>
            Refused(e.emitted) || Fails(a) || (pc.Closing? && pc.fatal)
  {
    var e := React(c, stop, pc, a);
    assert |e.emitted| <= 1;
    assert Refused(e.emitted) <==> |e.emitted| == 1 && Refuses(e.emitted[0]) by {
      if |e.emitted| == 1 && Refuses(e.emitted[0]) {
        assert e.emitted[0] in e.emitted;
      }
    }
  }

  lemma {:induction false} BrokenStep(c: Config, s: State, a: Action)
    requires Enabled(s, a) && !a.RequestStop?
    ensures Broken(Next(c, s, a)) <==> Broken(s) || Fails(a) || Refused(React(c, s.stop, s.tasks[a.task], a).emitted)
  {
    var i := a.task;
    var e := React(c, s.stop, s.tasks[i], a);
    var t := Next(c, s, a);
    ReactBreaks(c, s.stop, s.tasks[i], a);
    assert t.tasks[i] == e.pc;
    if k :| 0 <= k < |s.tasks| && s.tasks[k].Closing? && s.tasks[k].fatal {
      assert k != i ==> t.tasks[k] == s.tasks[k];
    }
    if k :| 0 <= k < |t.tasks| && t.tasks[k].Closing? && t.tasks[k].fatal {
      assert k != i ==> t.tasks[k] == s.tasks[k];
    }
  }

  lemma {:induction false} BrokenRun(c: Config, s: State, run: seq<Action>, t: State)
    requires IsRun(c, s, run, t)
    ensures s.events <= t.events
    ensures Broken(t) <==> Broken(s) || SomeFails(run) || Refused(t.events[|s.events|..])
    decreases |run|
  {
    if run == [] {
      assert t.events[|s.events|..] == [];
    } else {
      var n := Next(c, s, run[0]);
      BrokenRun(c, n, run[1..], t);
      assert run == [run[0]] + run[1..];
      var emitted := n.events[|s.events|..];
      assert t.events[|s.events|..] == emitted + t.events[|n.events|..];
      if run[0].RequestStop? {
        assert emitted == [];
        assert Broken(n) <==> Broken(s);
      } else {
        BrokenStep(c, s, run[0]);
        assert emitted == React(c, s.stop, s.tasks[run[0].task], run[0]).emitted;
      }
    }
  }

  /** A finished batch fails exactly when a start or end event was refused, or a preparation or
      execution permit could not be taken. */
  lemma {:induction false} BatchFailsIff(c: Config, calls: nat, run: seq<Action>, s: State)
    requires IsRun(c, Initial(c, calls), run, s) && AllDone(s)
    ensures ParallelBatch(s).None? <==> Refused(s.events) || SomeFails(run)
  {
    BrokenRun(c, Initial(c, calls), run, s);
    assert s.events[0..] == s.events;
    assert !Broken(Initial(c, calls));
  }
}
