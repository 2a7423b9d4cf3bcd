/** The turn loop of an agent run: live history, the model-facing context beside it, and the events. */
module TurnMachine {
  import opened Values
  import opened Loadout
  import opened TurnEvents
  import opened TurnPlan
  import opened LiveState

  datatype Exit = Onward | Returned(ok: bool)

  datatype Outcome = Succeeded | Erred | Unfinished

  // ---------------------------------------------------------------- what is observed

  /** A provider request or a finishTurn call, with the state it was made in. */
  datatype Seen =
    | SawRequest(context: seq<Message>, sent: seq<Message>, rewritten: bool, tools: seq<Tool>, updated: bool,
                 live: seq<Message>, replaced: bool)
    | SawFinish(context: seq<Message>, produced: seq<Message>, ended: seq<Message>, live: seq<Message>, replaced: bool)

  /** Unless a hook replaced the context, it equals the live history. A request that no hook rewrote
      sends the context, and its context declares exactly the tools it may call unless prepareRequest
      changed them after the declaration. finishTurn is shown the messages of this run. */
  ghost predicate Good(c: Canon, o: Seen) {
    && (!o.replaced ==> o.context == o.live)
    && (o.SawRequest? ==>
          && (!o.rewritten ==> o.sent == o.context)
          && (!o.updated && Keyed(o.tools) ==> Converged(c, CurrentTools(o.context), o.tools)))
    && (o.SawFinish? ==> o.produced == o.ended)
  }

  // ---------------------------------------------------------------- the agent

  class Agent {
    const canon: Canon
    /** Whether the commitment accepts the event with a given number. */
    const commits: nat -> bool
    /** From which query on a stop is requested. */
    const stopAt: Option<nat>
    /** The live history when the run began. */
    const base: seq<Message>

    var messages: seq<Message>
    var streaming: Option<Message>
    var pendingCalls: seq<string>
    var running: bool
    var trace: seq<Event>
    var failed: bool
    var checks: nat
    ghost var seen: seq<Seen>

    constructor (canon: Canon, commits: nat -> bool, stopAt: Option<nat>, base: seq<Message>)
      ensures Inv() && trace == [] && !failed && messages == base && seen == []
      ensures this.canon == canon && this.commits == commits && this.stopAt == stopAt && this.base == base
    {
      this.canon := canon;
      this.commits := commits;
      this.stopAt := stopAt;
      this.base := base;
      messages := base;
      streaming := None;
      pendingCalls := [];
      running := true;
      trace := [];
      failed := false;
      checks := 0;
      seen := [];
    }

    ghost function Now(): Status
      reads this
    {
      Parse(trace)
    }

    ghost function View(): Live
      reads this
    {
      Live(messages, streaming, pendingCalls)
    }

    ghost predicate Stopped()
      reads this
    {
      SeesStop(stopAt, checks)
    }

    /** The events follow the grammar, live history is what was there plus what ended, the live state is what
        the events make of it, and every observation so far was good. */
    ghost predicate Inv()
      reads this
    {
      && Now().Status?
      && messages == base + Now().ended
      && View() == LiveAfter(base, trace)
      && (failed <==> exists i :: 0 <= i < |trace| && !commits(i))
      && (forall o :: o in seen ==> Good(canon, o))
    }

    /** No observation was made of a replaced context. */
    ghost predicate Original()
      reads this
    {
      forall o :: o in seen ==> !o.replaced
    }

    ghost predicate InTurn()
      reads this
    {
      Now().Status? && Now().stage.InTurn?
    }

    /** In a turn, with no message open. */
    ghost predicate Closed()
      reads this
    {
      InTurn() && Now().stage.open.None?
    }

    ghost predicate CanEnd()
      reads this
    {
      InTurn() || (Now().Status? && Now().stage.Between?)
    }

    /** A run that returned has ended, unless a commitment failed. */
    ghost predicate Settled(exit: Exit)
      reads this
    {
      exit.Returned? ==> failed || (Now().Status? && Now().stage.Over?)
    }

    ghost predicate Synced(r: Request)
      reads this
    {
      !r.replaced ==> r.context == messages
    }

    /** Note an observation. */
    ghost method See(o: Seen)
      requires Inv() && Good(canon, o)
      modifies this`seen
      ensures Inv() && (old(Original()) && !o.replaced ==> Original())
    {
      seen := seen + [o];
    }

    method StopRequested() returns (stop: bool)
      modifies this`checks
      ensures checks == old(checks) + 1 && stop == Stopped()
      ensures old(Stopped()) ==> stop
    {
      checks := checks + 1;
      return stopAt.Some? && stopAt.value <= checks;
    }

    method ReduceState(e: Event)
      modifies this`messages, this`streaming, this`pendingCalls
      ensures View() == Reduced(old(View()), e)
    {
      match e {
        case MessageStart(m) =>
          if m.Assistant? { streaming := Some(m); }
        case MessageUpdate(m, call) =>
          if m.Assistant? { streaming := Some(m); }
          if call.Some? && call.value != "" { pendingCalls := Track(pendingCalls, call.value); }
        case MessageEnd(m) =>
          messages := messages + [m];
          if m.Assistant? {
            streaming := None;
            pendingCalls := [];
            var i := 0;
            while i < |m.calls|
              invariant i <= |m.calls|
              invariant TrackAll([], m.calls) == TrackAll(pendingCalls, m.calls[i..])
              invariant messages == old(messages) + [m] && streaming == None
            {
              if m.calls[i] != "" { pendingCalls := Track(pendingCalls, m.calls[i]); }
              assert m.calls[i..][1..] == m.calls[i + 1..];
              i := i + 1;
            }
          }
        case ToolStart(id) => pendingCalls := Track(pendingCalls, id);
        case ToolEnd(id) => pendingCalls := Dropped(pendingCalls, id);
        case TurnEnd(_, _) => pendingCalls := [];
        case AgentEnd(_) => streaming := None;
        case _ =>
      }
    }

    /** `process_event`: reduce, fill in the messages an AgentEnd carries, deliver, commit. */
    method Emit(e: Event) returns (ok: bool)
      requires Inv()
      requires !e.AgentEnd? ==> Accept(Now(), e).Status?
      requires e.AgentEnd? ==> CanEnd()
      modifies this`messages, this`streaming, this`pendingCalls, this`trace, this`failed
      ensures Inv() && failed == (old(failed) || !ok)
      ensures !e.AgentEnd? ==> Now() == Accept(old(Now()), e)
      ensures e.AgentEnd? ==> Now() == Accept(old(Now()), AgentEnd(old(Now()).ended)) && Now().stage.Over?
      ensures trace == old(trace) + [if e.AgentEnd? then AgentEnd(old(Now()).ended) else e]
      ensures messages == if e.MessageEnd? then old(messages) + [e.message] else old(messages)
    {
      ghost var before, was := trace, Now();
      ReduceState(e);
      var delivered := if e.AgentEnd? then AgentEnd(messages[|base|..]) else e;
      assert e.AgentEnd? ==> delivered == AgentEnd(was.ended);
      ok := commits(|trace|);
      trace := trace + [delivered];
      ParseSnoc(before, delivered);
      LiveSnoc(base, before, delivered);
      failed := failed || !ok;
      assert failed <==> exists i :: 0 <= i < |trace| && !commits(i);
    }

    /** The exits that end the run: AgentEnd, then the result. */
    method Finish(result: bool) returns (exit: Exit)
      requires Inv() && CanEnd()
      modifies this`messages, this`streaming, this`pendingCalls, this`trace, this`failed
      ensures Inv() && exit.Returned? && Settled(exit) && Now().turns == old(Now().turns)
      ensures trace == old(trace) + [AgentEnd(Now().ended)]
      ensures exit == Returned(result) || (exit == Returned(false) && failed)
    {
      var ok := Emit(AgentEnd([]));
      return Returned(ok && result);
    }

    /** `append_message_with_lifecycle`. */
    method Append(r: Request, m: Message) returns (ok: bool, next: Request)
      requires Inv() && Closed() && Synced(r)
      modifies this`messages, this`streaming, this`pendingCalls, this`trace, this`failed
      ensures Inv() && CanEnd() && Now().turns == old(Now().turns)
      ensures ok ==> Closed() && next == r.(context := r.context + [m]) && Synced(next)
      ensures ok ==> trace == old(trace) + Lifecycle(m)
      ensures !ok ==> failed
    {
      ok := Emit(MessageStart(m));
      next := r;
      if ok {
        next := r.(context := r.context + [m]);
        ok := Emit(MessageEnd(m));
      }
    }

    method AppendAll(r: Request, all: seq<Message>) returns (exit: Exit, next: Request)
      requires Inv() && Closed() && Synced(r)
      modifies this`messages, this`streaming, this`pendingCalls, this`trace, this`failed
      ensures Inv() && Settled(exit) && Now().turns == old(Now().turns)
      ensures exit.Onward? ==> Closed() && Synced(next) && next == r.(context := r.context + all)
      ensures exit.Onward? ==> trace == old(trace) + Lifecycles(all)
      ensures exit == Onward || (exit == Returned(false) && failed)
    {
      next := r;
      for i := 0 to |all|
        invariant Inv() && Closed() && Synced(next) && Now().turns == old(Now().turns)
        invariant next == r.(context := r.context + all[..i])
        invariant trace == old(trace) + Lifecycles(all[..i])
      {
        LifecyclesNext(old(trace), all, i);
        var ok;
        ok, next := Append(next, all[i]);
        if !ok {
          return Returned(false), next;
        }
        assert r.context + all[..i] + [all[i]] == r.context + all[..i + 1];
      }
      assert all[..|all|] == all;
      exit := Onward;
    }

    /** Declare the difference to the executable tools and append the pending messages. */
    method AppendPending(r: Request, pending: seq<Message>, now: int) returns (exit: Exit, next: Request)
      requires Inv() && Closed() && Synced(r)
      modifies this`messages, this`streaming, this`pendingCalls, this`trace, this`failed
      ensures Inv() && Settled(exit) && Now().turns == old(Now().turns)
      ensures exit.Onward? ==>
                && Closed() && Synced(next) && next.tools == r.tools && next.replaced == r.replaced
                && next.context == r.context + Declare(canon, r.context, pending, r.tools, now)
                && trace == old(trace) + Lifecycles(Declare(canon, r.context, pending, r.tools, now))
      ensures exit == Onward || (exit == Returned(false) && failed)
    {
      var declared := DeclareToolChanges(canon, r.context, pending, r.tools, now);
      exit, next := AppendAll(r, declared);
    }

    /** `adopt_turn_update` after validation. */
    method ApplyUpdate(r: Request, u: Update) returns (exit: Exit, next: Request)
      requires Inv() && CanEnd() && Synced(r)
      modifies this`messages, this`streaming, this`pendingCalls, this`trace, this`failed
      ensures Inv() && Settled(exit) && Now().turns == old(Now().turns)
      ensures exit == if UpdateFails(u) then Returned(false) else Onward
      ensures exit.Onward? ==> trace == old(trace) && next == Adopted(r, u) && Synced(next)
    {
      next := r;
      match u {
        case NoUpdate => exit := Onward;
        case HookFails => exit := Finish(false);
        case Refused => exit := Finish(false);
        case Applied(context, tools, _) =>
          next := if context.Some? then Request(context.value, tools, true) else r.(tools := tools);
          exit := Onward;
      }
    }

    /** The messages to send: transformContext, whose failure under a stop falls back to the context
        and skips convertToLlm, then convertToLlm, which must not return nothing. */
    method BuildRequest(r: Request, t: TurnScript) returns (exit: Exit, sent: seq<Message>)
      requires Inv() && Closed()
      modifies this`messages, this`streaming, this`pendingCalls, this`trace, this`failed, this`checks
      ensures Inv() && Settled(exit) && Now().turns == old(Now().turns) && checks >= old(checks)
      ensures exit == if RequestFails(t, stopAt, old(checks)) then Returned(false) else Onward
      ensures exit.Onward? ==> trace == old(trace) && messages == old(messages)
      ensures exit.Onward? ==> sent == Sent(r.context, t) && checks == old(checks) + Asked(t) - 1
    {
      sent := r.context;
      exit := Onward;
      if t.transform.RewriteFails? {
        var stop := StopRequested();
        if !stop {
          exit := Finish(false);
        }
        return;
      }
      if t.transform.Rewritten? {
        sent := t.transform.messages;
      }
      match t.convert {
        case Untouched =>
        case RewriteFails => exit := Finish(false);
        case Rewritten(converted) =>
          if converted == [] {
            exit := Finish(false);
          } else {
            sent := converted;
          }
      }
    }

    /** An assistant message is open exactly if the stream brought a start. */
    ghost predicate Streams(started: bool)
      reads this
    {
      InTurn() && if started then Now().stage.open.Some? && Now().stage.open.value.Assistant? else Now().stage.open.None?
    }

    method StreamStep(e: StreamEvent, already: bool) returns (started: bool)
      requires Inv() && Streams(already)
      modifies this`messages, this`streaming, this`pendingCalls, this`trace, this`failed
      ensures Inv() && Streams(started) && messages == old(messages) && Now().turns == old(Now().turns)
      ensures trace == old(trace) + StreamEcho(e, already) && started == (already || e.StreamStart?)
    {
      started := already;
      match e {
        case StreamStart(partial) =>
          if !started {
            started := true;
            var _ := Emit(MessageStart(Spoken(partial)));
          }
        case StreamPartial(partial, call) =>
          var _ := Emit(MessageUpdate(Spoken(partial), call));
        case StreamSilent =>
      }
    }

    /** One provider stream: whatever it sends, at most one assistant start is emitted. */
    method Stream(events: seq<StreamEvent>) returns (started: bool)
      requires Inv() && Closed()
      modifies this`messages, this`streaming, this`pendingCalls, this`trace, this`failed
      ensures Inv() && Streams(started) && messages == old(messages) && Now().turns == old(Now().turns)
      ensures trace == old(trace) + Streamed(events) && started == HasStart(events)
    {
      started := false;
      for i := 0 to |events|
        invariant Inv() && Streams(started) && messages == old(messages) && Now().turns == old(Now().turns)
        invariant trace == old(trace) + Streamed(events[..i]) && started == HasStart(events[..i])
      {
        StreamNext(old(trace), events, i);
        started := StreamStep(events[i], started);
      }
      assert events[..|events|] == events;
    }

    /** The answer ends after exactly one start, synthesised if the provider sent none. */
    method TakeAnswer(r: Request, m: Message, started: bool) returns (ok: bool, next: Request)
      requires Inv() && Streams(started) && Synced(r) && m.Assistant?
      modifies this`messages, this`streaming, this`pendingCalls, this`trace, this`failed
      ensures Inv() && CanEnd() && Now().turns == old(Now().turns)
      ensures next == r.(context := r.context + [m])
      ensures ok ==> Now().stage == TurnEvents.InTurn(None, Some(m), []) && Synced(next)
      ensures ok ==> trace == old(trace) + AnswerEvents(m, started)
      ensures !ok ==> failed
    {
      next := r.(context := r.context + [m]);
      ok := true;
      if !started {
        ok := Emit(MessageStart(m));
      }
      if ok {
        ok := Emit(MessageEnd(m));
      }
    }

    /** `emit_tool_result_message`. */
    method EmitResult(m: Message) returns (ok: bool)
      requires Inv() && Closed() && Now().stage.answer.Some? && m.ToolResult?
      modifies this`messages, this`streaming, this`pendingCalls, this`trace, this`failed
      ensures Inv() && InTurn() && Now().turns == old(Now().turns)
      ensures ok ==>
                && messages == old(messages) + [m]
                && Now().stage == old(Now().stage).(results := old(Now().stage.results) + [m])
                && trace == old(trace) + Lifecycle(m)
      ensures !ok ==> failed
    {
      ok := Emit(MessageStart(m));
      if ok {
        ok := Emit(MessageEnd(m));
      }
    }

    /** The turn has delivered these results since it was in the given state. */
    ghost predicate Delivering(before: Status, was: seq<Message>, results: seq<Message>)
      reads this
      requires before.Status? && before.stage.InTurn?
    {
      && Closed() && Now().stage.answer.Some? && Now().turns == before.turns
      && messages == was + results && Now().stage == before.stage.(results := results)
    }

    method RejectCall(call: string, ghost before: Status, ghost was: seq<Message>, ghost results: seq<Message>) returns (ok: bool)
      requires before.Status? && before.stage.InTurn? && Inv() && Delivering(before, was, results)
      modifies this`messages, this`streaming, this`pendingCalls, this`trace, this`failed
      ensures Inv() && InTurn() && Now().turns == before.turns
      ensures ok ==> Delivering(before, was, results + [Rejection(call)]) && trace == old(trace) + RejectEcho(call)
      ensures !ok ==> failed
    {
      ok := Emit(ToolStart(call));
      if ok {
        ok := Emit(ToolEnd(call));
      }
      if ok {
        ok := EmitResult(Rejection(call));
      }
    }

    /** Calls cut off by the token limit: each gets a start, an end and an error result. */
    method RejectCalls(calls: seq<string>) returns (ok: bool, results: seq<Message>)
      requires Inv() && Closed() && Now().stage.answer.Some? && Now().stage.results == []
      modifies this`messages, this`streaming, this`pendingCalls, this`trace, this`failed
      ensures Inv() && InTurn() && Now().turns == old(Now().turns)
      ensures ok ==> Delivering(old(Now()), old(messages), results)
      ensures ok ==> results == Rejections(calls) && trace == old(trace) + RejectEvents(calls)
      ensures !ok ==> failed
    {
      results := [];
      for i := 0 to |calls|
        invariant Inv() && Delivering(old(Now()), old(messages), results)
        invariant results == Rejections(calls[..i]) && trace == old(trace) + RejectEvents(calls[..i])
      {
        RejectNext(old(trace), calls, i);
        ok := RejectCall(calls[i], old(Now()), old(messages), results);
        if !ok { return; }
        results := results + [Rejection(calls[i])];
      }
      assert calls[..|calls|] == calls;
      ok := true;
    }

    /** One step of a batch; a result is delivered only while every tool event was accepted. */
    method Perform(a: Action, ready: bool, ghost before: Status, ghost was: seq<Message>, ghost results: seq<Message>)
      returns (ok: bool, accepted: bool)
      requires before.Status? && before.stage.InTurn? && Inv() && Delivering(before, was, results) && (ready || failed)
      modifies this`messages, this`streaming, this`pendingCalls, this`trace, this`failed
      ensures Inv() && InTurn() && Now().turns == before.turns
      ensures ok ==> Delivering(before, was, results + ResultOf(a)) && trace == old(trace) + ActionEcho(a)
      ensures (ok && accepted) || failed
    {
      ok, accepted := true, ready;
      match a {
        case Started(id) =>
          var emitted := Emit(ToolStart(id));
          accepted := accepted && emitted;
        case Progressed(id) =>
          var _ := Emit(ToolUpdate(id));
        case Completed(id) =>
          var emitted := Emit(ToolEnd(id));
          accepted := accepted && emitted;
        case Delivered(call, text) =>
          ok := accepted;
          if ok {
            ok := EmitResult(ToolResult(call, text));
          }
      }
    }

    /** A tool batch: tool events may go on after one was not accepted, results may not. */
    method ExecuteBatch(actions: seq<Action>, batchOk: bool) returns (ok: bool, results: seq<Message>)
      requires Inv() && Closed() && Now().stage.answer.Some? && Now().stage.results == []
      modifies this`messages, this`streaming, this`pendingCalls, this`trace, this`failed
      ensures Inv() && InTurn() && Now().turns == old(Now().turns)
      ensures ok ==> Delivering(old(Now()), old(messages), results)
      ensures ok ==> batchOk && results == ResultsOf(actions) && trace == old(trace) + Echo(actions)
      ensures !ok ==> failed || !batchOk
    {
      ghost var before, was, first := Now(), messages, trace;
      results := [];
      var accepted := true;
      for i := 0 to |actions|
        invariant Inv() && Delivering(before, was, results) && (accepted || failed)
        invariant results == ResultsOf(actions[..i]) && trace == first + Echo(actions[..i])
      {
        EchoNext(first, actions, i);
        var performed;
        performed, accepted := Perform(actions[i], accepted, before, was, results);
        if !performed {
          return false, results;
        }
        results := results + ResultOf(actions[i]);
      }
      assert actions[..|actions|] == actions;
      ok := accepted && batchOk;
    }

    ghost predicate Answered(m: Message, results: seq<Message>)
      reads this
    {
      Now().Status? && Now().stage == TurnEvents.InTurn(None, Some(m), results)
    }

    /** `finishTurn` and TurnEnd. */
    method CloseTurn(r: Request, m: Message, results: seq<Message>, finish: Decision) returns (exit: Exit)
      requires Inv() && Answered(m, results) && Synced(r)
      modifies this`messages, this`streaming, this`pendingCalls, this`trace, this`failed, this`seen
      ensures Inv() && Settled(exit) && Now().turns == old(Now().turns)
      ensures exit.Onward? ==> Now().stage.Between? && messages == old(messages)
      ensures exit.Onward? ==> trace == old(trace) + [TurnEnd(m, results)] && !finish.DecisionFails?
      ensures exit == Onward || (exit == Returned(false) && (failed || finish.DecisionFails?))
      ensures old(Original()) && !r.replaced ==> Original()
    {
      See(SawFinish(r.context, messages[|base|..], Now().ended, messages, r.replaced));
      if finish.DecisionFails? {
        exit := Finish(false);
        return;
      }
      var ok := Emit(TurnEnd(m, results));
      exit := if ok then Onward else Returned(false);
    }

    /** The tool results of an answer, appended to the context. */
    method RunTools(r: Request, m: Message, t: TurnScript) returns (exit: Exit, next: Request, results: seq<Message>)
      requires Inv() && m.Assistant? && !HardExit(m) && Answered(m, []) && Synced(r)
      modifies this`messages, this`streaming, this`pendingCalls, this`trace, this`failed
      ensures Inv() && Settled(exit) && Now().turns == old(Now().turns)
      ensures exit.Onward? ==> Answered(m, results) && Synced(next) && next == r.(context := r.context + results)
      ensures exit.Onward? ==> results == ToolResults(m, t) && trace == old(trace) + ToolEvents(m, t) && !BatchFails(m, t)
      ensures exit == Onward || (exit == Returned(false) && (failed || BatchFails(m, t)))
    {
      results := [];
      exit := Onward;
      if m.calls != [] {
        var ok;
        if m.reason.Length? {
          ok, results := RejectCalls(m.calls);
          if !ok {
            return Returned(false), r, results;
          }
        } else {
          ok, results := ExecuteBatch(t.actions, t.batchOk);
          if !ok {
            exit := Finish(false);
            return exit, r, results;
          }
        }
      }
      next := r.(context := r.context + results);
    }

    /** The queues polled before the decision, and whether the answer wants its results read. */
    method Poll(m: Message, t: TurnScript) returns (more: bool, queued: seq<Message>)
      requires m.Assistant?
      modifies this`checks
      ensures checks == old(checks) + 3
      ensures more == (m.calls != [] && (!t.terminate || SeesStop(stopAt, old(checks) + 2)))
      ensures if !SeesStop(stopAt, old(checks) + 1) && t.steering != [] then queued == t.steering
              else if more || SeesStop(stopAt, old(checks) + 3) then queued == []
              else queued == t.followUp
    {
      queued := [];
      var stop := StopRequested();
      if !stop {
        queued := t.steering;
      }
      stop := StopRequested();
      more := m.calls != [] && (!t.terminate || stop);
      stop := StopRequested();
      if !stop && !more && queued == [] {
        queued := t.followUp;
      }
    }

    /** `prepareNextTurn` and the late poll. */
    method PrepareNext(r: Request, queued: seq<Message>, t: TurnScript) returns (exit: Exit, next: Request, pending: seq<Message>)
      requires Inv() && Now().stage.Between? && Synced(r)
      modifies this`messages, this`streaming, this`pendingCalls, this`trace, this`failed, this`checks
      ensures Inv() && Settled(exit) && Now().turns == old(Now().turns) && checks >= old(checks)
      ensures exit == if !SeesStop(stopAt, old(checks) + 1) && UpdateFails(t.prepareNext) then Returned(false) else Onward
      ensures exit.Onward? ==> Now().stage.Between? && Synced(next) && trace == old(trace) && checks == old(checks) + 2
      ensures exit.Onward? ==>
                && next == (if SeesStop(stopAt, old(checks) + 1) then r else Adopted(r, t.prepareNext))
                && pending == (if SeesStop(stopAt, old(checks) + 1) then [] else Prepared(t.prepareNext))
                     + (if queued == [] && !SeesStop(stopAt, old(checks) + 2) then t.lateSteering else queued)
    {
      next, pending := r, queued;
      var prepared: seq<Message> := [];
      exit := Onward;
      var stop := StopRequested();
      if !stop {
        if t.prepareNext.Applied? {
          prepared := t.prepareNext.messages;
        }
        exit, next := ApplyUpdate(r, t.prepareNext);
        if exit.Returned? {
          return;
        }
      }
      stop := StopRequested();
      if !stop && pending == [] {
        pending := t.lateSteering;
      }
      pending := prepared + pending;
    }

    /** After TurnEnd: whether the run goes on, with which request and which pending messages. */
    method Continue(r: Request, m: Message, t: TurnScript) returns (exit: Exit, next: Request, pending: seq<Message>)
      requires Inv() && m.Assistant? && !HardExit(m) && Now().stage.Between? && Synced(r)
      modifies this`messages, this`streaming, this`pendingCalls, this`trace, this`failed, this`checks
      ensures Inv() && Settled(exit) && Now().turns == old(Now().turns) && checks >= old(checks)
      ensures exit.Onward? ==> Now().stage.Between? && Synced(next) && trace == old(trace) && checks == old(checks) + 5
      ensures exit.Onward? ==> CourseOf(r, m, t, stopAt, old(checks)) == Goes(next, pending)
      ensures exit == Returned(true) ==> CourseOf(r, m, t, stopAt, old(checks)).Ends? && trace == old(trace) + [AgentEnd(Now().ended)]
      ensures exit == Returned(false) ==> failed || CourseOf(r, m, t, stopAt, old(checks)).Fails?
    {
      next, pending := r, [];
      if t.finish.EndRun? {
        exit := Finish(true);
        return;
      }
      var more, queued := Poll(m, t);
      if !more && queued == [] && !t.finish.ContinueRun? {
        exit := Finish(true);
        return;
      }
      exit, next, pending := PrepareNext(r, queued, t);
    }

    /** The provider request and its answer. */
    method Ask(r: Request, t: TurnScript) returns (exit: Exit, next: Request, attempted: bool, answer: Message)
      requires Inv() && Closed() && Synced(r)
      requires t.prepare.NoUpdate? && Keyed(r.tools) ==> Converged(canon, CurrentTools(r.context), r.tools)
      modifies this`messages, this`streaming, this`pendingCalls, this`trace, this`failed, this`checks, this`seen
      ensures Inv() && Settled(exit) && Now().turns == old(Now().turns) && checks >= old(checks)
      ensures exit.Onward? ==>
                && t.answer.Some? && answer == Spoken(t.answer.value) && Answered(answer, [])
                && next == r.(context := r.context + [answer]) && Synced(next)
                && trace == old(trace) + Streamed(t.stream) + AnswerEvents(answer, HasStart(t.stream))
      ensures exit.Onward? ==> Asks(t, old(checks), attempted)
      ensures exit == Onward || (exit == Returned(false) && (failed || RequestFails(t, stopAt, old(checks)) || t.answer.None?))
      ensures old(Original()) && !r.replaced ==> Original()
    {
      var sent;
      attempted := false;
      next, answer := r, Assistant("", [], Stop);
      exit, sent := BuildRequest(r, t);
      if exit.Returned? {
        return;
      }
      attempted := StopRequested();
      var rewritten := !t.transform.Untouched? || !t.convert.Untouched?;
      See(SawRequest(r.context, sent, rewritten, r.tools, !t.prepare.NoUpdate?, messages, r.replaced));
      var started := Stream(t.stream);
      if t.answer.None? {
        exit := Finish(false);
        return;
      }
      answer := Spoken(t.answer.value);
      var ok;
      ok, next := TakeAnswer(r, answer, started);
      exit := if ok then Onward else Returned(false);
    }

    /** The request was made, and saw a stop exactly if it was attempted under one. */
    ghost predicate Asks(t: TurnScript, before: nat, attempted: bool)
      reads this
    {
      !RequestFails(t, stopAt, before) && checks == before + Asked(t) && attempted == SeesStop(stopAt, checks)
    }

    /** Where the run stands, with this request and these pending messages. */
    ghost predicate Stands(st: Standing, r: Request, pending: seq<Message>)
      reads this
    {
      st.live == messages && st.request == r && st.pending == pending && st.checks == checks
    }

    /** From the snapshot to the request of one turn. */
    method Prepare(first: bool, r: Request, initial: seq<Message>, t: TurnScript, ghost st: Standing) returns (exit: Exit, next: Request)
      requires Inv() && Now().stage.Between? && (first ==> !r.replaced) && Stands(st, r, initial)
      modifies this`messages, this`streaming, this`pendingCalls, this`trace, this`failed
      ensures Inv() && Settled(exit) && Now().turns == old(Now().turns) + 1
      ensures exit.Onward? ==>
                && Closed() && Synced(next) && !UpdateFails(t.prepare)
                && next == AskedWith(canon, first, st, t)
                && trace == old(trace) + [TurnStart] + Lifecycles(Told(canon, first, st, t))
      ensures exit.Onward? && t.prepare.NoUpdate? && Keyed(next.tools) ==> Converged(canon, CurrentTools(next.context), next.tools)
      ensures exit == Onward || (exit == Returned(false) && (failed || UpdateFails(t.prepare)))
    {
      next := r;
      var ok := Emit(TurnStart);
      if !ok {
        exit := Returned(false);
        return;
      }
      next := if !r.replaced || first then r.(context := messages, tools := t.tools) else r.(tools := t.tools);
      if Keyed(next.tools) {
        DeclareConverges(canon, next.context, initial, next.tools, t.now);
      }
      exit, next := AppendPending(next, initial, t.now);
      if exit.Returned? {
        return;
      }
      exit, next := ApplyUpdate(next, t.prepare);
    }

    /** From the snapshot to the answer of one turn. */
    method Open(first: bool, r: Request, initial: seq<Message>, t: TurnScript, ghost st: Standing)
      returns (exit: Exit, next: Request, attempted: bool, answer: Message)
      requires Inv() && Now().stage.Between? && (first ==> !r.replaced) && Stands(st, r, initial)
      modifies this`messages, this`streaming, this`pendingCalls, this`trace, this`failed, this`checks, this`seen
      ensures Inv() && Settled(exit) && Now().turns == old(Now().turns) + 1 && checks >= old(checks)
      ensures exit.Onward? ==>
                && t.answer.Some? && answer == Spoken(t.answer.value) && Answered(answer, []) && Synced(next)
                && next == AskedReply(canon, first, st, answer, t)
                && trace == old(trace) + AskTrace(Told(canon, first, st, t), answer, t)
      ensures exit.Onward? ==> Asks(t, old(checks), attempted) && !UpdateFails(t.prepare)
      ensures exit == Onward || (exit == Returned(false) && (failed || Breaks(t, stopAt, old(checks))))
      ensures old(Original()) && Keeps(t) && !r.replaced ==> Original() && (exit.Onward? ==> !next.replaced)
    {
      attempted, answer := false, Assistant("", [], Stop);
      ghost var said := Told(canon, first, st, t);
      exit, next := Prepare(first, r, initial, t, st);
      if exit.Returned? {
        return;
      }
      exit, next, attempted, answer := Ask(next, t);
      AskTraceFrom(old(trace), said, answer, t);
    }

    /** From the answer to TurnEnd; the calls of an answer that failed are not run. */
    method Settle(r: Request, m: Message, t: TurnScript) returns (exit: Exit, next: Request)
      requires Inv() && m.Assistant? && Answered(m, []) && Synced(r)
      modifies this`messages, this`streaming, this`pendingCalls, this`trace, this`failed, this`seen
      ensures Inv() && Settled(exit) && Now().turns == old(Now().turns)
      ensures exit.Onward? ==> Now().stage.Between? && Synced(next) && next == r.(context := r.context + ToolResults(m, t))
      ensures exit.Onward? ==> trace == old(trace) + ToolEvents(m, t) + [TurnEnd(m, ToolResults(m, t))]
      ensures exit.Onward? ==> !BatchFails(m, t) && !t.finish.DecisionFails?
      ensures exit == Onward || (exit == Returned(false) && (failed || BatchFails(m, t) || t.finish.DecisionFails?))
      ensures old(Original()) && !r.replaced ==> Original()
    {
      next := r;
      var results: seq<Message> := [];
      if !HardExit(m) {
        exit, next, results := RunTools(r, m, t);
        if exit.Returned? {
          return;
        }
      }
      exit := CloseTurn(next, m, results, t.finish);
    }

    /** How a turn left the run: at these events, with or without the end of the run. */
    ghost predicate Left(exit: Exit, closed: seq<Event>)
      reads this
    {
      && Now().Status?
      && (exit.Onward? ==> Now().stage.Between? && trace == closed)
      && (exit == Returned(true) ==> trace == closed + [AgentEnd(Now().ended)])
    }

    /** What follows the answer: the rest of the turn, and whether another one follows. */
    method Conclude(r: Request, m: Message, t: TurnScript)
      returns (exit: Exit, next: Request, pending: seq<Message>, ghost course: Course)
      requires Inv() && m.Assistant? && Answered(m, []) && Synced(r)
      modifies this`messages, this`streaming, this`pendingCalls, this`trace, this`failed, this`checks, this`seen
      ensures Inv() && Settled(exit) && Now().turns == old(Now().turns) && checks >= old(checks)
      ensures course == CourseOf(r.(context := r.context + ToolResults(m, t)), m, t, stopAt, old(checks))
      ensures Left(exit, old(trace) + ToolEvents(m, t) + [TurnEnd(m, ToolResults(m, t))])
      ensures exit.Onward? ==> checks == old(checks) + 5 && course == Goes(next, pending)
      ensures exit == Returned(true) ==> course.Ends?
      ensures exit != Returned(false) ==> !BatchFails(m, t) && !t.finish.DecisionFails?
      ensures exit == Returned(false) ==> failed || BatchFails(m, t) || t.finish.DecisionFails? || course.Fails?
      ensures old(Original()) && !r.replaced ==> Original()
    {
      pending := [];
      course := CourseOf(r.(context := r.context + ToolResults(m, t)), m, t, stopAt, checks);
      exit, next := Settle(r, m, t);
      if exit.Returned? {
        return;
      }
      if HardExit(m) {
        exit := Finish(true);
      } else {
        exit, next, pending := Continue(next, m, t);
      }
    }

    /** One turn of the loop: unless it broke or a commitment failed, its events and its course are those of
        the plan. */
    method Turn(first: bool, r: Request, initial: seq<Message>, t: TurnScript, ghost st: Standing)
      returns (exit: Exit, next: Request, attempted: bool, pending: seq<Message>, ghost closed: seq<Event>, ghost course: Course)
      requires Inv() && Now().stage.Between? && (first ==> !r.replaced) && Stands(st, r, initial)
      modifies this`messages, this`streaming, this`pendingCalls, this`trace, this`failed, this`checks, this`seen
      ensures Inv() && Settled(exit) && Now().turns == old(Now().turns) + 1 && checks >= old(checks)
      ensures Left(exit, closed)
      ensures exit != Returned(false) ==> Went(canon, stopAt, first, st, t, old(trace), closed, course)
      ensures exit.Onward? ==>
                && course == Goes(next, pending) && checks == old(checks) + Asked(t) + 5
                && attempted == SeesStop(stopAt, old(checks) + Asked(t))
      ensures exit == Returned(true) ==> course.Ends?
      ensures exit == Returned(false) ==> failed || Breaks(t, stopAt, old(checks))
      ensures old(Original()) && Keeps(t) && !r.replaced ==> Original() && (exit.Onward? ==> !next.replaced)
    {
      ghost var before := trace;
      pending, closed, course := [], trace, Ends;
      var answer;
      exit, next, attempted, answer := Open(first, r, initial, t, st);
      if exit.Returned? {
        return;
      }
      ghost var told, asked, now := trace, next, checks;
      closed := trace + ToolEvents(answer, t) + [TurnEnd(answer, ToolResults(answer, t))];
      exit, next, pending, course := Conclude(next, answer, t);
      TurnClosed(canon, stopAt, first, st, answer, t, before, told, asked, now, course);
    }

    ghost function PlanOf(input: Input, maxTurns: Option<int>, script: seq<TurnScript>, checks: nat): Plan {
      PlanFrom(canon, stopAt, maxTurns, 0, Standing(base, Request([], [], false), FirstPending(input), checks, false), script)
    }

    /** `run_loop` and `run_turns`, as far as the script goes. */
    method Run(input: Input, maxTurns: Option<int>, script: seq<TurnScript>) returns (outcome: Outcome)
      requires Inv() && trace == [] && messages == base
      modifies this
      ensures Now().Status? && messages == base + Now().ended
      ensures forall o :: o in seen ==> Good(canon, o)
      ensures failed <==> exists i :: 0 <= i < |trace| && !commits(i)
      ensures failed && !outcome.Unfinished? ==> outcome.Erred?
      ensures !outcome.Unfinished? && trace != [] && !failed ==> Now().stage.Over?
      ensures trace == [] <==> NothingToDo(input, base)
      ensures trace == [] ==> outcome.Erred?
      ensures Bounded(maxTurns, stopAt, Now().turns)
      ensures old(seen) == [] && (forall i :: 0 <= i < |script| ==> Keeps(script[i])) ==> Original()
      ensures !outcome.Unfinished? ==> !running && streaming.None? && pendingCalls == []
      ensures trace != [] && !failed ==>
                Follows(PlanOf(input, maxTurns, script, old(checks)), if outcome.Unfinished? then None else Some(outcome.Succeeded?),
                  trace, Now().ended, false)
    {
      running, streaming, pendingCalls := true, None, [];
      var exit := RunTurns(input, maxTurns, script);
      if exit.None? {
        return Unfinished;
      }
      running, streaming, pendingCalls := false, None, [];
      outcome := if failed || !exit.value then Erred else Succeeded;
    }

    method RunTurns(input: Input, maxTurns: Option<int>, script: seq<TurnScript>) returns (result: Option<bool>)
      requires Inv() && trace == [] && messages == base
      modifies this`messages, this`streaming, this`pendingCalls, this`trace, this`failed, this`checks, this`seen
      ensures Inv()
      ensures result.Some? && trace != [] ==> failed || Now().stage.Over?
      ensures trace == [] <==> NothingToDo(input, base)
      ensures trace == [] ==> result == Some(false)
      ensures Bounded(maxTurns, stopAt, Now().turns)
      ensures old(seen) == [] && (forall i :: 0 <= i < |script| ==> Keeps(script[i])) ==> Original()
      ensures trace != [] ==> Follows(PlanOf(input, maxTurns, script, old(checks)), result, trace, Now().ended, failed)
    {
      var prompted := input.user.Some? || input.messages != [];
      if !prompted && (messages == [] || messages[|messages| - 1].Assistant?) {
        return Some(false);
      }
      var ok := Emit(AgentStart);
      if !ok {
        return Some(false);
      }
      var pending := input.prefix + (if input.user.Some? then [User(input.user.value)] else [])
        + input.messages + (if input.drained then [] else input.steering);
      result := Loop(pending, maxTurns, script);
    }

    /** Whether another turn may start. */
    method MayStart(maxTurns: Option<int>, n: nat, attempted: bool) returns (ok: bool)
      modifies this`checks
      ensures ok == !(OutOfTurns(maxTurns, n) && (!SeesStop(stopAt, old(checks) + 1) || attempted))
      ensures checks == if OutOfTurns(maxTurns, n) then old(checks) + 1 else old(checks)
    {
      ok := true;
      if maxTurns.Some? && n + 1 > maxTurns.value {
        var stop := StopRequested();
        ok := stop && !attempted;
      }
    }

    /** The run stands before turn `n` of the plan. */
    ghost predicate At(plan: Plan, st: Standing, maxTurns: Option<int>, script: seq<TurnScript>, n: nat)
      reads this
      requires n <= |script|
    {
      && Now().Status? && Now().stage.Between? && Now().turns == n && st.live == messages && st.checks == checks
      && Along(canon, stopAt, maxTurns, script, n, plan, trace, st)
    }

    /** One turn of the plan, if it may start. */
    method OneTurn(n: nat, r: Request, pending: seq<Message>, attempted: bool, maxTurns: Option<int>, script: seq<TurnScript>,
                   ghost plan: Plan, ghost st: Standing)
      returns (result: Option<bool>, next: Request, queued: seq<Message>, tried: bool, ghost reached: Standing)
      requires n < |script| && Inv() && At(plan, st, maxTurns, script, n) && (n == 0 ==> !r.replaced)
      requires st.request == r && st.pending == pending && st.attempted == attempted
      modifies this`messages, this`streaming, this`pendingCalls, this`trace, this`failed, this`checks, this`seen
      ensures Inv() && trace != []
      ensures result.Some? ==> (failed || Now().stage.Over?) && Follows(plan, result, trace, Now().ended, failed)
      ensures result.Some? ==> Now().turns == if MayGo(stopAt, maxTurns, n, st) then n + 1 else n
      ensures result.None? ==>
                && At(plan, reached, maxTurns, script, n + 1) && MayGo(stopAt, maxTurns, n, st)
                && reached.request == next && reached.pending == queued && reached.attempted == tried
                && (OutOfTurns(maxTurns, n) ==> tried)
      ensures old(Original()) && Keeps(script[n]) && !r.replaced ==> Original() && (result.None? ==> !next.replaced)
    {
      next, queued, tried, reached := r, pending, attempted, st;
      ghost var before := trace;
      var ok := MayStart(maxTurns, n, attempted);
      if ok {
        result, next, queued, tried, reached := TakeTurn(n, r, pending, attempted, maxTurns, script, plan, st);
      } else {
        var exit := Finish(false);
        result := Some(false);
        AlongExhausted(canon, stopAt, maxTurns, script, n, plan, before, st, Now().ended, failed);
      }
    }

    method TakeTurn(n: nat, r: Request, pending: seq<Message>, attempted: bool, maxTurns: Option<int>, script: seq<TurnScript>,
                    ghost plan: Plan, ghost st: Standing)
      returns (result: Option<bool>, next: Request, queued: seq<Message>, tried: bool, ghost reached: Standing)
      requires n < |script| && Inv() && Now().stage.Between? && Now().turns == n && (n == 0 ==> !r.replaced)
      requires Along(canon, stopAt, maxTurns, script, n, plan, trace, st) && MayGo(stopAt, maxTurns, n, st)
      requires st.attempted == attempted && Stands(Starting(maxTurns, n, st), r, pending)
      modifies this`messages, this`streaming, this`pendingCalls, this`trace, this`failed, this`checks, this`seen
      ensures Inv() && trace != [] && Now().turns == n + 1
      ensures result.Some? ==> (failed || Now().stage.Over?) && Follows(plan, result, trace, Now().ended, failed)
      ensures result.None? ==>
                && At(plan, reached, maxTurns, script, n + 1)
                && reached.request == next && reached.pending == queued && reached.attempted == tried
                && (OutOfTurns(maxTurns, n) ==> tried)
      ensures old(Original()) && Keeps(script[n]) && !r.replaced ==> Original() && (result.None? ==> !next.replaced)
    {
      reached := st;
      ghost var before, closed, course := trace, trace, Ends;
      var exit, saw;
      exit, next, saw, queued, closed, course := Turn(n == 0, r, pending, script[n], Starting(maxTurns, n, st));
      tried := attempted || saw;
      if exit.Onward? {
        result := None;
        reached := AlongNext(canon, stopAt, maxTurns, script, n, plan, before, st, closed, course, base);
      } else {
        result := Some(exit.ok);
        AlongOver(canon, stopAt, maxTurns, script, n, plan, before, st, closed, trace, Now().ended, failed, exit.ok);
      }
    }

    method Loop(initial: seq<Message>, maxTurns: Option<int>, script: seq<TurnScript>) returns (result: Option<bool>)
      requires Inv() && trace == [AgentStart] && Now().stage.Between? && Now().turns == 0 && messages == base
      modifies this`messages, this`streaming, this`pendingCalls, this`trace, this`failed, this`checks, this`seen
      ensures Inv() && trace != []
      ensures result.Some? ==> failed || Now().stage.Over?
      ensures Bounded(maxTurns, stopAt, Now().turns)
      ensures old(seen) == [] && (forall i :: 0 <= i < |script| ==> Keeps(script[i])) ==> Original()
      ensures Follows(PlanFrom(canon, stopAt, maxTurns, 0, Standing(base, Request([], [], false), initial, old(checks), false), script), result,
                trace, Now().ended, failed)
    {
      var r, attempted, pending := Request([], [], false), false, initial;
      ghost var st := Standing(base, r, pending, checks, false);
      ghost var plan := PlanFrom(canon, stopAt, maxTurns, 0, st, script);
      AlongFirst(canon, stopAt, maxTurns, script, st);
      for i := 0 to |script|
        invariant Inv() && At(plan, st, maxTurns, script, i) && (i == 0 ==> !r.replaced)
        invariant st.request == r && st.pending == pending && st.attempted == attempted
        invariant old(seen) == [] && (forall k :: 0 <= k < |script| ==> Keeps(script[k])) ==> Original() && !r.replaced
        invariant WithinTurns(maxTurns, stopAt, i, attempted)
      {
        ghost var now := st;
        var ended;
        ended, r, pending, attempted, st := OneTurn(i, r, pending, attempted, maxTurns, script, plan, st);
        if ended.Some? {
          return ended;
        }
        WithinNext(maxTurns, stopAt, i, now, attempted);
      }
      AlongLast(canon, stopAt, maxTurns, script, plan, trace, st, Now().ended, failed);
      result := None;
    }
  }
}
