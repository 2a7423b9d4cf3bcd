/** What a turn is made of, told from the scripts alone: which messages are appended, which events tell of
    them, and whether another turn follows with which request and which pending messages. */
module TurnPlan {
  import opened Values
  import opened Loadout
  import opened TurnEvents

  // ---------------------------------------------------------------- what the loop meets outside

  /** What a policy hook that may update the request did; `tools` are the live tools afterwards. */
  datatype Update =
    | NoUpdate
    | HookFails
    | Refused
    | Applied(context: Option<seq<Message>>, tools: seq<Tool>, messages: seq<Message>)

  datatype Rewrite = Untouched | RewriteFails | Rewritten(messages: seq<Message>)

  datatype StreamEvent =
    | StreamStart(partial: Reply)
    | StreamPartial(partial: Reply, call: Option<string>)
    | StreamSilent

  /** What a tool batch does, in order. */
  datatype Action = Started(id: string) | Progressed(id: string) | Completed(id: string) | Delivered(call: string, text: string)

  datatype Decision = DecisionFails | NoDecision | EndRun | ContinueRun

  /** Everything that is decided outside the loop during one turn. */
  datatype TurnScript = TurnScript(
    tools: seq<Tool>,
    now: int,
    prepare: Update,
    transform: Rewrite,
    convert: Rewrite,
    stream: seq<StreamEvent>,
    answer: Option<Reply>,
    actions: seq<Action>,
    batchOk: bool,
    terminate: bool,
    finish: Decision,
    steering: seq<Message>,
    followUp: seq<Message>,
    lateSteering: seq<Message>,
    prepareNext: Update)

  datatype Reply = Reply(text: string, calls: seq<string>, reason: StopReason)

  function Spoken(r: Reply): (m: Message)
    ensures m.Assistant?
  {
    Assistant(r.text, r.calls, r.reason)
  }

  datatype Input = Input(prefix: seq<Message>, user: Option<string>, messages: seq<Message>, drained: bool, steering: seq<Message>)

  datatype Request = Request(context: seq<Message>, tools: seq<Tool>, replaced: bool)

  predicate Replaces(u: Update) {
    u.Applied? && u.context.Some?
  }

  /** No hook of this turn replaces the context. */
  predicate Keeps(t: TurnScript) {
    !Replaces(t.prepare) && !Replaces(t.prepareNext)
  }

  /** Whether the given query sees a stop. */
  predicate SeesStop(stopAt: Option<nat>, query: nat) {
    stopAt.Some? && stopAt.value <= query
  }

  // ---------------------------------------------------------------- events

  function Lifecycle(m: Message): seq<Event> {
    [MessageStart(m), MessageEnd(m)]
  }

  function Lifecycles(all: seq<Message>): seq<Event> {
    if all == [] then [] else Lifecycles(all[..|all| - 1]) + Lifecycle(all[|all| - 1])
  }

  predicate HasStart(stream: seq<StreamEvent>) {
    exists i :: 0 <= i < |stream| && stream[i].StreamStart?
  }

  function StreamEcho(e: StreamEvent, started: bool): seq<Event> {
    match e
    case StreamStart(partial) => if started then [] else [MessageStart(Spoken(partial))]
    case StreamPartial(partial, call) => [MessageUpdate(Spoken(partial), call)]
    case StreamSilent => []
  }

  /** What is told of a provider stream: the first start and every update. */
  function Streamed(stream: seq<StreamEvent>): seq<Event> {
    if stream == [] then []
    else
      var front := stream[..|stream| - 1];
      Streamed(front) + StreamEcho(stream[|stream| - 1], HasStart(front))
  }

  /** The end of the answer, after a start of its own unless the stream brought one. */
  function AnswerEvents(m: Message, started: bool): seq<Event> {
    (if started then [] else [MessageStart(m)]) + [MessageEnd(m)]
  }

  function ActionEcho(a: Action): seq<Event> {
    match a
    case Started(id) => [ToolStart(id)]
    case Progressed(id) => [ToolUpdate(id)]
    case Completed(id) => [ToolEnd(id)]
    case Delivered(call, text) => Lifecycle(ToolResult(call, text))
  }

  function Echo(actions: seq<Action>): seq<Event> {
    if actions == [] then [] else Echo(actions[..|actions| - 1]) + ActionEcho(actions[|actions| - 1])
  }

  function ResultsOf(actions: seq<Action>): seq<Message> {
    if actions == [] then []
    else
      ResultsOf(actions[..|actions| - 1]) + ResultOf(actions[|actions| - 1])
  }

  function ResultOf(a: Action): seq<Message> {
    if a.Delivered? then [ToolResult(a.call, a.text)] else []
  }

  function Rejection(call: string): Message {
    ToolResult(call, "not executed")
  }

  function Rejections(calls: seq<string>): seq<Message> {
    seq(|calls|, i requires 0 <= i < |calls| => Rejection(calls[i]))
  }

  function RejectEcho(call: string): seq<Event> {
    [ToolStart(call), ToolEnd(call)] + Lifecycle(Rejection(call))
  }

  function RejectEvents(calls: seq<string>): seq<Event> {
    if calls == [] then []
    else
      var call := calls[|calls| - 1];
      RejectEvents(calls[..|calls| - 1]) + RejectEcho(call)
  }

  predicate HardExit(m: Message)
    requires m.Assistant?
  {
    m.reason.Failed? || m.reason.Aborted?
  }

  /** The results of the calls of an answer: none if it failed or calls nothing, a rejection for each call
      if it was cut off, what the batch delivers otherwise. */
  function ToolResults(m: Message, t: TurnScript): seq<Message>
    requires m.Assistant?
  {
    if HardExit(m) || m.calls == [] then [] else if m.reason.Length? then Rejections(m.calls) else ResultsOf(t.actions)
  }

  function ToolEvents(m: Message, t: TurnScript): seq<Event>
    requires m.Assistant?
  {
    if HardExit(m) || m.calls == [] then [] else if m.reason.Length? then RejectEvents(m.calls) else Echo(t.actions)
  }

  /** The events of a turn until its answer ends, from the messages it appends. */
  function AskTrace(said: seq<Message>, m: Message, t: TurnScript): seq<Event> {
    [TurnStart] + Lifecycles(said) + Streamed(t.stream) + AnswerEvents(m, HasStart(t.stream))
  }

  /** The events of a turn that appends these messages and gets this answer. */
  function TurnTrace(said: seq<Message>, m: Message, t: TurnScript): seq<Event>
    requires m.Assistant?
  {
    AskTrace(said, m, t) + ToolEvents(m, t) + [TurnEnd(m, ToolResults(m, t))]
  }

  /** The same events, told from `before` on. */
  lemma {:induction false} AskTraceFrom(before: seq<Event>, said: seq<Message>, m: Message, t: TurnScript)
    ensures before + AskTrace(said, m, t)
            == before + [TurnStart] + Lifecycles(said) + Streamed(t.stream) + AnswerEvents(m, HasStart(t.stream))
  {
    Regroup(before, [TurnStart], Lifecycles(said), Streamed(t.stream), AnswerEvents(m, HasStart(t.stream)));
  }

  lemma {:induction false} TurnFrom(before: seq<Event>, said: seq<Message>, m: Message, t: TurnScript)
    requires m.Assistant?
    ensures before + TurnTrace(said, m, t)
            == before + AskTrace(said, m, t) + ToolEvents(m, t) + [TurnEnd(m, ToolResults(m, t))]
  {
    Grouped(before, AskTrace(said, m, t) + ToolEvents(m, t), [TurnEnd(m, ToolResults(m, t))]);
    Grouped(before, AskTrace(said, m, t), ToolEvents(m, t));
  }

  lemma {:induction false} Regroup(a: seq<Event>, b: seq<Event>, c: seq<Event>, d: seq<Event>, e: seq<Event>)
    ensures a + (b + c + d + e) == a + b + c + d + e
  {
  }

  lemma {:induction false} LifecyclesNext(before: seq<Event>, all: seq<Message>, i: nat)
    requires i < |all|
    ensures before + Lifecycles(all[..i]) + Lifecycle(all[i]) == before + Lifecycles(all[..i + 1])
  {
    assert all[..i + 1][..i] == all[..i];
    Grouped(before, Lifecycles(all[..i]), Lifecycle(all[i]));
  }

  lemma {:induction false} StreamNext(before: seq<Event>, stream: seq<StreamEvent>, i: nat)
    requires i < |stream|
    ensures before + Streamed(stream[..i]) + StreamEcho(stream[i], HasStart(stream[..i])) == before + Streamed(stream[..i + 1])
    ensures HasStart(stream[..i + 1]) <==> HasStart(stream[..i]) || stream[i].StreamStart?
  {
    var longer := stream[..i + 1];
    assert longer[..i] == stream[..i];
    Grouped(before, Streamed(stream[..i]), StreamEcho(stream[i], HasStart(stream[..i])));
    assert forall k :: 0 <= k < i ==> longer[k] == stream[..i][k];
    assert longer[i] == stream[i];
  }

  lemma {:induction false} EchoNext(before: seq<Event>, actions: seq<Action>, i: nat)
    requires i < |actions|
    ensures before + Echo(actions[..i]) + ActionEcho(actions[i]) == before + Echo(actions[..i + 1])
    ensures ResultsOf(actions[..i]) + ResultOf(actions[i]) == ResultsOf(actions[..i + 1])
  {
    assert actions[..i + 1][..i] == actions[..i];
    Grouped(before, Echo(actions[..i]), ActionEcho(actions[i]));
  }

  lemma {:induction false} RejectNext(before: seq<Event>, calls: seq<string>, i: nat)
    requires i < |calls|
    ensures before + RejectEvents(calls[..i]) + RejectEcho(calls[i]) == before + RejectEvents(calls[..i + 1])
    ensures Rejections(calls[..i]) + [Rejection(calls[i])] == Rejections(calls[..i + 1])
  {
    assert calls[..i + 1][..i] == calls[..i];
    Grouped(before, RejectEvents(calls[..i]), RejectEcho(calls[i]));
  }

  lemma {:induction false} Grouped(a: seq<Event>, b: seq<Event>, c: seq<Event>)
    ensures a + (b + c) == a + b + c
  {
  }

  // ---------------------------------------------------------------- requests

  function Adopted(r: Request, u: Update): Request {
    if u.Applied? then Request(if u.context.Some? then u.context.value else r.context, u.tools, r.replaced || u.context.Some?)
    else r
  }

  predicate UpdateFails(u: Update) {
    u.HookFails? || u.Refused?
  }

  /** What is sent: the last rewriting wins, except that a failed transform sends the context. */
  function Sent(context: seq<Message>, t: TurnScript): seq<Message> {
    if t.transform.RewriteFails? then context
    else if t.convert.Rewritten? then t.convert.messages
    else if t.transform.Rewritten? then t.transform.messages
    else context
  }

  /** The queries a turn makes before it answers. */
  function Asked(t: TurnScript): nat {
    if t.transform.RewriteFails? then 2 else 1
  }

  predicate RequestFails(t: TurnScript, stopAt: Option<nat>, checks: nat) {
    if t.transform.RewriteFails? then !SeesStop(stopAt, checks + 1)
    else t.convert.RewriteFails? || t.convert == Rewritten([])
  }

  predicate BatchFails(m: Message, t: TurnScript)
    requires m.Assistant?
  {
    !HardExit(m) && m.calls != [] && !m.reason.Length? && !t.batchOk
  }

  /** The request a turn starts from: live history, unless a hook replaced the context before. */
  function Opening(first: bool, r: Request, live: seq<Message>, t: TurnScript): Request {
    Request(if !r.replaced || first then live else r.context, t.tools, r.replaced)
  }

  // ---------------------------------------------------------------- whether another turn follows

  datatype Course = Ends | Fails | Goes(next: Request, pending: seq<Message>)

  /** After the turn ended, with `checks` queries made so far: what the five queries see decides which queues
      are polled and whether the next turn is prepared. */
  function CourseOf(r: Request, m: Message, t: TurnScript, stopAt: Option<nat>, checks: nat): Course
    requires m.Assistant?
  {
    var steered := if SeesStop(stopAt, checks + 1) then [] else t.steering;
    var more := m.calls != [] && (!t.terminate || SeesStop(stopAt, checks + 2));
    var queued := if steered == [] && !more && !SeesStop(stopAt, checks + 3) then t.followUp else steered;
    if HardExit(m) || t.finish.EndRun? || (!more && queued == [] && !t.finish.ContinueRun?) then Ends
    else
      var prepares := !SeesStop(stopAt, checks + 4);
      if prepares && UpdateFails(t.prepareNext) then Fails
      else
        var late := if queued == [] && !SeesStop(stopAt, checks + 5) then t.lateSteering else queued;
        if prepares && t.prepareNext.Applied? then Goes(Adopted(r, t.prepareNext), t.prepareNext.messages + late)
        else Goes(r, late)
  }

  /** The first queue that has a message. */
  function FirstWaiting(queues: seq<seq<Message>>): seq<Message> {
    if queues == [] then [] else if queues[0] != [] then queues[0] else FirstWaiting(queues[1..])
  }

  function Prepared(u: Update): seq<Message> {
    if u.Applied? then u.messages else []
  }

  /** Without a stop: the run ends unless the answer wants its results read, a message waits or the policy
      insists; otherwise the messages of the hook come first, then those of the first queue that has any. */
  lemma {:induction false} UnstoppedCourse(r: Request, m: Message, t: TurnScript, checks: nat)
    requires m.Assistant?
    ensures var course := CourseOf(r, m, t, None, checks);
            var more := m.calls != [] && !t.terminate;
            var queues := [t.steering] + (if more then [] else [t.followUp]) + [t.lateSteering];
            var waits := more || t.steering != [] || t.followUp != [] || t.finish.ContinueRun?;
            && (course.Ends? <==> HardExit(m) || t.finish.EndRun? || !waits)
            && (course.Fails? <==> !course.Ends? && UpdateFails(t.prepareNext))
            && (course.Goes? ==> course == Goes(Adopted(r, t.prepareNext), Prepared(t.prepareNext) + FirstWaiting(queues)))
  {
    var late := [t.lateSteering];
    assert late[1..] == [];
    assert FirstWaiting(late) == t.lateSteering;
    var follow := [t.followUp] + late;
    assert follow[1..] == late;
    if m.calls != [] && !t.terminate {
      assert ([t.steering] + [] + late)[1..] == late;
    } else {
      assert ([t.steering] + [t.followUp] + late)[1..] == follow;
    }
    assert [] + FirstWaiting(follow) == FirstWaiting(follow) && [] + t.lateSteering == t.lateSteering;
  }

  /** Once a stop is seen: no queue is polled and no hook runs; results are still read. */
  lemma {:induction false} StoppedCourse(r: Request, m: Message, t: TurnScript, stopAt: Option<nat>, checks: nat)
    requires m.Assistant? && SeesStop(stopAt, checks + 1)
    ensures CourseOf(r, m, t, stopAt, checks) ==
            if HardExit(m) || t.finish.EndRun? || (m.calls == [] && !t.finish.ContinueRun?) then Ends else Goes(r, [])
  {
  }

  // ---------------------------------------------------------------- what a turn says

  lemma {:induction false} EndedConcat(a: seq<Event>, b: seq<Event>)
    ensures EndedIn(a + b) == EndedIn(a) + EndedIn(b)
    decreases |b|
  {
    if b == [] {
      assert a + b == a;
    } else {
      var n := |b| - 1;
      assert (a + b)[..|a + b| - 1] == a + b[..n];
      EndedConcat(a, b[..n]);
    }
  }

  lemma {:induction false} LifecycleEnds(m: Message)
    ensures EndedIn(Lifecycle(m)) == [m]
  {
    OneEvent(MessageStart(m));
    OneEvent(MessageEnd(m));
    EndedConcat([MessageStart(m)], [MessageEnd(m)]);
    assert Lifecycle(m) == [MessageStart(m)] + [MessageEnd(m)];
  }

  lemma {:induction false} LifecyclesEnd(all: seq<Message>)
    ensures EndedIn(Lifecycles(all)) == all
  {
    if all != [] {
      var front, m := all[..|all| - 1], all[|all| - 1];
      LifecyclesEnd(front);
      LifecycleEnds(m);
      EndedConcat(Lifecycles(front), Lifecycle(m));
    }
  }

  lemma {:induction false} OneEvent(e: Event)
    ensures EndedIn([e]) == if e.MessageEnd? then [e.message] else []
  {
    assert [e][..0] == [];
  }

  lemma {:induction false} StreamEndsNothing(stream: seq<StreamEvent>)
    ensures EndedIn(Streamed(stream)) == []
  {
    if stream != [] {
      var front, e := stream[..|stream| - 1], stream[|stream| - 1];
      StreamEndsNothing(front);
      var echo := StreamEcho(e, HasStart(front));
      if echo != [] {
        OneEvent(echo[0]);
        assert echo == [echo[0]];
      }
      EndedConcat(Streamed(front), echo);
    }
  }

  lemma {:induction false} EchoEnds(actions: seq<Action>)
    ensures EndedIn(Echo(actions)) == ResultsOf(actions)
  {
    if actions != [] {
      var front, a := actions[..|actions| - 1], actions[|actions| - 1];
      EchoEnds(front);
      ActionEnds(a);
      EndedConcat(Echo(front), ActionEcho(a));
    }
  }

  lemma {:induction false} ActionEnds(a: Action)
    ensures EndedIn(ActionEcho(a)) == ResultOf(a)
  {
    if a.Delivered? {
      LifecycleEnds(ToolResult(a.call, a.text));
    } else {
      OneEvent(ActionEcho(a)[0]);
    }
  }

  lemma {:induction false} RejectionEnds(call: string)
    ensures EndedIn(RejectEcho(call)) == [Rejection(call)]
  {
    OneEvent(ToolStart(call));
    OneEvent(ToolEnd(call));
    assert [ToolStart(call), ToolEnd(call)] == [ToolStart(call)] + [ToolEnd(call)];
    EndedConcat([ToolStart(call)], [ToolEnd(call)]);
    LifecycleEnds(Rejection(call));
    EndedConcat([ToolStart(call), ToolEnd(call)], Lifecycle(Rejection(call)));
  }

  lemma {:induction false} RejectionsEnd(calls: seq<string>)
    ensures EndedIn(RejectEvents(calls)) == Rejections(calls)
  {
    if calls != [] {
      var n := |calls| - 1;
      RejectionsEnd(calls[..n]);
      RejectionEnds(calls[n]);
      EndedConcat(RejectEvents(calls[..n]), RejectEcho(calls[n]));
      RejectNext([], calls, n);
      assert calls[..n + 1] == calls;
    }
  }

  lemma {:induction false} ToolsEnd(m: Message, t: TurnScript)
    requires m.Assistant?
    ensures EndedIn(ToolEvents(m, t)) == ToolResults(m, t)
  {
    EchoEnds(t.actions);
    RejectionsEnd(m.calls);
  }

  lemma {:induction false} AnswerEnds(m: Message, started: bool)
    ensures EndedIn(AnswerEvents(m, started)) == [m]
  {
    if started {
      OneEvent(MessageEnd(m));
      assert AnswerEvents(m, started) == [MessageEnd(m)];
    } else {
      LifecycleEnds(m);
      assert AnswerEvents(m, started) == Lifecycle(m);
    }
  }

  /** A turn adds to the history what was pending as declared, the answer and the results, in this order. */
  lemma {:induction false} TurnSays(said: seq<Message>, m: Message, t: TurnScript)
    requires m.Assistant?
    ensures EndedIn(TurnTrace(said, m, t)) == said + [m] + ToolResults(m, t)
  {
    OneEvent(TurnEnd(m, ToolResults(m, t)));
    AskSays(said, m, t);
    ToolsEnd(m, t);
    ThreeParts(AskTrace(said, m, t), ToolEvents(m, t), [TurnEnd(m, ToolResults(m, t))]);
  }

  lemma {:induction false} AskSays(said: seq<Message>, m: Message, t: TurnScript)
    ensures EndedIn(AskTrace(said, m, t)) == said + [m]
  {
    OneEvent(TurnStart);
    LifecyclesEnd(said);
    StreamEndsNothing(t.stream);
    AnswerEnds(m, HasStart(t.stream));
    QuietParts([TurnStart], Lifecycles(said), Streamed(t.stream), AnswerEvents(m, HasStart(t.stream)));
  }

  lemma {:induction false} QuietParts(a: seq<Event>, b: seq<Event>, c: seq<Event>, d: seq<Event>)
    requires EndedIn(a) == [] && EndedIn(c) == []
    ensures EndedIn(a + b + c + d) == EndedIn(b) + EndedIn(d)
  {
    ThreeParts(a, b, c);
    assert EndedIn(a + b + c) == EndedIn(b);
    EndedConcat(a + b + c, d);
  }

  lemma {:induction false} ThreeParts(a: seq<Event>, b: seq<Event>, c: seq<Event>)
    ensures EndedIn(a + b + c) == EndedIn(a) + EndedIn(b) + EndedIn(c)
  {
    EndedConcat(a, b);
    EndedConcat(a + b, c);
  }

  /** A stream tells of starts and updates only, of at most one start, and of one exactly if it sends one. */
  lemma {:induction false} StartsOnce(stream: seq<StreamEvent>)
    ensures forall i :: 0 <= i < |Streamed(stream)| ==> Streamed(stream)[i].MessageStart? || Streamed(stream)[i].MessageUpdate?
    ensures HasStart(stream) <==> exists i :: 0 <= i < |Streamed(stream)| && Streamed(stream)[i].MessageStart?
    ensures forall i, j :: 0 <= i < j < |Streamed(stream)| ==> !(Streamed(stream)[i].MessageStart? && Streamed(stream)[j].MessageStart?)
  {
    if stream != [] {
      var n := |stream| - 1;
      var front, e := stream[..n], stream[n];
      StartsOnce(front);
      assert HasStart(stream) <==> HasStart(front) || e.StreamStart? by {
        assert forall i :: 0 <= i < n ==> stream[i] == front[i];
      }
      var told, echo := Streamed(front), StreamEcho(e, HasStart(front));
      var all := told + echo;
      assert Streamed(stream) == all;
      if HasStart(front) {
        var i :| 0 <= i < |told| && told[i].MessageStart?;
        assert all[i].MessageStart?;
      } else if e.StreamStart? {
        assert all[|told|].MessageStart?;
      }
    }
  }

  // ---------------------------------------------------------------- whole runs

  datatype Ending = Open | Done | Exhausted | Broken

  datatype Plan = Plan(events: seq<Event>, ending: Ending)

  /** Where a run stands between two turns. */
  datatype Standing = Standing(live: seq<Message>, request: Request, pending: seq<Message>, checks: nat, attempted: bool)

  /** The messages a turn appends before it asks. */
  function Told(c: Canon, first: bool, st: Standing, t: TurnScript): seq<Message> {
    Declare(c, Opening(first, st.request, st.live, t).context, st.pending, t.tools, t.now)
  }

  /** The request the provider gets. */
  function AskedWith(c: Canon, first: bool, st: Standing, t: TurnScript): Request {
    var opening := Opening(first, st.request, st.live, t);
    Adopted(opening.(context := opening.context + Told(c, first, st, t)), t.prepare)
  }

  /** The request with the answer. */
  function AskedReply(c: Canon, first: bool, st: Standing, m: Message, t: TurnScript): Request {
    var asked := AskedWith(c, first, st, t);
    asked.(context := asked.context + [m])
  }

  /** The request after the results of the turn. */
  function AfterResults(c: Canon, first: bool, st: Standing, m: Message, t: TurnScript): Request
    requires m.Assistant?
  {
    var replied := AskedReply(c, first, st, m, t);
    replied.(context := replied.context + ToolResults(m, t))
  }

  /** A hook, the provider or the batch fails in this turn. */
  predicate Breaks(t: TurnScript, stopAt: Option<nat>, checks: nat) {
    || UpdateFails(t.prepare)
    || RequestFails(t, stopAt, checks)
    || t.answer.None?
    || BatchFails(Spoken(t.answer.value), t)
    || t.finish.DecisionFails?
    || CourseOf(Request([], [], false), Spoken(t.answer.value), t, stopAt, checks + Asked(t)).Fails?
  }

  /** Once the answer is there, a turn breaks exactly if something after it fails, whatever its request. */
  lemma {:induction false} BreaksAfter(t: TurnScript, stopAt: Option<nat>, checks: nat, r: Request, m: Message)
    requires !RequestFails(t, stopAt, checks) && !UpdateFails(t.prepare) && t.answer.Some? && m == Spoken(t.answer.value)
    ensures Breaks(t, stopAt, checks)
       <==> BatchFails(m, t) || t.finish.DecisionFails? || CourseOf(r, m, t, stopAt, checks + Asked(t)).Fails?
  {
    FailsAlike(r, Request([], [], false), m, t, stopAt, checks + Asked(t));
  }

  lemma {:induction false} FailsAlike(r: Request, s: Request, m: Message, t: TurnScript, stopAt: Option<nat>, checks: nat)
    requires m.Assistant?
    ensures CourseOf(r, m, t, stopAt, checks).Fails? <==> CourseOf(s, m, t, stopAt, checks).Fails?
  {
  }

  lemma {:induction false} CourseKeeps(r: Request, m: Message, t: TurnScript, stopAt: Option<nat>, checks: nat)
    requires m.Assistant? && Keeps(t) && !r.replaced
    ensures CourseOf(r, m, t, stopAt, checks).Goes? ==> !CourseOf(r, m, t, stopAt, checks).next.replaced
  {
  }

  predicate OutOfTurns(maxTurns: Option<int>, n: nat) {
    maxTurns.Some? && n + 1 > maxTurns.value
  }

  function TurnCourse(c: Canon, stopAt: Option<nat>, first: bool, st: Standing, m: Message, t: TurnScript): Course
    requires m.Assistant?
  {
    CourseOf(AfterResults(c, first, st, m, t), m, t, stopAt, st.checks + Asked(t))
  }

  /** A turn from the given standing went through: its events are those of the plan, and so is its course. */
  ghost predicate Went(c: Canon, stopAt: Option<nat>, first: bool, st: Standing, t: TurnScript,
                       before: seq<Event>, after: seq<Event>, course: Course)
  {
    && !Breaks(t, stopAt, st.checks)
    && after == before + TurnTrace(Told(c, first, st, t), Spoken(t.answer.value), t)
    && course == TurnCourse(c, stopAt, first, st, Spoken(t.answer.value), t)
  }

  /** From the answer on, a turn goes through unless something after the answer fails. */
  lemma {:induction false} TurnTied(c: Canon, stopAt: Option<nat>, first: bool, st: Standing, m: Message, t: TurnScript,
                                    before: seq<Event>, told: seq<Event>, course: Course)
    requires t.answer.Some? && m == Spoken(t.answer.value) && !Breaks(t, stopAt, st.checks)
    requires told == before + AskTrace(Told(c, first, st, t), m, t)
    requires course == TurnCourse(c, stopAt, first, st, m, t)
    ensures Went(c, stopAt, first, st, t, before, told + ToolEvents(m, t) + [TurnEnd(m, ToolResults(m, t))], course)
  {
    TurnFrom(before, Told(c, first, st, t), m, t);
  }

  lemma {:induction false} BreaksTied(c: Canon, stopAt: Option<nat>, first: bool, st: Standing, m: Message, t: TurnScript, course: Course)
    requires t.answer.Some? && m == Spoken(t.answer.value) && !RequestFails(t, stopAt, st.checks) && !UpdateFails(t.prepare)
    requires course == TurnCourse(c, stopAt, first, st, m, t)
    ensures Breaks(t, stopAt, st.checks) <==> BatchFails(m, t) || t.finish.DecisionFails? || course.Fails?
  {
    BreaksAfter(t, stopAt, st.checks, AfterResults(c, first, st, m, t), m);
  }

  /** The turn goes through, with these events and this course, exactly if nothing after the answer fails. */
  lemma {:induction false} TurnClosed(c: Canon, stopAt: Option<nat>, first: bool, st: Standing, m: Message, t: TurnScript,
                                      before: seq<Event>, told: seq<Event>, asked: Request, checks: nat, course: Course)
    requires t.answer.Some? && m == Spoken(t.answer.value) && !RequestFails(t, stopAt, st.checks) && !UpdateFails(t.prepare)
    requires told == before + AskTrace(Told(c, first, st, t), m, t)
    requires asked == AskedReply(c, first, st, m, t) && checks == st.checks + Asked(t)
    requires course == CourseOf(asked.(context := asked.context + ToolResults(m, t)), m, t, stopAt, checks)
    ensures if BatchFails(m, t) || t.finish.DecisionFails? || course.Fails? then Breaks(t, stopAt, st.checks)
            else Went(c, stopAt, first, st, t, before, told + ToolEvents(m, t) + [TurnEnd(m, ToolResults(m, t))], course)
    ensures Keeps(t) && !st.request.replaced && course.Goes? ==> !course.next.replaced
  {
    CourseTied(c, stopAt, first, st, m, t, asked, checks);
    BreaksTied(c, stopAt, first, st, m, t, course);
    if !Breaks(t, stopAt, st.checks) {
      TurnTied(c, stopAt, first, st, m, t, before, told, course);
    }
    if Keeps(t) && !st.request.replaced {
      TurnKeeps(c, stopAt, first, st, m, t);
    }
  }

  lemma {:induction false} CourseTied(c: Canon, stopAt: Option<nat>, first: bool, st: Standing, m: Message, t: TurnScript,
                                      asked: Request, checks: nat)
    requires m.Assistant? && asked == AskedReply(c, first, st, m, t) && checks == st.checks + Asked(t)
    ensures CourseOf(asked.(context := asked.context + ToolResults(m, t)), m, t, stopAt, checks) == TurnCourse(c, stopAt, first, st, m, t)
  {
    assert AfterResults(c, first, st, m, t) == asked.(context := asked.context + ToolResults(m, t));
  }

  lemma {:induction false} TurnKeeps(c: Canon, stopAt: Option<nat>, first: bool, st: Standing, m: Message, t: TurnScript)
    requires m.Assistant? && Keeps(t) && !st.request.replaced
    ensures !AskedReply(c, first, st, m, t).replaced
    ensures TurnCourse(c, stopAt, first, st, m, t).Goes? ==> !TurnCourse(c, stopAt, first, st, m, t).next.replaced
  {
    CourseKeeps(AfterResults(c, first, st, m, t), m, t, stopAt, st.checks + Asked(t));
  }

  /** Where a run stands after a turn that another one follows. */
  function Onwards(c: Canon, stopAt: Option<nat>, first: bool, st: Standing, m: Message, t: TurnScript): Standing
    requires m.Assistant? && TurnCourse(c, stopAt, first, st, m, t).Goes?
  {
    var course := TurnCourse(c, stopAt, first, st, m, t);
    Standing(st.live + Told(c, first, st, t) + [m] + ToolResults(m, t), course.next, course.pending,
      st.checks + Asked(t) + 5, st.attempted || SeesStop(stopAt, st.checks + Asked(t)))
  }

  /** The completed turns of a run from turn `n` on, and how it ends: a run out of turns is given one more
      under a stop that no request has seen. */
  function PlanFrom(c: Canon, stopAt: Option<nat>, maxTurns: Option<int>, n: nat, st: Standing, script: seq<TurnScript>): Plan
    decreases |script|, 1
  {
    if script == [] then Plan([], Open)
    else if OutOfTurns(maxTurns, n) && (!SeesStop(stopAt, st.checks + 1) || st.attempted) then Plan([], Exhausted)
    else PlanTurn(c, stopAt, maxTurns, n, if OutOfTurns(maxTurns, n) then st.(checks := st.checks + 1) else st, script)
  }

  function PlanTurn(c: Canon, stopAt: Option<nat>, maxTurns: Option<int>, n: nat, st: Standing, script: seq<TurnScript>): Plan
    requires script != []
    decreases |script|, 0
  {
    var t := script[0];
    if Breaks(t, stopAt, st.checks) then Plan([], Broken)
    else
      var m := Spoken(t.answer.value);
      var events := TurnTrace(Told(c, n == 0, st, t), m, t);
      if TurnCourse(c, stopAt, n == 0, st, m, t).Goes? then
        var rest := PlanFrom(c, stopAt, maxTurns, n + 1, Onwards(c, stopAt, n == 0, st, m, t), script[1..]);
        Plan(events + rest.events, rest.ending)
      else Plan(events, Done)
  }

  /** A plan behind the events that came before it. */
  function Ahead(done: seq<Event>, p: Plan): Plan {
    Plan(done + p.events, p.ending)
  }

  lemma {:induction false} AheadTwice(a: seq<Event>, b: seq<Event>, p: Plan)
    ensures Ahead(a, Ahead(b, p)) == Ahead(a + b, p)
  {
    Grouped(a, b, p.events);
  }

  /** Whether turn `n` may start from this standing. */
  predicate MayGo(stopAt: Option<nat>, maxTurns: Option<int>, n: nat, st: Standing) {
    OutOfTurns(maxTurns, n) ==> SeesStop(stopAt, st.checks + 1) && !st.attempted
  }

  /** The standing in which it starts, one query later if it is beyond the limit. */
  function Starting(maxTurns: Option<int>, n: nat, st: Standing): Standing {
    if OutOfTurns(maxTurns, n) then st.(checks := st.checks + 1) else st
  }

  lemma {:induction false} PlanStarts(c: Canon, stopAt: Option<nat>, maxTurns: Option<int>, n: nat, st: Standing, script: seq<TurnScript>)
    requires n < |script|
    ensures PlanFrom(c, stopAt, maxTurns, n, st, script[n..]) ==
            if MayGo(stopAt, maxTurns, n, st) then PlanTurn(c, stopAt, maxTurns, n, Starting(maxTurns, n, st), script[n..])
            else Plan([], Exhausted)
  {
  }

  /** A turn that went through and goes on is the next one of the plan. */
  lemma {:induction false} PlanGoes(c: Canon, stopAt: Option<nat>, maxTurns: Option<int>, n: nat, st: Standing, script: seq<TurnScript>,
                                    before: seq<Event>, closed: seq<Event>, course: Course) returns (said: seq<Event>, next: Standing)
    requires n < |script| && Went(c, stopAt, n == 0, st, script[n], before, closed, course) && course.Goes?
    ensures next.live == st.live + Told(c, n == 0, st, script[n]) + [Spoken(script[n].answer.value)]
                         + ToolResults(Spoken(script[n].answer.value), script[n])
    ensures course == Goes(next.request, next.pending) && next.checks == st.checks + Asked(script[n]) + 5
    ensures next.attempted == (st.attempted || SeesStop(stopAt, st.checks + Asked(script[n])))
    ensures closed == before + said
    ensures PlanTurn(c, stopAt, maxTurns, n, st, script[n..]) == Ahead(said, PlanFrom(c, stopAt, maxTurns, n + 1, next, script[n + 1..]))
  {
    var t := script[n];
    said := TurnTrace(Told(c, n == 0, st, t), Spoken(t.answer.value), t);
    next := Onwards(c, stopAt, n == 0, st, Spoken(t.answer.value), t);
    assert script[n..][1..] == script[n + 1..];
  }

  lemma {:induction false} PlanEnds(c: Canon, stopAt: Option<nat>, maxTurns: Option<int>, n: nat, st: Standing, script: seq<TurnScript>,
                                    before: seq<Event>, closed: seq<Event>) returns (said: seq<Event>)
    requires n < |script| && Went(c, stopAt, n == 0, st, script[n], before, closed, Ends)
    ensures closed == before + said && PlanTurn(c, stopAt, maxTurns, n, st, script[n..]) == Plan(said, Done)
  {
    said := TurnTrace(Told(c, n == 0, st, script[n]), Spoken(script[n].answer.value), script[n]);
  }

  lemma {:induction false} PlanBreaks(c: Canon, stopAt: Option<nat>, maxTurns: Option<int>, n: nat, st: Standing, script: seq<TurnScript>)
    requires n < |script| && Breaks(script[n], stopAt, st.checks)
    ensures PlanTurn(c, stopAt, maxTurns, n, st, script[n..]) == Plan([], Broken)
  {
  }

  lemma {:induction false} HistoryGrows(c: Canon, stopAt: Option<nat>, first: bool, st: Standing, t: TurnScript,
                                        before: seq<Event>, after: seq<Event>, course: Course, base: seq<Message>)
    requires Went(c, stopAt, first, st, t, before, after, course)
    requires Parse(before).Status? && Parse(after).Status? && st.live == base + Parse(before).ended
    ensures base + Parse(after).ended
            == st.live + Told(c, first, st, t) + [Spoken(t.answer.value)] + ToolResults(Spoken(t.answer.value), t)
  {
    EndedCounted(before);
    EndedCounted(after);
    WentSays(c, stopAt, first, st, t, before, after, course);
    Lined(base, EndedIn(before), Told(c, first, st, t), [Spoken(t.answer.value)], ToolResults(Spoken(t.answer.value), t));
  }

  lemma {:induction false} Lined(base: seq<Message>, ended: seq<Message>, a: seq<Message>, b: seq<Message>, c: seq<Message>)
    ensures base + (ended + (a + b + c)) == base + ended + a + b + c
  {
  }

  /** The history after a turn that went through. */
  lemma {:induction false} WentSays(c: Canon, stopAt: Option<nat>, first: bool, st: Standing, t: TurnScript,
                                    before: seq<Event>, after: seq<Event>, course: Course)
    requires Went(c, stopAt, first, st, t, before, after, course)
    ensures EndedIn(after) == EndedIn(before) + (Told(c, first, st, t) + [Spoken(t.answer.value)] + ToolResults(Spoken(t.answer.value), t))
  {
    var said, m := Told(c, first, st, t), Spoken(t.answer.value);
    EndedConcat(before, TurnTrace(said, m, t));
    TurnSays(said, m, t);
  }

  /** A run with these events came this far along the plan, or was cut short by a failed commitment. */
  ghost predicate Follows(plan: Plan, result: Option<bool>, trace: seq<Event>, ended: seq<Message>, failed: bool) {
    && (result.None? ==> plan.ending.Open? && trace == [AgentStart] + plan.events)
    && (result == Some(true) ==> plan.ending.Done?)
    && (result == Some(false) ==> failed || plan.ending.Exhausted? || plan.ending.Broken?)
    && (result.Some? && (plan.ending.Done? || plan.ending.Exhausted?) && !failed ==>
          trace == [AgentStart] + plan.events + [AgentEnd(ended)])
  }

  /** Every ending of a run that started is one of its plan. */
  lemma {:induction false} FollowsEnded(plan: Plan, done: seq<Event>, rest: Plan, trace: seq<Event>, ended: seq<Message>, failed: bool, ok: bool)
    requires plan == Ahead(done, rest) && (ok ==> rest.ending.Done?)
    requires !ok ==> failed || rest.ending.Exhausted? || rest.ending.Broken?
    requires ok || (!failed && rest.ending.Exhausted?) ==> trace == [AgentStart] + done + rest.events + [AgentEnd(ended)]
    ensures Follows(plan, Some(ok), trace, ended, failed)
  {
    Grouped([AgentStart], done, rest.events);
  }

  /** The run stands before turn `n` of the plan, with these events behind it. */
  ghost predicate Along(c: Canon, stopAt: Option<nat>, maxTurns: Option<int>, script: seq<TurnScript>, n: nat, plan: Plan,
                        trace: seq<Event>, st: Standing)
    requires n <= |script|
  {
    exists done :: trace == [AgentStart] + done && plan == Ahead(done, PlanFrom(c, stopAt, maxTurns, n, st, script[n..]))
  }

  lemma {:induction false} AlongFirst(c: Canon, stopAt: Option<nat>, maxTurns: Option<int>, script: seq<TurnScript>, st: Standing)
    ensures Along(c, stopAt, maxTurns, script, 0, PlanFrom(c, stopAt, maxTurns, 0, st, script), [AgentStart], st)
  {
    var plan, done: seq<Event> := PlanFrom(c, stopAt, maxTurns, 0, st, script), [];
    assert script[0..] == script && plan.events == done + plan.events && [AgentStart] == [AgentStart] + done;
  }

  lemma {:induction false} AlongLast(c: Canon, stopAt: Option<nat>, maxTurns: Option<int>, script: seq<TurnScript>, plan: Plan,
                                     trace: seq<Event>, st: Standing, ended: seq<Message>, failed: bool)
    requires Along(c, stopAt, maxTurns, script, |script|, plan, trace, st)
    ensures Follows(plan, None, trace, ended, failed)
  {
    var done :| trace == [AgentStart] + done && plan == Ahead(done, PlanFrom(c, stopAt, maxTurns, |script|, st, script[|script|..]));
    assert done + [] == done;
  }

  lemma {:induction false} AlongExhausted(c: Canon, stopAt: Option<nat>, maxTurns: Option<int>, script: seq<TurnScript>, n: nat, plan: Plan,
                                          before: seq<Event>, st: Standing, ended: seq<Message>, failed: bool)
    requires n < |script| && Along(c, stopAt, maxTurns, script, n, plan, before, st) && !MayGo(stopAt, maxTurns, n, st)
    ensures Follows(plan, Some(false), before + [AgentEnd(ended)], ended, failed)
  {
    var done :| before == [AgentStart] + done && plan == Ahead(done, PlanFrom(c, stopAt, maxTurns, n, st, script[n..]));
    PlanStarts(c, stopAt, maxTurns, n, st, script);
    assert [AgentStart] + done + [] == before;
    FollowsEnded(plan, done, Plan([], Exhausted), before + [AgentEnd(ended)], ended, failed, false);
  }

  lemma {:induction false} AlongBroken(c: Canon, stopAt: Option<nat>, maxTurns: Option<int>, script: seq<TurnScript>, n: nat, plan: Plan,
                                       before: seq<Event>, st: Standing, trace: seq<Event>, ended: seq<Message>, failed: bool)
    requires n < |script| && Along(c, stopAt, maxTurns, script, n, plan, before, st) && MayGo(stopAt, maxTurns, n, st)
    requires failed || Breaks(script[n], stopAt, Starting(maxTurns, n, st).checks)
    ensures Follows(plan, Some(false), trace, ended, failed)
  {
    if !failed {
      var done :| before == [AgentStart] + done && plan == Ahead(done, PlanFrom(c, stopAt, maxTurns, n, st, script[n..]));
      PlanStarts(c, stopAt, maxTurns, n, st, script);
      PlanBreaks(c, stopAt, maxTurns, n, Starting(maxTurns, n, st), script);
      FollowsEnded(plan, done, Plan([], Broken), trace, ended, failed, false);
    }
  }

  lemma {:induction false} AlongDone(c: Canon, stopAt: Option<nat>, maxTurns: Option<int>, script: seq<TurnScript>, n: nat, plan: Plan,
                                     before: seq<Event>, st: Standing, closed: seq<Event>, ended: seq<Message>, failed: bool)
    requires n < |script| && Along(c, stopAt, maxTurns, script, n, plan, before, st) && MayGo(stopAt, maxTurns, n, st)
    requires Went(c, stopAt, n == 0, Starting(maxTurns, n, st), script[n], before, closed, Ends)
    ensures Follows(plan, Some(true), closed + [AgentEnd(ended)], ended, failed)
  {
    var done :| before == [AgentStart] + done && plan == Ahead(done, PlanFrom(c, stopAt, maxTurns, n, st, script[n..]));
    PlanStarts(c, stopAt, maxTurns, n, st, script);
    var said := PlanEnds(c, stopAt, maxTurns, n, Starting(maxTurns, n, st), script, before, closed);
    FollowsEnded(plan, done, Plan(said, Done), closed + [AgentEnd(ended)], ended, failed, true);
  }

  lemma {:induction false} AlongOver(c: Canon, stopAt: Option<nat>, maxTurns: Option<int>, script: seq<TurnScript>, n: nat, plan: Plan,
                                     before: seq<Event>, st: Standing, closed: seq<Event>, trace: seq<Event>,
                                     ended: seq<Message>, failed: bool, ok: bool)
    requires n < |script| && Along(c, stopAt, maxTurns, script, n, plan, before, st) && MayGo(stopAt, maxTurns, n, st)
    requires ok ==>
               && trace == closed + [AgentEnd(ended)]
               && Went(c, stopAt, n == 0, Starting(maxTurns, n, st), script[n], before, closed, Ends)
    requires !ok ==> failed || Breaks(script[n], stopAt, Starting(maxTurns, n, st).checks)
    ensures Follows(plan, Some(ok), trace, ended, failed)
  {
    if ok {
      AlongDone(c, stopAt, maxTurns, script, n, plan, before, st, closed, ended, failed);
    } else {
      AlongBroken(c, stopAt, maxTurns, script, n, plan, before, st, trace, ended, failed);
    }
  }

  /** After a turn that goes on, the run stands before the next one of the plan. */
  lemma {:induction false} AlongNext(c: Canon, stopAt: Option<nat>, maxTurns: Option<int>, script: seq<TurnScript>, n: nat, plan: Plan,
                                     before: seq<Event>, st: Standing, closed: seq<Event>, course: Course, base: seq<Message>)
    returns (reached: Standing)
    requires n < |script| && Along(c, stopAt, maxTurns, script, n, plan, before, st) && MayGo(stopAt, maxTurns, n, st)
    requires Went(c, stopAt, n == 0, Starting(maxTurns, n, st), script[n], before, closed, course) && course.Goes?
    requires Parse(before).Status? && Parse(closed).Status? && st.live == base + Parse(before).ended
    ensures Along(c, stopAt, maxTurns, script, n + 1, plan, closed, reached)
    ensures reached.live == base + Parse(closed).ended && course == Goes(reached.request, reached.pending)
    ensures reached.checks == Starting(maxTurns, n, st).checks + Asked(script[n]) + 5
    ensures reached.attempted == (st.attempted || SeesStop(stopAt, Starting(maxTurns, n, st).checks + Asked(script[n])))
    ensures OutOfTurns(maxTurns, n) ==> reached.attempted
  {
    var done :| before == [AgentStart] + done && plan == Ahead(done, PlanFrom(c, stopAt, maxTurns, n, st, script[n..]));
    var now := Starting(maxTurns, n, st);
    PlanStarts(c, stopAt, maxTurns, n, st, script);
    var said;
    said, reached := PlanGoes(c, stopAt, maxTurns, n, now, script, before, closed, course);
    HistoryGrows(c, stopAt, n == 0, now, script[n], before, closed, course, base);
    Grouped([AgentStart], done, said);
    AheadTwice(done, said, PlanFrom(c, stopAt, maxTurns, n + 1, reached, script[n + 1..]));
  }

  /** The number of turns so far fits the limit, or a turn beyond it attempted a request under a stop. */
  predicate WithinTurns(maxTurns: Option<int>, stopAt: Option<nat>, n: nat, attempted: bool) {
    maxTurns.Some? && n > 0 && n > maxTurns.value ==> stopAt.Some? && attempted && (n == 1 || n <= maxTurns.value + 1)
  }

  lemma {:induction false} WithinNext(maxTurns: Option<int>, stopAt: Option<nat>, n: nat, st: Standing, tried: bool)
    requires WithinTurns(maxTurns, stopAt, n, st.attempted) && MayGo(stopAt, maxTurns, n, st) && (OutOfTurns(maxTurns, n) ==> tried)
    ensures WithinTurns(maxTurns, stopAt, n + 1, tried)
  {
  }

  /** At most the limit, and one more turn under a stop. */
  predicate Bounded(maxTurns: Option<int>, stopAt: Option<nat>, turns: nat) {
    maxTurns.Some? ==> turns <= (if stopAt.Some? then 1 else 0) + if maxTurns.value < 0 then 0 else maxTurns.value
  }

  /** Nothing to continue from: no prompt, and the history is empty or ends with an answer. */
  predicate NothingToDo(input: Input, live: seq<Message>) {
    input.user.None? && input.messages == [] && (live == [] || live[|live| - 1].Assistant?)
  }

  function FirstPending(input: Input): seq<Message> {
    input.prefix + (if input.user.Some? then [User(input.user.value)] else []) + input.messages
    + (if input.drained then [] else input.steering)
  }
}
