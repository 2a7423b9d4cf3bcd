/** The lifecycle events of one run and the grammar they follow. */
module TurnEvents {
  import opened Values
  import opened Loadout

  datatype Event =
    | AgentStart
    | AgentEnd(messages: seq<Message>)
    | TurnStart
    | TurnEnd(answer: Message, results: seq<Message>)
    | MessageStart(message: Message)
    | MessageUpdate(message: Message, call: Option<string>)
    | MessageEnd(message: Message)
    | ToolStart(id: string)
    | ToolUpdate(id: string)
    | ToolEnd(id: string)

  /** Where a run stands: `open` is the message that has started and not ended, `answer` the last
      assistant message that ended in this turn, `results` the tool results that ended after it. */
  datatype Stage =
    | Unstarted
    | Between
    | InTurn(open: Option<Message>, answer: Option<Message>, results: seq<Message>)
    | Over

  /** `ended` lists the messages that ended so far, `turns` counts the turns. */
  datatype Status = Status(stage: Stage, ended: seq<Message>, turns: nat) | Stuck

  /** A message ends as it started, except that an assistant message grows in between. */
  predicate MayEndAs(started: Message, ended: Message) {
    started == ended || (started.Assistant? && ended.Assistant?)
  }

  function AcceptInTurn(s: Status, e: Event): Status
    requires s.Status? && s.stage.InTurn?
  {
    var InTurn(open, answer, results) := s.stage;
    match e
    case MessageStart(m) => if open.None? then s.(stage := InTurn(Some(m), answer, results)) else Stuck
    case MessageUpdate(_, _) => if open.None? || open.value.Assistant? then s else Stuck
    case MessageEnd(m) =>
      if open.None? || !MayEndAs(open.value, m) then Stuck
      else if m.Assistant? then Status(InTurn(None, Some(m), []), s.ended + [m], s.turns)
      else Status(InTurn(None, answer, if m.ToolResult? then results + [m] else results), s.ended + [m], s.turns)
    case ToolStart(_) => if open.None? && answer.Some? then s else Stuck
    case ToolUpdate(_) => if open.None? && answer.Some? then s else Stuck
    case ToolEnd(_) => if open.None? && answer.Some? then s else Stuck
    case TurnEnd(m, rs) => if open.None? && answer == Some(m) && results == rs then s.(stage := Between) else Stuck
    case AgentEnd(ms) => if ms == s.ended then s.(stage := Over) else Stuck
    case _ => Stuck
  }

  function Accept(s: Status, e: Event): Status {
    if s.Stuck? then Stuck
    else
      match s.stage
      case Unstarted => if e.AgentStart? then s.(stage := Between) else Stuck
      case Between =>
        if e.TurnStart? then Status(InTurn(None, None, []), s.ended, s.turns + 1)
        else if e.AgentEnd? && e.messages == s.ended then s.(stage := Over)
        else Stuck
      case InTurn(_, _, _) => AcceptInTurn(s, e)
      case Over => Stuck
  }

  function Parse(trace: seq<Event>): Status {
    if trace == [] then Status(Unstarted, [], 0) else Accept(Parse(trace[..|trace| - 1]), trace[|trace| - 1])
  }

  lemma {:induction false} ParseSnoc(trace: seq<Event>, e: Event)
    ensures Parse(trace + [e]) == Accept(Parse(trace), e)
  {
    assert (trace + [e])[..|trace|] == trace;
  }

  // ---------------------------------------------------------------- what an accepted trace looks like

  lemma {:induction false} ParsePrefix(trace: seq<Event>, n: nat)
    requires n <= |trace| && Parse(trace).Status?
    ensures Parse(trace[..n]).Status?
    decreases |trace|
  {
    if n == |trace| {
      assert trace[..n] == trace;
    } else {
      var front := trace[..|trace| - 1];
      assert front[..n] == trace[..n];
      ParsePrefix(front, n);
    }
  }

  /** One step of the parse, seen from inside the trace. */
  lemma {:induction false} ParseAt(trace: seq<Event>, i: nat)
    requires i < |trace| && Parse(trace).Status?
    ensures Parse(trace[..i]).Status? && Parse(trace[..i + 1]).Status?
    ensures Parse(trace[..i + 1]) == Accept(Parse(trace[..i]), trace[i])
  {
    ParsePrefix(trace, i);
    ParsePrefix(trace, i + 1);
    assert trace[..i + 1] == trace[..i] + [trace[i]];
    ParseSnoc(trace[..i], trace[i]);
  }

  /** AgentStart comes first and only there; AgentEnd comes last, so at most once, and carries every
      message that ended. */
  lemma {:induction false} EndsOnce(trace: seq<Event>, i: nat)
    requires i < |trace| && Parse(trace).Status?
    ensures trace[i].AgentStart? <==> i == 0
    ensures trace[i].AgentEnd? ==> i == |trace| - 1 && trace[i].messages == Parse(trace).ended
  {
    ParseAt(trace, i);
    StartedAfter(trace, i);
    if i + 1 < |trace| {
      ParseAt(trace, i + 1);
    } else {
      assert trace[..i + 1] == trace;
    }
  }

  lemma {:induction false} StartedAfter(trace: seq<Event>, i: nat)
    requires i <= |trace| && Parse(trace).Status?
    ensures Parse(trace[..i]).Status? && (Parse(trace[..i]).stage.Unstarted? <==> i == 0)
  {
    ParsePrefix(trace, i);
    if i > 0 {
      ParseAt(trace, i - 1);
    }
  }

  /** While no TurnEnd comes, a started turn stays the current one. */
  lemma {:induction false} TurnStays(trace: seq<Event>, i: nat, j: nat)
    requires i < j <= |trace| && Parse(trace).Status? && trace[i].TurnStart?
    requires forall k :: i < k < j ==> !trace[k].TurnEnd?
    ensures Parse(trace[..j]).Status? && (Parse(trace[..j]).stage.InTurn? || Parse(trace[..j]).stage.Over?)
    decreases j
  {
    ParseAt(trace, j - 1);
    if j - 1 > i {
      TurnStays(trace, i, j - 1);
    }
  }

  /** Turns never nest: between two turn starts there is a turn end. */
  lemma {:induction false} TurnsNeverNest(trace: seq<Event>, i: nat, j: nat)
    requires i < j < |trace| && Parse(trace).Status?
    requires trace[i].TurnStart? && trace[j].TurnStart?
    ensures exists k :: i < k < j && trace[k].TurnEnd?
  {
    ParseAt(trace, j);
    if forall k :: i < k < j ==> !trace[k].TurnEnd? {
      TurnStays(trace, i, j);
      assert false;
    }
  }

  predicate MessageBoundary(e: Event) {
    e.MessageStart? || e.MessageEnd?
  }

  /** The last message boundary before `j` is the start that left its message open. */
  lemma {:induction false} OpenedBy(trace: seq<Event>, j: nat) returns (i: nat)
    requires j <= |trace| && Parse(trace).Status?
    requires Parse(trace[..j]).Status? && Parse(trace[..j]).stage.InTurn? && Parse(trace[..j]).stage.open.Some?
    ensures i < j && trace[i] == MessageStart(Parse(trace[..j]).stage.open.value)
    ensures forall k :: i < k < j ==> !MessageBoundary(trace[k]) && !trace[k].TurnStart? && !trace[k].TurnEnd?
  {
    var open := Parse(trace[..j]).stage.open;
    var n := j;
    while true
      invariant n <= j && LeavesOpen(trace, n, open)
      invariant forall k :: n <= k < j ==> !MessageBoundary(trace[k]) && !trace[k].TurnStart? && !trace[k].TurnEnd?
      decreases n
    {
      OpenBefore(trace, n, open);
      n := n - 1;
      if trace[n].MessageStart? {
        return n;
      }
    }
  }

  ghost predicate LeavesOpen(trace: seq<Event>, n: nat, open: Option<Message>)
    requires n <= |trace|
  {
    Parse(trace[..n]).Status? && Parse(trace[..n]).stage.InTurn? && Parse(trace[..n]).stage.open == open && open.Some?
  }

  /** An open message was just started, or was open before an event that is no boundary. */
  lemma {:induction false} OpenBefore(trace: seq<Event>, n: nat, open: Option<Message>)
    requires n <= |trace| && Parse(trace).Status? && LeavesOpen(trace, n, open)
    ensures n > 0 && !trace[n - 1].MessageEnd? && !trace[n - 1].TurnStart? && !trace[n - 1].TurnEnd?
    ensures if trace[n - 1].MessageStart? then trace[n - 1].message == open.value else LeavesOpen(trace, n - 1, open)
  {
    StartedAfter(trace, n);
    ParseAt(trace, n - 1);
  }

  /** Every message end follows exactly one start of its own message, in the same turn, with no other
      message start or end in between; for an assistant message the start is an assistant's. */
  lemma {:induction false} EachEndHasOneStart(trace: seq<Event>, j: nat) returns (i: nat)
    requires j < |trace| && Parse(trace).Status? && trace[j].MessageEnd?
    ensures i < j && trace[i].MessageStart? && MayEndAs(trace[i].message, trace[j].message)
    ensures forall k :: i < k < j ==> !MessageBoundary(trace[k]) && !trace[k].TurnStart? && !trace[k].TurnEnd?
  {
    ParseAt(trace, j);
    i := OpenedBy(trace, j);
  }

  /** The messages that ended, in order. */
  function EndedIn(trace: seq<Event>): seq<Message> {
    if trace == [] then []
    else
      var e := trace[|trace| - 1];
      EndedIn(trace[..|trace| - 1]) + if e.MessageEnd? then [e.message] else []
  }

  lemma {:induction false} EndedCounted(trace: seq<Event>)
    requires Parse(trace).Status?
    ensures Parse(trace).ended == EndedIn(trace)
    decreases |trace|
  {
    if trace != [] {
      ParsePrefix(trace, |trace| - 1);
      EndedCounted(trace[..|trace| - 1]);
    }
  }
}
