/** The live state of an agent: how each event changes it, and what it is after all of them. */
module LiveState {
  import opened Values
  import opened Loadout
  import opened TurnEvents

  datatype Live = Live(messages: seq<Message>, streaming: Option<Message>, pendingCalls: seq<string>)

  function Track(ids: seq<string>, id: string): seq<string> {
    if id in ids then ids else ids + [id]
  }

  function TrackAll(ids: seq<string>, calls: seq<string>): seq<string>
    decreases |calls|
  {
    if calls == [] then ids
    else TrackAll(if calls[0] == "" then ids else Track(ids, calls[0]), calls[1..])
  }

  function Dropped(ids: seq<string>, id: string): seq<string> {
    if ids == [] then [] else (if ids[0] == id then [] else [ids[0]]) + Dropped(ids[1..], id)
  }

  function Reduced(l: Live, e: Event): Live {
    match e
    case MessageStart(m) => if m.Assistant? then l.(streaming := Some(m)) else l
    case MessageUpdate(m, call) =>
      var shown := if m.Assistant? then l.(streaming := Some(m)) else l;
      if call.Some? && call.value != "" then shown.(pendingCalls := Track(l.pendingCalls, call.value)) else shown
    case MessageEnd(m) =>
      if m.Assistant? then Live(l.messages + [m], None, TrackAll([], m.calls)) else l.(messages := l.messages + [m])
    case ToolStart(id) => l.(pendingCalls := Track(l.pendingCalls, id))
    case ToolEnd(id) => l.(pendingCalls := Dropped(l.pendingCalls, id))
    case TurnEnd(_, _) => l.(pendingCalls := [])
    case AgentEnd(_) => l.(streaming := None)
    case _ => l
  }

  predicate Distinct(ids: seq<string>) {
    forall i, j :: 0 <= i < j < |ids| ==> ids[i] != ids[j]
  }

  lemma {:induction false} TrackAllDistinct(ids: seq<string>, calls: seq<string>)
    requires Distinct(ids)
    ensures Distinct(TrackAll(ids, calls))
    ensures forall id :: id in TrackAll(ids, calls) <==> id in ids || (id in calls && id != "")
    decreases |calls|
  {
    if calls != [] {
      TrackAllDistinct(if calls[0] == "" then ids else Track(ids, calls[0]), calls[1..]);
      assert calls == [calls[0]] + calls[1..];
    }
  }

  lemma {:induction false} DroppedDistinct(ids: seq<string>, id: string)
    requires Distinct(ids)
    ensures Distinct(Dropped(ids, id))
    ensures forall x :: x in Dropped(ids, id) <==> x in ids && x != id
  {
    if ids != [] {
      DroppedDistinct(ids[1..], id);
      assert ids == [ids[0]] + ids[1..];
      var rest := Dropped(ids[1..], id);
      forall j | 0 <= j < |rest| ensures rest[j] != ids[0] {
        assert rest[j] in rest;
        var k :| 0 <= k < |ids[1..]| && ids[1..][k] == rest[j];
        assert ids[k + 1] == rest[j];
      }
    }
  }

  /** No call is pending twice, whatever events come. */
  lemma {:induction false} ReducedDistinct(l: Live, e: Event)
    requires Distinct(l.pendingCalls)
    ensures Distinct(Reduced(l, e).pendingCalls)
  {
    if e.MessageEnd? && e.message.Assistant? {
      TrackAllDistinct([], e.message.calls);
    } else if e.ToolEnd? {
      DroppedDistinct(l.pendingCalls, e.id);
    }
  }

  // ---------------------------------------------------------------- after all events

  /** The state after a run began with `base` and these events came. */
  function LiveAfter(base: seq<Message>, trace: seq<Event>): Live {
    if trace == [] then Live(base, None, [])
    else Reduced(LiveAfter(base, trace[..|trace| - 1]), trace[|trace| - 1])
  }

  lemma {:induction false} LiveSnoc(base: seq<Message>, trace: seq<Event>, e: Event)
    ensures LiveAfter(base, trace + [e]) == Reduced(LiveAfter(base, trace), e)
  {
    assert (trace + [e])[..|trace|] == trace;
  }

  /** The event announces or starts the call. */
  predicate Raises(e: Event, id: string) {
    match e
    case MessageUpdate(_, call) => call == Some(id) && id != ""
    case MessageEnd(m) => m.Assistant? && id in m.calls && id != ""
    case ToolStart(x) => x == id
    case _ => false
  }

  /** After the event the call is no longer awaited: it ended, the turn ended, or the finished answer
      does not list it. */
  predicate Settles(e: Event, id: string) {
    match e
    case ToolEnd(x) => x == id
    case TurnEnd(_, _) => true
    case MessageEnd(m) => m.Assistant? && (id !in m.calls || id == "")
    case _ => false
  }

  /** Some event raised the call and none settled it since. */
  ghost predicate Awaited(trace: seq<Event>, id: string) {
    exists i :: 0 <= i < |trace| && Raises(trace[i], id) && forall j :: i < j < |trace| ==> !Settles(trace[j], id)
  }

  lemma {:induction false} AwaitedSnoc(trace: seq<Event>, e: Event, id: string)
    ensures Awaited(trace + [e], id) <==> Raises(e, id) || (Awaited(trace, id) && !Settles(e, id))
  {
    var longer := trace + [e];
    if Raises(e, id) {
      assert Raises(longer[|trace|], id);
    } else if Awaited(trace, id) && !Settles(e, id) {
      var i :| 0 <= i < |trace| && Raises(trace[i], id) && forall j :: i < j < |trace| ==> !Settles(trace[j], id);
      assert Raises(longer[i], id);
      assert forall j :: i < j < |longer| ==> !Settles(longer[j], id);
    }
    if i :| 0 <= i < |longer| && Raises(longer[i], id) && forall j :: i < j < |longer| ==> !Settles(longer[j], id) {
      if i < |trace| {
        assert !Settles(longer[|trace|], id) && Raises(trace[i], id);
        assert forall j :: i < j < |trace| ==> longer[j] == trace[j];
        assert forall j :: i < j < |trace| ==> !Settles(trace[j], id);
      }
    }
  }

  lemma {:induction false} ReducedPending(l: Live, e: Event, id: string)
    requires Distinct(l.pendingCalls)
    ensures id in Reduced(l, e).pendingCalls <==> Raises(e, id) || (id in l.pendingCalls && !Settles(e, id))
  {
    if e.MessageEnd? && e.message.Assistant? {
      TrackAllDistinct([], e.message.calls);
    } else if e.ToolEnd? {
      DroppedDistinct(l.pendingCalls, e.id);
    }
  }

  /** A call is pending exactly if it was announced or started and neither it nor its turn ended since, and
      it is pending once. */
  lemma {:induction false} PendingIff(base: seq<Message>, trace: seq<Event>, id: string)
    ensures Distinct(LiveAfter(base, trace).pendingCalls)
    ensures id in LiveAfter(base, trace).pendingCalls <==> Awaited(trace, id)
    decreases |trace|
  {
    if trace != [] {
      var front, e := trace[..|trace| - 1], trace[|trace| - 1];
      PendingIff(base, front, id);
      assert trace == front + [e];
      AwaitedSnoc(front, e, id);
      ReducedPending(LiveAfter(base, front), e, id);
      ReducedDistinct(LiveAfter(base, front), e);
    }
  }

  // ---------------------------------------------------------------- the order of pending calls

  predicate Before(ids: seq<string>, x: string, y: string) {
    exists i, j :: 0 <= i < j < |ids| && ids[i] == x && ids[j] == y
  }

  /** A new call comes last. */
  lemma {:induction false} TrackOrder(ids: seq<string>, id: string, x: string, y: string)
    ensures Before(Track(ids, id), x, y) <==> Before(ids, x, y) || (x in ids && y == id && id !in ids)
  {
    var longer := Track(ids, id);
    if i, j :| 0 <= i < j < |ids| && ids[i] == x && ids[j] == y {
      assert longer[i] == x && longer[j] == y;
    }
    if x in ids && y == id && id !in ids {
      var i :| 0 <= i < |ids| && ids[i] == x;
      assert longer[i] == x && longer[|ids|] == y;
    }
    if i, j :| 0 <= i < j < |longer| && longer[i] == x && longer[j] == y {
      if j < |ids| {
        assert ids[i] == x && ids[j] == y;
      }
    }
  }

  lemma {:induction false} ConsOrder(id: string, rest: seq<string>, x: string, y: string)
    ensures Before([id] + rest, x, y) <==> Before(rest, x, y) || (x == id && y in rest)
  {
    var ids := [id] + rest;
    if i, j :| 0 <= i < j < |rest| && rest[i] == x && rest[j] == y {
      assert ids[i + 1] == x && ids[j + 1] == y;
    }
    if x == id && y in rest {
      var j :| 0 <= j < |rest| && rest[j] == y;
      assert ids[0] == x && ids[j + 1] == y;
    }
    if i, j :| 0 <= i < j < |ids| && ids[i] == x && ids[j] == y {
      assert rest[j - 1] == y;
      if i > 0 {
        assert rest[i - 1] == x;
      }
    }
  }

  /** Dropping a call keeps the others in order. */
  lemma {:induction false} DroppedOrder(ids: seq<string>, id: string, x: string, y: string)
    requires Distinct(ids)
    ensures Before(Dropped(ids, id), x, y) <==> Before(ids, x, y) && x != id && y != id
  {
    if ids != [] {
      DroppedOrder(ids[1..], id, x, y);
      DroppedDistinct(ids[1..], id);
      assert ids == [ids[0]] + ids[1..];
      ConsOrder(ids[0], ids[1..], x, y);
      ConsOrder(ids[0], Dropped(ids[1..], id), x, y);
      assert [] + Dropped(ids[1..], id) == Dropped(ids[1..], id);
    }
  }

  /** Where a call is first listed; the number of calls if it is not. */
  function FirstAt(calls: seq<string>, id: string): (i: nat)
    ensures i <= |calls| && (i < |calls| <==> id in calls)
  {
    if calls == [] || calls[0] == id then 0 else 1 + FirstAt(calls[1..], id)
  }

  /** Calls of an answer are pending in the order in which they are first listed. */
  lemma {:induction false} TrackAllOrder(ids: seq<string>, calls: seq<string>, x: string, y: string)
    ensures Before(TrackAll(ids, calls), x, y) <==>
            Before(ids, x, y) || (y !in ids && y in calls && y != "" &&
              (x in ids || (x != "" && FirstAt(calls, x) < FirstAt(calls, y))))
    decreases |calls|
  {
    if calls != [] {
      assert calls == [calls[0]] + calls[1..];
      if calls[0] == "" {
        TrackAllOrder(ids, calls[1..], x, y);
      } else {
        TrackOrder(ids, calls[0], x, y);
        TrackAllOrder(Track(ids, calls[0]), calls[1..], x, y);
      }
    }
  }

  /** An answer that ends lists the pending calls anew; every other event keeps the order of those that stay
      pending and puts a new one last. */
  lemma {:induction false} ReducedOrder(l: Live, e: Event, x: string, y: string)
    requires Distinct(l.pendingCalls)
    ensures Before(Reduced(l, e).pendingCalls, x, y) <==>
            if e.MessageEnd? && e.message.Assistant? then Raises(e, x) && Raises(e, y) && FirstAt(e.message.calls, x) < FirstAt(e.message.calls, y)
            else
              || (Before(l.pendingCalls, x, y) && !Settles(e, x) && !Settles(e, y))
              || (x in l.pendingCalls && y !in l.pendingCalls && Raises(e, y))
  {
    match e
    case MessageUpdate(m, call) => if call.Some? { TrackOrder(l.pendingCalls, call.value, x, y); }
    case MessageEnd(m) => if m.Assistant? { TrackAllOrder([], m.calls, x, y); }
    case ToolStart(id) => TrackOrder(l.pendingCalls, id, x, y);
    case ToolEnd(id) => DroppedOrder(l.pendingCalls, id, x, y);
    case _ =>
  }

  // ---------------------------------------------------------------- what streams

  /** The event shows the assistant message that is being generated. */
  predicate Shows(e: Event, m: Message) {
    m.Assistant? && ((e.MessageStart? && e.message == m) || (e.MessageUpdate? && e.message == m))
  }

  /** The event shows another message, or ends what streams. */
  predicate Supersedes(e: Event) {
    || ((e.MessageStart? || e.MessageUpdate? || e.MessageEnd?) && e.message.Assistant?)
    || e.AgentEnd?
  }

  /** The message was shown and nothing replaced it since. */
  ghost predicate LastShown(trace: seq<Event>, m: Message) {
    exists i :: 0 <= i < |trace| && Shows(trace[i], m) && forall j :: i < j < |trace| ==> !Supersedes(trace[j])
  }

  lemma {:induction false} ShownSnoc(trace: seq<Event>, e: Event, m: Message)
    ensures LastShown(trace + [e], m) <==> Shows(e, m) || (LastShown(trace, m) && !Supersedes(e))
  {
    var longer := trace + [e];
    if Shows(e, m) {
      assert Shows(longer[|trace|], m);
    } else if LastShown(trace, m) && !Supersedes(e) {
      var i :| 0 <= i < |trace| && Shows(trace[i], m) && forall j :: i < j < |trace| ==> !Supersedes(trace[j]);
      assert Shows(longer[i], m);
      assert forall j :: i < j < |longer| ==> !Supersedes(longer[j]);
    }
    if i :| 0 <= i < |longer| && Shows(longer[i], m) && forall j :: i < j < |longer| ==> !Supersedes(longer[j]) {
      if i < |trace| {
        assert !Supersedes(longer[|trace|]) && Shows(trace[i], m);
        assert forall j :: i < j < |trace| ==> longer[j] == trace[j];
        assert forall j :: i < j < |trace| ==> !Supersedes(trace[j]);
      }
    }
  }

  /** A message streams exactly if it was the last one shown and neither it nor the run ended since. */
  lemma {:induction false} StreamingIff(base: seq<Message>, trace: seq<Event>, m: Message)
    ensures LiveAfter(base, trace).streaming == Some(m) <==> LastShown(trace, m)
    decreases |trace|
  {
    if trace != [] {
      var front, e := trace[..|trace| - 1], trace[|trace| - 1];
      StreamingIff(base, front, m);
      assert trace == front + [e];
      ShownSnoc(front, e, m);
      ReducedStreaming(LiveAfter(base, front), e, m);
    }
  }

  lemma {:induction false} ReducedStreaming(l: Live, e: Event, m: Message)
    ensures Reduced(l, e).streaming == Some(m) <==> Shows(e, m) || (l.streaming == Some(m) && !Supersedes(e))
  {
  }

  /** The messages of the state are those it began with and those that ended. */
  lemma {:induction false} MessagesAre(base: seq<Message>, trace: seq<Event>)
    ensures LiveAfter(base, trace).messages == base + EndedIn(trace)
    decreases |trace|
  {
    if trace != [] {
      MessagesAre(base, trace[..|trace| - 1]);
    }
  }

  /** Between turns nothing is pending, and once the run is over nothing streams. */
  lemma {:induction false} QuietBetween(base: seq<Message>, trace: seq<Event>)
    requires Parse(trace).Status?
    ensures Parse(trace).stage.Between? || Parse(trace).stage.Unstarted? ==> LiveAfter(base, trace).pendingCalls == []
    ensures Parse(trace).stage.Over? ==> LiveAfter(base, trace).streaming == None
    decreases |trace|
  {
    if trace != [] {
      ParsePrefix(trace, |trace| - 1);
      QuietBetween(base, trace[..|trace| - 1]);
    }
  }
}
