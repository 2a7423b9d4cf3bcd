/** A replicated state: the source attachment, the publisher and its subscribers, as a
    transition system.

    A listener may call back into the state, so the calls in progress form a stack in the
    program. Here every call in progress may take its next step at any time, which includes
    every order the stack allows: what holds in all these runs holds in the program's. */
module Replicated {
  import opened Values

  /** At most this many deliveries wait behind a running listener. */
  const PENDING_LIMIT: nat := 100

  const MAX_SAFE_CURSOR: int := 9007199254740991

  predicate IsSafeCursor(c: int) {
    -MAX_SAFE_CURSOR <= c <= MAX_SAFE_CURSOR
  }

  datatype Frame = Frame(hydrate: bool, sequence: nat, value: Json)

  // ---------------------------------------------------------------- one subscriber

  /** `delivered` are the listener calls made so far. `looping`, `inListener` and `deferred`
      count the drain loops at their head, the listeners running inside one, and the listeners
      whose completion will resume one. */
  datatype Subscriber = Subscriber(
    pending: seq<Frame>,
    running: bool,
    started: bool,
    closed: bool,
    looping: nat,
    inListener: nat,
    deferred: nat,
    delivered: seq<Frame>)

  const NewSubscriber := Subscriber([], false, false, false, 0, 0, 0, [])

  /** `push`: on overflow only the newest frame stays, and the hydration while nothing started. */
  function Push(s: Subscriber, f: Frame): Subscriber {
    if s.closed then s
    else if |s.pending| == PENDING_LIMIT then s.(pending := (if s.started then [] else [s.pending[0]]) + [f])
    else s.(pending := s.pending + [f])
  }

  /** Entering `drain`. */
  function Drain(s: Subscriber): Subscriber {
    if s.running || s.closed then s else s.(running := true, looping := s.looping + 1)
  }

  /** One turn of the drain loop up to the listener call. */
  function Turn(s: Subscriber): Subscriber
    requires s.looping > 0
  {
    if s.pending == [] then s.(running := false, looping := s.looping - 1)
    else
      s.(pending := s.pending[1..], started := true, delivered := s.delivered + [s.pending[0]],
         looping := s.looping - 1, inListener := s.inListener + 1)
  }

  /** The listener settled before the call returned: the loop goes on. */
  function SettleInline(s: Subscriber): Subscriber
    requires s.inListener > 0
  {
    s.(inListener := s.inListener - 1, looping := s.looping + 1)
  }

  /** It did not: the loop returns and the completion owns the next drain. */
  function Defer(s: Subscriber): Subscriber
    requires s.inListener > 0
  {
    s.(inListener := s.inListener - 1, deferred := s.deferred + 1)
  }

  function Resume(s: Subscriber): Subscriber
    requires s.deferred > 0
  {
    Drain(s.(deferred := s.deferred - 1, running := false))
  }

  function Close(s: Subscriber): Subscriber {
    s.(closed := true, pending := [])
  }

  /** Everything a subscriber has been given and not dropped, in order. */
  function Seen(s: Subscriber): seq<Frame> {
    s.delivered + s.pending
  }

  /** One hydration, then updates, with increasing sequences. */
  predicate Ordered(frames: seq<Frame>) {
    && (forall i, j :: 0 <= i < j < |frames| ==> frames[i].sequence < frames[j].sequence)
    && (forall i :: 0 <= i < |frames| ==> (frames[i].hydrate <==> i == 0))
  }

  lemma {:induction false} OrderedAppend(frames: seq<Frame>, n: nat, f: Frame)
    requires Ordered(frames) && 0 < n <= |frames| && !f.hydrate && frames[|frames| - 1].sequence < f.sequence
    ensures Ordered(frames[..n] + [f])
  {
  }

  /** The frame before the one at `i` is the revision before it, or so many were skipped that a full
      queue must have been dropped. */
  predicate SpacedAt(frames: seq<Frame>, i: nat)
    requires 0 < i < |frames|
  {
    var gap := frames[i].sequence - frames[i - 1].sequence;
    gap == 1 || gap >= PENDING_LIMIT
  }

  predicate Spaced(frames: seq<Frame>) {
    forall i: nat :: 0 < i < |frames| ==> SpacedAt(frames, i)
  }

  /** Sequences grow by at least one per frame. */
  lemma {:induction false} GrowsByFrame(frames: seq<Frame>, i: nat, j: nat)
    requires Ordered(frames) && i <= j < |frames|
    ensures frames[j].sequence - frames[i].sequence >= j - i
    decreases j - i
  {
    if i < j {
      GrowsByFrame(frames, i, j - 1);
    }
  }

  /** Keeping `n` frames and adding one stays spaced if nothing or a full queue was dropped. */
  lemma {:induction false} SpacedAppend(frames: seq<Frame>, n: nat, f: Frame)
    requires Ordered(frames) && Spaced(frames) && 0 < n <= |frames| && frames[|frames| - 1].sequence + 1 == f.sequence
    requires n == |frames| || |frames| - n >= PENDING_LIMIT - 1
    ensures Spaced(frames[..n] + [f])
  {
    var t := frames[..n] + [f];
    GrowsByFrame(frames, n - 1, |frames| - 1);
    forall i: nat | 0 < i < |t|
      ensures SpacedAt(t, i)
    {
      if i < n {
        assert SpacedAt(frames, i);
      }
    }
  }

  lemma {:induction false} SpacedPrefix(frames: seq<Frame>, n: nat)
    requires Spaced(frames) && n <= |frames|
    ensures Spaced(frames[..n])
  {
    forall i: nat | 0 < i < n
      ensures SpacedAt(frames[..n], i)
    {
      assert SpacedAt(frames, i);
    }
  }

  /** One hydration first, then updates with increasing sequences; at most one listener call at
      a time; a bounded queue; nothing queued once closed. */
  predicate SubscriberOk(s: Subscriber) {
    && s.looping + s.inListener + s.deferred == (if s.running then 1 else 0)
    && s.started == (s.delivered != [])
    && |s.pending| <= PENDING_LIMIT
    && (s.closed ==> s.pending == [])
    && (!s.closed ==> Seen(s) != [])
    && Ordered(Seen(s)) && Spaced(Seen(s))
  }

  /** A frame that waits has a loop, a listener call or a deferred completion that will take it. */
  predicate Served(s: Subscriber) {
    s.pending != [] ==> s.looping + s.inListener + s.deferred == 1
  }

  /** The newest frame: the last one pending, or else the last one delivered. */
  function Newest(s: Subscriber): Frame
    requires Seen(s) != []
  {
    Seen(s)[|Seen(s)| - 1]
  }

  /** The next revision is queued behind what is there; only a full queue is dropped for it. */
  lemma {:induction false} PushOk(s: Subscriber, f: Frame)
    requires SubscriberOk(s) && !f.hydrate && (!s.closed ==> Newest(s).sequence + 1 == f.sequence)
    ensures SubscriberOk(Push(s, f)) && (!s.closed ==> Newest(Push(s, f)) == f)
    ensures Push(s, f).closed == s.closed && Push(s, f).delivered == s.delivered
    ensures !s.closed && |s.pending| < PENDING_LIMIT ==> Seen(Push(s, f)) == Seen(s) + [f]
  {
    if !s.closed {
      var n := if |s.pending| < PENDING_LIMIT then |Seen(s)| else if s.started then |s.delivered| else 1;
      assert Seen(Push(s, f)) == Seen(s)[..n] + [f];
      OrderedAppend(Seen(s), n, f);
      SpacedAppend(Seen(s), n, f);
    }
  }

  lemma {:induction false} TurnOk(s: Subscriber)
    requires SubscriberOk(s) && s.looping > 0
    ensures SubscriberOk(Turn(s)) && Seen(Turn(s)) == Seen(s)
  {
    assert Seen(Turn(s)) == Seen(s);
  }

  lemma {:induction false} CloseOk(s: Subscriber)
    requires SubscriberOk(s)
    ensures SubscriberOk(Close(s)) && Close(s).delivered == s.delivered
  {
    var t := Close(s);
    assert Seen(t) == s.delivered == Seen(s)[..|s.delivered|];
    assert forall i :: 0 <= i < |s.delivered| ==> s.delivered[i] == Seen(s)[i];
    SpacedPrefix(Seen(s), |s.delivered|);
  }

  /** The steps of a subscriber on its own. */
  datatype Own = TurnStep | SettleStep | DeferStep | ResumeStep

  predicate CanStep(s: Subscriber, o: Own) {
    match o
    case TurnStep => s.looping > 0
    case SettleStep => s.inListener > 0
    case DeferStep => s.inListener > 0
    case ResumeStep => s.deferred > 0
  }

  function OwnStep(s: Subscriber, o: Own): Subscriber
    requires CanStep(s, o)
  {
    match o
    case TurnStep => Turn(s)
    case SettleStep => SettleInline(s)
    case DeferStep => Defer(s)
    case ResumeStep => Resume(s)
  }

  /** A subscriber's own steps keep the order, change nothing it was given, and deliver the
      frames one after the other; a closed one delivers nothing more. */
  lemma {:induction false} OwnStepOk(s: Subscriber, o: Own)
    requires SubscriberOk(s) && Served(s) && CanStep(s, o)
    ensures SubscriberOk(OwnStep(s, o)) && Served(OwnStep(s, o)) && Seen(OwnStep(s, o)) == Seen(s)
    ensures OwnStep(s, o).closed == s.closed && s.delivered <= OwnStep(s, o).delivered
    ensures s.closed ==> OwnStep(s, o).delivered == s.delivered
  {
    if o == TurnStep {
      TurnOk(s);
    }
  }

  // ---------------------------------------------------------------- the whole state

  datatype Listener = Listener(subscriber: nat, hydrated: nat)

  datatype Publication = Publication(sequence: nat, value: Json)

  /** The publication being delivered and the listeners it has not reached yet. */
  datatype Delivery = Delivery(publication: Publication, remaining: seq<Listener>)

  /** `history[n]` is the value of sequence `n`; `errors` counts the reports of a broken source. */
  datatype State = State(
    subscribers: seq<Subscriber>,
    listeners: seq<Listener>,
    publications: seq<Publication>,
    delivering: Option<Delivery>,
    sequence: nat,
    value: Json,
    history: seq<Json>,
    snapshotCursor: int,
    cursor: int,
    disposed: bool,
    errors: nat)

  datatype Action =
    | Receive(cursor: int, value: Json)
    | Dispose
    | Subscribe
    | Unsubscribe(subscriber: nat)
    | TakePublication
    | Deliver
    | EndDelivery
    | Step(subscriber: nat, own: Own)

  function Initial(value: Json, cursor: int): State {
    State([], [], [], None, 0, value, [value], cursor, cursor, false, 0)
  }

  predicate Enabled(s: State, a: Action) {
    match a
    case Unsubscribe(i) => i < |s.subscribers|
    case TakePublication => s.delivering.Some? && s.delivering.value.remaining == [] && s.publications != []
    case Deliver => s.delivering.Some? && s.delivering.value.remaining != []
    case EndDelivery => s.delivering.Some? && s.delivering.value.remaining == [] && s.publications == []
    case Step(i, o) => i < |s.subscribers| && CanStep(s.subscribers[i], o)
    case _ => true
  }

  /** `publish`: queue the revision; start delivering unless a delivery is already going on. */
  function Publish(s: State, v: Json): State {
    var n := s.sequence + 1;
    s.(value := v, sequence := n, history := s.history + [v], publications := s.publications + [Publication(n, v)],
       delivering := if s.delivering.Some? then s.delivering else Some(Delivery(Publication(s.sequence, s.value), [])))
  }

  /** `receive`: the next cursor is published; any other is reported once and disposes the source. */
  function ReceiveFrame(s: State, cursor: int, v: Json): State {
    if s.disposed then s
    else if !IsSafeCursor(cursor) || cursor != s.cursor + 1 then s.(disposed := true, errors := s.errors + 1)
    else Publish(s.(cursor := cursor), v)
  }

  function SubscribeOne(s: State): State {
    var i := |s.subscribers|;
    var hydrated := Drain(Push(NewSubscriber, Frame(true, s.sequence, s.value)));
    s.(subscribers := s.subscribers + [hydrated], listeners := s.listeners + [Listener(i, s.sequence)])
  }

  function Without(listeners: seq<Listener>, i: nat): seq<Listener> {
    if listeners == [] then []
    else (if listeners[0].subscriber == i then [] else [listeners[0]]) + Without(listeners[1..], i)
  }

  function DeliverOne(s: State): State
    requires Enabled(s, Deliver)
  {
    var d := s.delivering.value;
    var l := d.remaining[0];
    var rest := s.(delivering := Some(d.(remaining := d.remaining[1..])));
    if d.publication.sequence <= l.hydrated || l.subscriber >= |s.subscribers| then rest
    else
      var f := Frame(false, d.publication.sequence, d.publication.value);
      rest.(subscribers := s.subscribers[l.subscriber := Drain(Push(s.subscribers[l.subscriber], f))])
  }

  function Next(s: State, a: Action): State
    requires Enabled(s, a)
  {
    match a
    case Receive(c, v) => ReceiveFrame(s, c, v)
    case Dispose => s.(disposed := true)
    case Subscribe => SubscribeOne(s)
    case Unsubscribe(i) =>
      s.(subscribers := s.subscribers[i := Close(s.subscribers[i])], listeners := Without(s.listeners, i))
    case TakePublication =>
      s.(publications := s.publications[1..], delivering := Some(Delivery(s.publications[0], s.listeners)))
    case Deliver => DeliverOne(s)
    case EndDelivery => s.(delivering := None)
    case Step(i, o) => s.(subscribers := s.subscribers[i := OwnStep(s.subscribers[i], o)])
  }

  ghost predicate IsRun(s: State, run: seq<Action>, t: State)
    decreases |run|
  {
    if run == [] then s == t else Enabled(s, run[0]) && IsRun(Next(s, run[0]), run[1..], t)
  }

  // ---------------------------------------------------------------- the invariant

  /** The sequence of the last publication taken from the queue. */
  function Current(s: State): int {
    s.sequence - |s.publications|
  }

  function Max(a: int, b: int): int { if a >= b then a else b }

  function Remaining(s: State): seq<Listener> {
    if s.delivering.Some? then s.delivering.value.remaining else []
  }

  predicate Distinct(ls: seq<Listener>) {
    forall i, j :: 0 <= i < j < |ls| ==> ls[i].subscriber != ls[j].subscriber
  }

  /** Queued publications are the sequences after the current one, with their values. */
  predicate QueueOk(s: State) {
    && |s.history| == s.sequence + 1 && s.value == s.history[s.sequence] && 0 <= Current(s)
    && (forall k :: 0 <= k < |s.publications| ==>
          s.publications[k] == Publication(Current(s) + 1 + k, s.history[Current(s) + 1 + k]))
    && (s.delivering.None? ==> s.publications == [])
    && (s.delivering.Some? ==> s.delivering.value.publication == Publication(Current(s), s.history[Current(s)]))
  }

  /** A subscriber is in order and every frame it saw carries the value of its sequence. */
  predicate TrueTo(history: seq<Json>, x: Subscriber) {
    SubscriberOk(x) && Served(x) &&
    forall i :: 0 <= i < |Seen(x)| ==> Seen(x)[i].sequence < |history| && Seen(x)[i].value == history[Seen(x)[i].sequence]
  }

  predicate SubscribersOk(s: State) {
    forall i :: 0 <= i < |s.subscribers| ==> TrueTo(s.history, s.subscribers[i])
  }

  /** A registered subscriber is open and has been given the current publication, or its
      predecessor if the delivery has yet to reach it; its hydration may be ahead of both. */
  predicate ListenerOk(s: State, l: Listener) {
    && l.subscriber < |s.subscribers| && l.hydrated <= s.sequence
    && var x := s.subscribers[l.subscriber];
       !x.closed && Seen(x) != [] &&
       Newest(x).sequence == Max(l.hydrated, if l in Remaining(s) then Current(s) - 1 else Current(s))
  }

  predicate Registered(ls: seq<Listener>, i: nat) {
    exists l :: l in ls && l.subscriber == i
  }

  predicate OpenRegistered(s: State) {
    forall i: nat :: i < |s.subscribers| && !s.subscribers[i].closed ==> Registered(s.listeners, i)
  }

  /** The listeners still to be reached are registered, or were closed meanwhile. */
  predicate RemainingOk(s: State) {
    && Distinct(s.listeners) && Distinct(Remaining(s))
    && forall l :: l in Remaining(s) ==>
         l.subscriber < |s.subscribers| && (s.subscribers[l.subscriber].closed || l in s.listeners)
  }

  predicate ListenersOk(s: State) {
    forall l :: l in s.listeners ==> ListenerOk(s, l)
  }

  /** The cursor counts the publications; a broken source is reported at most once. */
  predicate SourceOk(s: State) {
    && s.cursor - s.snapshotCursor == s.sequence && IsSafeCursor(s.cursor)
    && s.errors <= 1 && (s.errors == 1 ==> s.disposed)
  }

  predicate Inv(s: State) {
    QueueOk(s) && SubscribersOk(s) && ListenersOk(s) && RemainingOk(s) && OpenRegistered(s) && SourceOk(s)
  }

  // ---------------------------------------------------------------- each action keeps it

  lemma {:induction false} WithoutMembers(ls: seq<Listener>, i: nat)
    requires Distinct(ls)
    ensures forall l :: l in Without(ls, i) <==> l in ls && l.subscriber != i
    ensures Distinct(Without(ls, i))
  {
    if ls != [] {
      assert Distinct(ls[1..]);
      WithoutMembers(ls[1..], i);
      assert ls == [ls[0]] + ls[1..];
      forall l | l in Without(ls[1..], i)
        ensures l.subscriber != ls[0].subscriber
      {
        assert l in ls[1..];
      }
    }
  }

  lemma {:induction false} UpdatedSubscribers(s: State, i: nat, y: Subscriber)
    requires SubscribersOk(s) && i < |s.subscribers| && TrueTo(s.history, y)
    ensures SubscribersOk(s.(subscribers := s.subscribers[i := y]))
  {
    var t := s.(subscribers := s.subscribers[i := y]);
    forall k | 0 <= k < |t.subscribers|
      ensures TrueTo(t.history, t.subscribers[k])
    {
      assert TrueTo(s.history, s.subscribers[k]);
    }
  }

  lemma {:induction false} UpdatedRegistry(s: State, i: nat, y: Subscriber)
    requires RemainingOk(s) && OpenRegistered(s) && i < |s.subscribers| && y.closed == s.subscribers[i].closed
    ensures var t := s.(subscribers := s.subscribers[i := y]); RemainingOk(t) && OpenRegistered(t)
  {
    var t := s.(subscribers := s.subscribers[i := y]);
    assert Remaining(t) == Remaining(s);
    assert forall k :: 0 <= k < |t.subscribers| ==> t.subscribers[k].closed == s.subscribers[k].closed;
  }

  lemma {:induction false} UpdatedListeners(s: State, i: nat, y: Subscriber)
    requires ListenersOk(s) && i < |s.subscribers|
    requires Seen(y) == Seen(s.subscribers[i]) && y.closed == s.subscribers[i].closed
    ensures ListenersOk(s.(subscribers := s.subscribers[i := y]))
  {
    var t := s.(subscribers := s.subscribers[i := y]);
    forall l | l in t.listeners
      ensures ListenerOk(t, l)
    {
      assert ListenerOk(s, l);
    }
  }

  lemma {:induction false} SameTrue(history: seq<Json>, x: Subscriber, y: Subscriber)
    requires TrueTo(history, x) && SubscriberOk(y) && Served(y) && Seen(y) == Seen(x)
    ensures TrueTo(history, y)
  {
  }

  /** A subscriber may be replaced by one that has seen the same frames. */
  lemma {:induction false} Replaced(s: State, i: nat, y: Subscriber)
    requires Inv(s) && i < |s.subscribers| && SubscriberOk(y) && Served(y)
    requires Seen(y) == Seen(s.subscribers[i]) && y.closed == s.subscribers[i].closed
    ensures Inv(s.(subscribers := s.subscribers[i := y]))
  {
    SameTrue(s.history, s.subscribers[i], y);
    UpdatedInv(s, i, y);
  }

  lemma {:induction false} UpdatedInv(s: State, i: nat, y: Subscriber)
    requires Inv(s) && i < |s.subscribers| && TrueTo(s.history, y)
    requires Seen(y) == Seen(s.subscribers[i]) && y.closed == s.subscribers[i].closed
    ensures Inv(s.(subscribers := s.subscribers[i := y]))
  {
    var t := s.(subscribers := s.subscribers[i := y]);
    assert SubscribersOk(t) by { UpdatedSubscribers(s, i, y); }
    assert RemainingOk(t) && OpenRegistered(t) by { UpdatedRegistry(s, i, y); }
    assert ListenersOk(t) by { UpdatedListeners(s, i, y); }
    assert QueueOk(t) && SourceOk(t);
  }

  lemma {:induction false} ReceiveInv(s: State, c: int, v: Json)
    requires Inv(s)
    ensures Inv(ReceiveFrame(s, c, v))
  {
    var t := ReceiveFrame(s, c, v);
    if t.sequence != s.sequence {
      assert Remaining(t) == Remaining(s);
      forall l | l in t.listeners
        ensures ListenerOk(t, l)
      {
        assert ListenerOk(s, l);
      }
      forall i | 0 <= i < |t.subscribers|
        ensures TrueTo(t.history, t.subscribers[i])
      {
        assert TrueTo(s.history, s.subscribers[i]);
      }
    }
  }

  lemma {:induction false} SubscribeInv(s: State)
    requires Inv(s)
    ensures Inv(SubscribeOne(s))
  {
    var t := SubscribeOne(s);
    var n := |s.subscribers|;
    var added := Listener(n, s.sequence);
    assert Remaining(t) == Remaining(s);
    assert forall l :: l in t.listeners <==> l in s.listeners || l == added;
    assert Seen(t.subscribers[n]) == [Frame(true, s.sequence, s.value)];
    forall l | l in t.listeners
      ensures ListenerOk(t, l)
    {
      if l in s.listeners {
        assert ListenerOk(s, l);
      }
    }
    SubscribeRegistry(s);
  }

  lemma {:induction false} SubscribeRegistry(s: State)
    requires ListenersOk(s) && RemainingOk(s) && OpenRegistered(s)
    ensures RemainingOk(SubscribeOne(s)) && OpenRegistered(SubscribeOne(s))
  {
    var t := SubscribeOne(s);
    var n := |s.subscribers|;
    var added := Listener(n, s.sequence);
    assert Remaining(t) == Remaining(s);
    assert forall i :: 0 <= i < |s.listeners| ==> ListenerOk(s, s.listeners[i]);
    forall i: nat | i < |t.subscribers| && !t.subscribers[i].closed
      ensures Registered(t.listeners, i)
    {
      if i < n {
        assert Registered(s.listeners, i);
        var l :| l in s.listeners && l.subscriber == i;
        assert l in t.listeners;
      } else {
        assert added in t.listeners;
      }
    }
  }

  lemma {:induction false} UnsubscribeSubscribers(s: State, i: nat)
    requires SubscribersOk(s) && i < |s.subscribers|
    ensures SubscribersOk(Next(s, Unsubscribe(i)))
  {
    CloseTrue(s.history, s.subscribers[i]);
    UpdatedSubscribers(s, i, Close(s.subscribers[i]));
  }

  lemma {:induction false} UnsubscribeQueue(s: State, i: nat)
    requires QueueOk(s) && SourceOk(s) && i < |s.subscribers|
    ensures QueueOk(Next(s, Unsubscribe(i))) && SourceOk(Next(s, Unsubscribe(i)))
  {
  }

  lemma {:induction false} UnsubscribeListeners(s: State, i: nat)
    requires ListenersOk(s) && RemainingOk(s) && i < |s.subscribers|
    ensures ListenersOk(Next(s, Unsubscribe(i)))
  {
    var t := Next(s, Unsubscribe(i));
    WithoutMembers(s.listeners, i);
    assert Remaining(t) == Remaining(s) && Current(t) == Current(s);
    forall l | l in t.listeners
      ensures ListenerOk(t, l)
    {
      assert l in s.listeners && ListenerOk(s, l);
      assert t.subscribers[l.subscriber] == s.subscribers[l.subscriber];
    }
  }

  lemma {:induction false} UnsubscribeRegistry(s: State, i: nat)
    requires RemainingOk(s) && OpenRegistered(s) && i < |s.subscribers|
    ensures var t := Next(s, Unsubscribe(i)); RemainingOk(t) && OpenRegistered(t)
  {
    var t := Next(s, Unsubscribe(i));
    WithoutMembers(s.listeners, i);
    assert Remaining(t) == Remaining(s);
    forall k: nat | k < |t.subscribers| && !t.subscribers[k].closed
      ensures Registered(t.listeners, k)
    {
      assert Registered(s.listeners, k);
      var l :| l in s.listeners && l.subscriber == k;
      assert l in t.listeners;
    }
  }

  lemma {:induction false} CloseTrue(history: seq<Json>, x: Subscriber)
    requires TrueTo(history, x)
    ensures TrueTo(history, Close(x))
  {
    CloseOk(x);
    assert Seen(Close(x)) == x.delivered;
    assert forall k :: 0 <= k < |x.delivered| ==> x.delivered[k] == Seen(x)[k];
  }

  lemma {:induction false} TakePublicationInv(s: State)
    requires Inv(s) && Enabled(s, TakePublication)
    ensures Inv(Next(s, TakePublication))
  {
    var t := Next(s, TakePublication);
    assert Current(t) == Current(s) + 1;
    assert Remaining(s) == [] && Remaining(t) == t.listeners;
    forall l | l in t.listeners
      ensures ListenerOk(t, l)
    {
      assert ListenerOk(s, l);
    }
    forall k | 0 <= k < |t.publications|
      ensures t.publications[k] == Publication(Current(t) + 1 + k, t.history[Current(t) + 1 + k])
    {
      assert t.publications[k] == s.publications[k + 1];
    }
  }

  /** The listener reached by a delivery is given the publication, or has it already. */
  lemma {:induction false} DeliverInv(s: State)
    requires Inv(s) && Enabled(s, Deliver)
    ensures Inv(DeliverOne(s))
  {
    var t := DeliverOne(s);
    var d := s.delivering.value;
    DeliverSubscribers(s);
    forall m | m in t.listeners
      ensures ListenerOk(t, m)
    {
      DeliverListener(s, m);
    }
    DeliverRegistry(s);
    assert QueueOk(t);
  }

  lemma {:induction false} DeliverRegistry(s: State)
    requires Inv(s) && Enabled(s, Deliver)
    ensures RemainingOk(DeliverOne(s)) && OpenRegistered(DeliverOne(s))
  {
    var t := DeliverOne(s);
    var d := s.delivering.value;
    assert d.remaining[0] in Remaining(s);
    assert d.remaining == [d.remaining[0]] + Remaining(t);
    assert forall k :: 0 <= k < |Remaining(t)| ==> Remaining(t)[k] == d.remaining[k + 1];
    DeliverSubscribers(s);
    forall i: nat | i < |t.subscribers| && !t.subscribers[i].closed
      ensures Registered(t.listeners, i)
    {
      assert Registered(s.listeners, i);
    }
  }

  lemma {:induction false} DeliverSubscribers(s: State)
    requires Inv(s) && Enabled(s, Deliver)
    ensures SubscribersOk(DeliverOne(s))
    ensures |DeliverOne(s).subscribers| == |s.subscribers|
    ensures forall i :: 0 <= i < |s.subscribers| ==> DeliverOne(s).subscribers[i].closed == s.subscribers[i].closed
  {
    var l := s.delivering.value.remaining[0];
    if s.delivering.value.publication.sequence > l.hydrated {
      var y := DeliverPushed(s);
      UpdatedSubscribers(s, l.subscriber, y);
    } else {
      assert DeliverOne(s).subscribers == s.subscribers;
    }
  }

  /** What becomes of the subscriber that the publication is pushed to. */
  lemma {:induction false} DeliverPushed(s: State) returns (y: Subscriber)
    requires Inv(s) && Enabled(s, Deliver)
    requires s.delivering.value.publication.sequence > s.delivering.value.remaining[0].hydrated
    ensures var i := s.delivering.value.remaining[0].subscriber;
            && i < |s.subscribers| && TrueTo(s.history, y) && y.closed == s.subscribers[i].closed
            && DeliverOne(s).subscribers == s.subscribers[i := y] && DeliverOne(s).history == s.history
  {
    var d := s.delivering.value;
    var f := Frame(false, d.publication.sequence, d.publication.value);
    DeliverPush(s);
    var x := s.subscribers[d.remaining[0].subscriber];
    assert TrueTo(s.history, x);
    PushTrue(s.history, x, f);
    y := Drain(Push(x, f));
  }

  lemma {:induction false} DeliverPush(s: State)
    requires Inv(s) && Enabled(s, Deliver)
    requires s.delivering.value.publication.sequence > s.delivering.value.remaining[0].hydrated
    ensures var d := s.delivering.value;
            var f := Frame(false, d.publication.sequence, d.publication.value);
            var i := d.remaining[0].subscriber;
            && i < |s.subscribers| && SubscriberOk(Push(s.subscribers[i], f))
            && Push(s.subscribers[i], f).closed == s.subscribers[i].closed
            && (!s.subscribers[i].closed ==> Newest(Push(s.subscribers[i], f)) == f)
  {
    var d := s.delivering.value;
    var l := d.remaining[0];
    assert l in Remaining(s);
    assert TrueTo(s.history, s.subscribers[l.subscriber]);
    if !s.subscribers[l.subscriber].closed {
      assert ListenerOk(s, l);
    }
    PushOk(s.subscribers[l.subscriber], Frame(false, d.publication.sequence, d.publication.value));
  }

  lemma {:induction false} DeliverListener(s: State, m: Listener)
    requires Inv(s) && Enabled(s, Deliver) && m in s.listeners
    ensures ListenerOk(DeliverOne(s), m)
  {
    var t := DeliverOne(s);
    var d := s.delivering.value;
    var l := d.remaining[0];
    assert ListenerOk(s, m);
    assert l in Remaining(s) && d.remaining == [l] + Remaining(t);
    assert forall k :: 0 <= k < |Remaining(t)| ==> Remaining(t)[k] == d.remaining[k + 1];
    if m.subscriber == l.subscriber {
      SameListener(s, l, m);
      DeliverReached(s);
    } else {
      assert m in Remaining(t) <==> m in Remaining(s);
      assert t.subscribers[m.subscriber] == s.subscribers[m.subscriber];
    }
  }

  /** The listener that the delivery reaches now holds the publication. */
  lemma {:induction false} DeliverReached(s: State)
    requires Inv(s) && Enabled(s, Deliver) && s.delivering.value.remaining[0] in s.listeners
    ensures ListenerOk(DeliverOne(s), s.delivering.value.remaining[0])
  {
    var t := DeliverOne(s);
    var d := s.delivering.value;
    var l := d.remaining[0];
    assert ListenerOk(s, l) && l in Remaining(s);
    forall k | 0 <= k < |Remaining(t)|
      ensures Remaining(t)[k] != l
    {
      assert Remaining(t)[k] == d.remaining[k + 1];
    }
    if d.publication.sequence > l.hydrated {
      DeliverPush(s);
      var f := Frame(false, d.publication.sequence, d.publication.value);
      assert Seen(t.subscribers[l.subscriber]) == Seen(Push(s.subscribers[l.subscriber], f));
    }
  }

  lemma {:induction false} SameListener(s: State, l: Listener, m: Listener)
    requires ListenersOk(s) && RemainingOk(s) && l in Remaining(s) && m in s.listeners && l.subscriber == m.subscriber
    ensures l == m
  {
    assert ListenerOk(s, m);
    assert l in s.listeners;
  }

  lemma {:induction false} PushTrue(history: seq<Json>, x: Subscriber, f: Frame)
    requires TrueTo(history, x) && SubscriberOk(Push(x, f))
    requires f.sequence < |history| && f.value == history[f.sequence]
    ensures TrueTo(history, Drain(Push(x, f))) && Seen(Drain(Push(x, f))) == Seen(Push(x, f))
  {
    var y := Push(x, f);
    forall i | 0 <= i < |Seen(y)|
      ensures Seen(y)[i] == f || exists k :: 0 <= k < |Seen(x)| && Seen(y)[i] == Seen(x)[k]
    {
      if !x.closed && i < |Seen(y)| - 1 {
        assert Seen(y)[i] == Seen(x)[i];
      } else if x.closed {
        assert Seen(y)[i] == Seen(x)[i];
      }
    }
  }

  lemma {:induction false} DisposeInv(s: State)
    requires Inv(s)
    ensures Inv(s.(disposed := true))
  {
    forall l | l in s.listeners
      ensures ListenerOk(s.(disposed := true), l)
    {
      assert ListenerOk(s, l);
    }
  }

  lemma {:induction false} EndDeliveryInv(s: State)
    requires Inv(s) && Enabled(s, EndDelivery)
    ensures Inv(s.(delivering := None))
  {
    forall l | l in s.listeners
      ensures ListenerOk(s.(delivering := None), l)
    {
      assert ListenerOk(s, l);
    }
  }

  lemma {:induction false} UnsubscribeInv(s: State, i: nat)
    requires Inv(s) && i < |s.subscribers|
    ensures Inv(Next(s, Unsubscribe(i)))
  {
    UnsubscribeSubscribers(s, i);
    UnsubscribeListeners(s, i);
    UnsubscribeRegistry(s, i);
    UnsubscribeQueue(s, i);
  }

  lemma {:induction false} StepInv(s: State, i: nat, o: Own)
    requires Inv(s) && Enabled(s, Step(i, o))
    ensures Inv(Next(s, Step(i, o)))
  {
    assert TrueTo(s.history, s.subscribers[i]);
    OwnStepOk(s.subscribers[i], o);
    Replaced(s, i, OwnStep(s.subscribers[i], o));
  }

  lemma {:induction false} InvStep(s: State, a: Action)
    requires Inv(s) && Enabled(s, a)
    ensures Inv(Next(s, a))
  {
    match a {
      case Receive(c, v) => ReceiveInv(s, c, v);
      case Dispose => DisposeInv(s);
      case Subscribe => SubscribeInv(s);
      case Unsubscribe(i) =>
        UnsubscribeInv(s, i);
      case TakePublication => TakePublicationInv(s);
      case Deliver => DeliverInv(s);
      case EndDelivery => EndDeliveryInv(s);
      case Step(i, o) => StepInv(s, i, o);
    }
  }

  lemma {:induction false} InitialInv(value: Json, cursor: int)
    requires IsSafeCursor(cursor)
    ensures Inv(Initial(value, cursor))
  {
  }

  lemma {:induction false} InvRun(s: State, run: seq<Action>, t: State)
    requires Inv(s) && IsRun(s, run, t)
    ensures Inv(t)
    decreases |run|
  {
    if run != [] {
      InvStep(s, run[0]);
      InvRun(Next(s, run[0]), run[1..], t);
    }
  }

  // ---------------------------------------------------------------- what subscribers and sources get

  /** In every state any run reaches, every subscriber has had one hydration first and then
      updates with strictly increasing sequences, each carrying the value of its sequence and none
      skipped unless a full queue was dropped; never two listener calls at once or more pending
      frames than the limit, and no pending frame is stranded; and whenever no delivery is going on,
      the newest revision is the newest frame of every open subscriber. */
  lemma {:induction false} DeliveryContract(value: Json, cursor: int, run: seq<Action>, s: State)
    requires IsSafeCursor(cursor) && IsRun(Initial(value, cursor), run, s)
    ensures forall i :: 0 <= i < |s.subscribers| ==>
              var x := s.subscribers[i];
              && Ordered(x.delivered) && Spaced(Seen(x)) && x.inListener + x.deferred <= 1
              && |x.pending| <= PENDING_LIMIT && (x.closed ==> x.pending == []) && Served(x)
              && forall k :: 0 <= k < |x.delivered| ==>
                   x.delivered[k].sequence < |s.history| && x.delivered[k].value == s.history[x.delivered[k].sequence]
    ensures s.delivering.None? ==>
              forall i :: 0 <= i < |s.subscribers| && !s.subscribers[i].closed ==>
                var x := s.subscribers[i];
                Seen(x) != [] && Newest(x).sequence == s.sequence && Newest(x).value == s.value
  {
    InitialInv(value, cursor);
    InvRun(Initial(value, cursor), run, s);
    forall i | 0 <= i < |s.subscribers|
      ensures var x := s.subscribers[i];
              && Ordered(x.delivered) && Spaced(Seen(x)) && x.inListener + x.deferred <= 1
              && |x.pending| <= PENDING_LIMIT && (x.closed ==> x.pending == []) && Served(x)
              && forall k :: 0 <= k < |x.delivered| ==>
                   x.delivered[k].sequence < |s.history| && x.delivered[k].value == s.history[x.delivered[k].sequence]
    {
      var x := s.subscribers[i];
      assert TrueTo(s.history, x);
      assert forall k :: 0 <= k < |x.delivered| ==> x.delivered[k] == Seen(x)[k];
    }
    if s.delivering.None? {
      forall i | 0 <= i < |s.subscribers| && !s.subscribers[i].closed
        ensures var x := s.subscribers[i];
                Seen(x) != [] && Newest(x).sequence == s.sequence && Newest(x).value == s.value
      {
        assert TrueTo(s.history, s.subscribers[i]);
        assert Registered(s.listeners, i);
        var l :| l in s.listeners && l.subscriber == i;
        assert ListenerOk(s, l);
      }
    }
  }

  /** Pushing to a closed subscriber does nothing. */
  lemma {:induction false} ClosedDeliver(s: State, i: nat)
    requires Enabled(s, Deliver) && i < |s.subscribers| && s.subscribers[i].closed
    ensures i < |DeliverOne(s).subscribers| && DeliverOne(s).subscribers[i] == s.subscribers[i]
  {
  }

  lemma {:induction false} ClosedStep(s: State, a: Action, i: nat)
    requires Enabled(s, a) && i < |s.subscribers| && s.subscribers[i].closed && SubscriberOk(s.subscribers[i])
    ensures var t := Next(s, a);
            && i < |t.subscribers| && t.subscribers[i].closed && SubscriberOk(t.subscribers[i])
            && t.subscribers[i].delivered == s.subscribers[i].delivered
  {
    match a
    case Step(k, o) =>
      if k == i { OwnStepOk(s.subscribers[i], o); }
    case Deliver => ClosedDeliver(s, i);
    case Unsubscribe(_) => CloseOk(s.subscribers[i]);
    case _ =>
  }

  /** After close nothing is delivered, whatever happens next. */
  lemma {:induction false} NothingAfterClose(s: State, run: seq<Action>, t: State, i: nat)
    requires IsRun(s, run, t) && i < |s.subscribers| && s.subscribers[i].closed && SubscriberOk(s.subscribers[i])
    ensures i < |t.subscribers| && t.subscribers[i].closed && t.subscribers[i].delivered == s.subscribers[i].delivered
    decreases |run|
  {
    if run != [] {
      ClosedStep(s, run[0], i);
      NothingAfterClose(Next(s, run[0]), run[1..], t, i);
    }
  }

  /** The values of the frames that continue the source's cursor without a gap, up to the first
      gap or the disposal. */
  function Accepted(cursor: int, run: seq<Action>): seq<Json>
    decreases |run|
  {
    if run == [] then []
    else
      match run[0]
      case Receive(c, v) => if IsSafeCursor(c) && c == cursor + 1 then [v] + Accepted(c, run[1..]) else []
      case Dispose => []
      case _ => Accepted(cursor, run[1..])
  }

  /** A gap comes before any disposal. */
  predicate Breaks(cursor: int, run: seq<Action>)
    decreases |run|
  {
    run != [] &&
    match run[0]
    case Receive(c, _) => if IsSafeCursor(c) && c == cursor + 1 then Breaks(c, run[1..]) else true
    case Dispose => false
    case _ => Breaks(cursor, run[1..])
  }

  lemma {:induction false} SourceStep(s: State, a: Action)
    requires Enabled(s, a)
    ensures var t := Next(s, a);
            && (s.disposed || !a.Receive? ==> t.history == s.history && t.cursor == s.cursor && t.errors == s.errors)
            && (t.disposed <==> s.disposed || a == Dispose || (a.Receive? && !(IsSafeCursor(a.cursor) && a.cursor == s.cursor + 1)))
            && (!s.disposed && a.Receive? ==>
                  if t.disposed then t.history == s.history && t.cursor == s.cursor && t.errors == s.errors + 1
                  else t.history == s.history + [a.value] && t.cursor == s.cursor + 1 && t.errors == s.errors)
  {
  }

  lemma {:induction false} SourceRun(s: State, run: seq<Action>, t: State)
    requires IsRun(s, run, t)
    ensures s.disposed ==> t.disposed && t.history == s.history && t.cursor == s.cursor && t.errors == s.errors
    ensures !s.disposed ==>
              && t.history == s.history + Accepted(s.cursor, run)
              && t.cursor == s.cursor + |Accepted(s.cursor, run)|
              && t.errors == s.errors + if Breaks(s.cursor, run) then 1 else 0
    decreases |run|
  {
    if run == [] {
      assert s.history + [] == s.history;
    } else {
      SourceStep(s, run[0]);
      SourceRun(Next(s, run[0]), run[1..], t);
      assert s.history + [] == s.history;
      if run[0].Receive? {
        var rest := Accepted(s.cursor + 1, run[1..]);
        assert s.history + ([run[0].value] + rest) == (s.history + [run[0].value]) + rest;
      }
    }
  }

  /** Over every sequence of frames and calls: the published values are the snapshot and then
      exactly the contiguous frames before the first gap or disposal; the current value is the
      last of them; the cursor is safe and runs ahead of the snapshot's by the publisher's
      sequence; and a gap is reported once. */
  lemma {:induction false} SourceContract(value: Json, cursor: int, run: seq<Action>, s: State)
    requires IsSafeCursor(cursor) && IsRun(Initial(value, cursor), run, s)
    ensures s.history == [value] + Accepted(cursor, run) && s.value == s.history[|s.history| - 1]
    ensures s.cursor - cursor == s.sequence == |Accepted(cursor, run)| && IsSafeCursor(s.cursor)
    ensures s.errors == if Breaks(cursor, run) then 1 else 0
  {
    InitialInv(value, cursor);
    InvRun(Initial(value, cursor), run, s);
    SourceRun(Initial(value, cursor), run, s);
  }
}
