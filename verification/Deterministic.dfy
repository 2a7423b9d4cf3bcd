/** The deterministic run: answers are admitted in any order and applied by number.

    The guest is a deterministic function from its state, the virtual time and one answer to a
    reaction. Answers may be delivered between any two steps of the driver, also while a
    reaction's calls are still being issued. */
module Deterministic {
  import opened Values

  /** A clock value handed in by the host. */
  datatype Clock = Finite(time: real) | NotFinite

  /** A host outcome; the last two fields say what reading its texts as JSON gave. */
  datatype HostOutcome = HostOutcome(
    ok: bool,
    payload: string,
    properties: Option<string>,
    payloadIsJson: bool,
    propertiesIsObject: bool)

  datatype Answer = Answer(number: int, id: int, ok: bool, payload: string, properties: Option<string>, now: real)

  datatype Reason = ClockReason | NumberReason | UnknownCall | PropertiesReason | SerializationReason

  /** `delivery_rejection`: the first condition an answer violates. */
  function Rejection(number: int, now: Clock, outcome: HostOutcome, used: bool, waiting: bool): Option<Reason> {
    if now.NotFinite? then Some(ClockReason)
    else if number < 1 || used then Some(NumberReason)
    else if !waiting then Some(UnknownCall)
    else if !outcome.ok && outcome.properties.Some? && !outcome.propertiesIsObject then Some(PropertiesReason)
    else if outcome.ok && outcome.payload != "" && !outcome.payloadIsJson then Some(SerializationReason)
    else None
  }

  // ---------------------------------------------------------------- the guest and what it leaves behind

  datatype Call = Call(id: int, isTool: bool, name: string)

  /** What the guest does with an answer: its next state, the calls it issues, and whether it is done. */
  datatype Reaction<V> = Reaction(vm: V, calls: seq<Call>, done: bool)

  type Guest<!V> = (V, real, Answer) -> Reaction<V>

  datatype Status = Cancelled | Succeeded | Failed

  datatype Record = Record(name: string, status: Status)

  datatype Idle = Idle(number: int, issued: nat)

  /** Everything the run's outcome is made of. `open` maps a waiting tool call to its record. */
  datatype Core<V> = Core(
    vm: V,
    clock: real,
    issued: nat,
    log: seq<Call>,
    records: seq<Record>,
    open: map<int, nat>,
    idles: seq<Idle>,
    done: bool)

  /** `handle_bridge`: count the call; a tool call gets a record, `cancelled` until answered. */
  function Issue<V>(k: Core<V>, c: Call): Core<V> {
    var counted := k.(issued := k.issued + 1, log := k.log + [c]);
    if !c.isTool then counted
    else
      counted.(records := k.records + [Record(c.name, Cancelled)],
               open := if c.id in k.open then k.open else k.open[c.id := |k.records|])
  }

  /** Applying an answer up to the guest's reaction: the clock never goes back, and the record of
      the answered call is settled. */
  function Begin<V>(k: Core<V>, a: Answer, vm: V): Core<V> {
    var clock := NewClock(k.clock, a);
    if a.id in k.open && k.open[a.id] < |k.records| then
      var r := k.open[a.id];
      k.(vm := vm, clock := clock, open := k.open - {a.id},
         records := k.records[r := k.records[r].(status := if a.ok then Succeeded else Failed)])
    else k.(vm := vm, clock := clock)
  }

  function IssueAll<V>(k: Core<V>, calls: seq<Call>): Core<V>
    decreases |calls|
  {
    if calls == [] then k else IssueAll(Issue(k, calls[0]), calls[1..])
  }

  /** The end of a reaction: done, or idle until the next answer. */
  function End<V>(k: Core<V>, number: int, done: bool): Core<V> {
    if done then k.(done := true) else k.(idles := k.idles + [Idle(number, k.issued)])
  }

  function NewClock(clock: real, a: Answer): real {
    if a.now > clock then a.now else clock
  }

  /** One answer applied from beginning to end. */
  function ApplyOne<V>(guest: Guest<V>, k: Core<V>, a: Answer): Core<V> {
    var r := guest(k.vm, NewClock(k.clock, a), a);
    End(IssueAll(Begin(k, a, r.vm), r.calls), a.number, r.done)
  }

  /** The core after the script's first run. */
  function Started<V>(startedAt: real, first: Reaction<V>): Core<V> {
    End(IssueAll(Core(first.vm, startedAt, 0, [], [], map[], [], false), first.calls), 0, first.done)
  }

  /** The answers applied in order. */
  function Replay<V>(guest: Guest<V>, k: Core<V>, answers: seq<Answer>): Core<V> {
    if answers == [] then k else ApplyOne(guest, Replay(guest, k, answers[..|answers| - 1]), answers[|answers| - 1])
  }

  // ---------------------------------------------------------------- the driver

  /** Either waiting for the next number, or in the middle of a reaction. */
  datatype Phase = Waiting | Reacting(number: int, calls: seq<Call>, done: bool)

  /** `admitted` are the answers accepted so far by number, `applied` those applied, in order. */
  datatype State<V> = State(
    core: Core<V>,
    phase: Phase,
    next: int,
    queued: seq<Answer>,
    delivered: set<int>,
    waiting: set<int>,
    admitted: map<int, Answer>,
    applied: seq<Answer>)

  datatype Action =
    | Deliver(number: int, now: Clock, id: int, outcome: HostOutcome)
    | Take(position: nat)
    | IssueNext
    | EndReaction

  function Initial<V>(startedAt: real, first: Reaction<V>): State<V> {
    State(Core(first.vm, startedAt, 0, [], [], map[], [], false), Reacting(0, first.calls, first.done), 0, [], {}, {}, map[], [])
  }

  /** The driver takes the queued answer with the next number, wherever it stands in the queue. */
  predicate Enabled<V>(s: State<V>, a: Action) {
    match a
    case Deliver(_, _, _, _) => true
    case Take(p) => s.phase.Waiting? && !s.core.done && p < |s.queued| && s.queued[p].number == s.next
    case IssueNext => s.phase.Reacting? && s.phase.calls != []
    case EndReaction => s.phase.Reacting? && s.phase.calls == []
  }

  function Admission<V>(s: State<V>, number: int, now: Clock, id: int, outcome: HostOutcome): Option<Reason> {
    Rejection(number, now, outcome, number in s.delivered, id in s.waiting)
  }

  /** `deliver`: a finished run ignores the answer, a rejected one changes nothing. */
  function DeliverAnswer<V>(s: State<V>, number: int, now: Clock, id: int, outcome: HostOutcome): State<V> {
    if s.core.done || Admission(s, number, now, id, outcome).Some? then s
    else
      var a := Answer(number, id, outcome.ok, outcome.payload, outcome.properties, now.time);
      s.(delivered := s.delivered + {number}, waiting := s.waiting - {id}, queued := s.queued + [a],
         admitted := s.admitted[number := a])
  }

  function Next<V>(guest: Guest<V>, s: State<V>, a: Action): State<V>
    requires Enabled(s, a)
  {
    match a
    case Deliver(n, now, id, o) => DeliverAnswer(s, n, now, id, o)
    case Take(p) =>
      var x := s.queued[p];
      var r := guest(s.core.vm, NewClock(s.core.clock, x), x);
      s.(core := Begin(s.core, x, r.vm), phase := Reacting(x.number, r.calls, r.done),
         queued := s.queued[..p] + s.queued[p + 1..], applied := s.applied + [x])
    case IssueNext =>
      s.(core := Issue(s.core, s.phase.calls[0]), waiting := s.waiting + {s.phase.calls[0].id},
         phase := s.phase.(calls := s.phase.calls[1..]))
    case EndReaction => s.(core := End(s.core, s.phase.number, s.phase.done), phase := Waiting, next := s.next + 1)
  }

  ghost predicate IsRun<V(!new)>(guest: Guest<V>, s: State<V>, run: seq<Action>, t: State<V>)
    decreases |run|
  {
    if run == [] then s == t else Enabled(s, run[0]) && IsRun(guest, Next(guest, s, run[0]), run[1..], t)
  }

  // ---------------------------------------------------------------- the invariant

  /** The core once the current reaction has ended. */
  function Settled<V>(s: State<V>): Core<V> {
    match s.phase
    case Waiting => s.core
    case Reacting(n, calls, done) => End(IssueAll(s.core, calls), n, done)
  }

  /** Applied are the answers 1, 2, 3, ... as they were admitted. */
  predicate AppliedOk<V>(s: State<V>) {
    && |s.applied| == (if s.phase.Waiting? then s.next - 1 else s.next)
    && (s.phase.Reacting? ==> s.phase.number == s.next && !s.core.done)
    && (forall n :: 1 <= n <= |s.applied| ==> n in s.admitted)
    && (forall i :: 0 <= i < |s.applied| ==> s.applied[i].number == i + 1 && s.admitted[i + 1] == s.applied[i])
  }

  /** Every admitted answer was applied or is queued, once; queued numbers are still to come. */
  predicate QueueOk<V>(s: State<V>) {
    && s.admitted.Keys == s.delivered
    && (forall n :: n in s.admitted ==> n >= 1 && s.admitted[n].number == n)
    && (forall i :: 0 <= i < |s.queued| ==>
          s.queued[i].number > |s.applied| && s.queued[i].number in s.admitted && s.admitted[s.queued[i].number] == s.queued[i])
    && Distinct(s.queued)
    && (forall n :: n in s.admitted && n > |s.applied| ==> s.admitted[n] in s.queued)
  }

  ghost predicate Inv<V(!new)>(guest: Guest<V>, k: Core<V>, s: State<V>) {
    AppliedOk(s) && QueueOk(s) && Settled(s) == Replay(guest, k, s.applied)
  }

  /** A new answer joins the queue behind the others. */
  lemma {:induction false} Admitted<V>(s: State<V>, t: State<V>, a: Answer)
    requires AppliedOk(s) && QueueOk(s) && a.number >= 1 && a.number !in s.delivered
    requires t == s.(delivered := s.delivered + {a.number}, waiting := t.waiting, queued := s.queued + [a],
                     admitted := s.admitted[a.number := a])
    ensures QueueOk(t) && AppliedOk(t)
  {
    assert a.number !in s.admitted;
    assert |s.applied| < a.number;
    assert forall i :: 0 <= i < |s.queued| ==> t.queued[i] == s.queued[i];
    forall m | m in t.admitted && m > |t.applied|
      ensures t.admitted[m] in t.queued
    {
      if m != a.number {
        assert s.admitted[m] in s.queued;
      } else {
        assert t.queued[|s.queued|] == a;
      }
    }
  }

  lemma {:induction false} DeliverInv<V(!new)>(guest: Guest<V>, k: Core<V>, s: State<V>, n: int, now: Clock, id: int, o: HostOutcome)
    requires Inv(guest, k, s)
    ensures Inv(guest, k, DeliverAnswer(s, n, now, id, o))
  {
    var t := DeliverAnswer(s, n, now, id, o);
    assert Settled(t) == Settled(s);
    if !s.core.done && Admission(s, n, now, id, o).None? {
      Admitted(s, t, Answer(n, id, o.ok, o.payload, o.properties, now.time));
    }
  }

  predicate Distinct(q: seq<Answer>) {
    forall i, j :: 0 <= i < j < |q| ==> q[i].number != q[j].number
  }

  /** Taking one answer out of a queue leaves the others, and no other with its number. */
  lemma {:induction false} Taken(q: seq<Answer>, p: nat)
    requires p < |q| && Distinct(q)
    ensures var r := q[..p] + q[p + 1..];
            Distinct(r) && forall a :: a in r <==> a in q && a.number != q[p].number
  {
    var r := q[..p] + q[p + 1..];
    forall a | a in q && a.number != q[p].number
      ensures a in r
    {
      var i :| 0 <= i < |q| && q[i] == a;
      assert r[if i < p then i else i - 1] == a;
    }
    forall i | 0 <= i < |r|
      ensures r[i] == q[if i < p then i else i + 1]
    {
    }
  }

  lemma {:induction false} TakeQueue<V>(s: State<V>, t: State<V>, p: nat)
    requires AppliedOk(s) && QueueOk(s) && Enabled(s, Take(p))
    requires t.queued == s.queued[..p] + s.queued[p + 1..] && t.applied == s.applied + [s.queued[p]]
    requires t.admitted == s.admitted && t.delivered == s.delivered
    ensures QueueOk(t)
  {
    Taken(s.queued, p);
    forall i | 0 <= i < |t.queued|
      ensures t.queued[i].number > |t.applied|
      ensures t.queued[i].number in t.admitted && t.admitted[t.queued[i].number] == t.queued[i]
    {
      assert t.queued[i] in t.queued;
    }
    forall m | m in t.admitted && m > |t.applied|
      ensures t.admitted[m] in t.queued
    {
      assert s.admitted[m] in s.queued;
    }
  }

  /** The answer taken is the next one in order. */
  lemma {:induction false} TakeApplied<V(!new)>(guest: Guest<V>, s: State<V>, p: nat)
    requires AppliedOk(s) && QueueOk(s) && Enabled(s, Take(p))
    ensures AppliedOk(Next(guest, s, Take(p)))
  {
    var x := s.queued[p];
    assert x.number == |s.applied| + 1 && s.admitted[x.number] == x;
  }

  /** Once its reaction has ended, the taken answer has been applied to what was there. */
  lemma {:induction false} TakeSettles<V(!new)>(guest: Guest<V>, k: Core<V>, s: State<V>, p: nat)
    requires Enabled(s, Take(p)) && s.core == Replay(guest, k, s.applied)
    ensures var t := Next(guest, s, Take(p)); Settled(t) == Replay(guest, k, t.applied)
  {
    ReplaySnoc(guest, k, s.applied, s.queued[p]);
  }

  lemma {:induction false} TakeInv<V(!new)>(guest: Guest<V>, k: Core<V>, s: State<V>, p: nat)
    requires Inv(guest, k, s) && Enabled(s, Take(p))
    ensures Inv(guest, k, Next(guest, s, Take(p)))
  {
    TakeApplied(guest, s, p);
    TakeQueue(s, Next(guest, s, Take(p)), p);
    TakeSettles(guest, k, s, p);
  }

  lemma {:induction false} ReplaySnoc<V>(guest: Guest<V>, k: Core<V>, answers: seq<Answer>, a: Answer)
    ensures Replay(guest, k, answers + [a]) == ApplyOne(guest, Replay(guest, k, answers), a)
  {
    assert (answers + [a])[..|answers|] == answers;
  }

  lemma {:induction false} InvStep<V(!new)>(guest: Guest<V>, k: Core<V>, s: State<V>, a: Action)
    requires Inv(guest, k, s) && Enabled(s, a)
    ensures Inv(guest, k, Next(guest, s, a))
  {
    match a {
      case Deliver(n, now, id, o) => DeliverInv(guest, k, s, n, now, id, o);
      case Take(p) => TakeInv(guest, k, s, p);
      case IssueNext =>
      case EndReaction =>
    }
  }

  lemma {:induction false} InvRun<V(!new)>(guest: Guest<V>, k: Core<V>, s: State<V>, run: seq<Action>, t: State<V>)
    requires Inv(guest, k, s) && IsRun(guest, s, run, t)
    ensures Inv(guest, k, t)
    decreases |run|
  {
    if run != [] {
      InvStep(guest, k, s, run[0]);
      InvRun(guest, k, Next(guest, s, run[0]), run[1..], t);
    }
  }

  lemma {:induction false} InitialInv<V(!new)>(guest: Guest<V>, startedAt: real, first: Reaction<V>)
    ensures Inv(guest, Started(startedAt, first), Initial(startedAt, first))
  {
  }

  // ---------------------------------------------------------------- order independence

  /** In every state any run reaches: the answers applied are numbered 1, 2, 3, ..., each applied
      once and as admitted; every number queued is still to come and queued once; and the core is
      what applying those answers in order gives. */
  lemma {:induction false} AppliedInOrder<V(!new)>(guest: Guest<V>, startedAt: real, first: Reaction<V>, run: seq<Action>, s: State<V>)
    requires IsRun(guest, Initial(startedAt, first), run, s)
    ensures forall i :: 0 <= i < |s.applied| ==>
              s.applied[i].number == i + 1 && i + 1 in s.admitted && s.admitted[i + 1] == s.applied[i]
    ensures forall i :: 0 <= i < |s.queued| ==> s.queued[i].number > |s.applied|
    ensures forall i, j :: 0 <= i < j < |s.queued| ==> s.queued[i].number != s.queued[j].number
    ensures s.phase.Waiting? ==> s.core == Replay(guest, Started(startedAt, first), s.applied)
  {
    InitialInv(guest, startedAt, first);
    InvRun(guest, Started(startedAt, first), Initial(startedAt, first), run, s);
  }

  /** The driver has nothing to do: the run is done, or the next number has not been delivered. */
  predicate Quiet<V>(s: State<V>) {
    s.phase.Waiting? && (s.core.done || s.next !in s.admitted)
  }

  /** No answer was applied after the run was done. */
  ghost predicate LiveBefore<V(!new)>(guest: Guest<V>, k: Core<V>, s: State<V>) {
    forall n :: 0 <= n < |s.applied| ==> !Replay(guest, k, s.applied[..n]).done
  }

  lemma {:induction false} LiveStep<V(!new)>(guest: Guest<V>, k: Core<V>, s: State<V>, a: Action)
    requires Inv(guest, k, s) && LiveBefore(guest, k, s) && Enabled(s, a)
    ensures LiveBefore(guest, k, Next(guest, s, a))
  {
    var t := Next(guest, s, a);
    if a.Take? {
      forall n | 0 <= n < |t.applied|
        ensures !Replay(guest, k, t.applied[..n]).done
      {
        assert t.applied[..n] == s.applied[..n];
        if n == |s.applied| {
          assert s.applied[..n] == s.applied;
        }
      }
    }
  }

  lemma {:induction false} LiveRun<V(!new)>(guest: Guest<V>, k: Core<V>, s: State<V>, run: seq<Action>, t: State<V>)
    requires Inv(guest, k, s) && LiveBefore(guest, k, s) && IsRun(guest, s, run, t)
    ensures LiveBefore(guest, k, t)
    decreases |run|
  {
    if run != [] {
      LiveStep(guest, k, s, run[0]);
      InvStep(guest, k, s, run[0]);
      LiveRun(guest, k, Next(guest, s, run[0]), run[1..], t);
    }
  }

  /** The two runs were given the same answer wherever both were given one. */
  ghost predicate Agree<V(!new)>(s: State<V>, t: State<V>) {
    forall n :: n in s.admitted && n in t.admitted ==> s.admitted[n] == t.admitted[n]
  }

  /** Two runs whose answers agree wherever both were applied have applied the same answers up
      to the shorter. */
  lemma {:induction false} SamePrefix<V(!new)>(guest: Guest<V>, k: Core<V>, s: State<V>, t: State<V>)
    requires Inv(guest, k, s) && Inv(guest, k, t) && |s.applied| <= |t.applied| && Agree(s, t)
    ensures s.applied <= t.applied
    ensures |s.applied| < |t.applied| ==> t.applied[..|s.applied|] == s.applied && |s.applied| + 1 in t.admitted
  {
    forall i | 0 <= i < |s.applied|
      ensures s.applied[i] == t.applied[i]
    {
      assert s.admitted[i + 1] == s.applied[i] && t.admitted[i + 1] == t.applied[i];
    }
  }

  /** `t` was given nothing that `s` still waits for. */
  predicate NotBehind<V>(s: State<V>, t: State<V>) {
    s.core.done || s.next !in t.admitted
  }

  lemma {:induction false} NotShorter<V(!new)>(guest: Guest<V>, k: Core<V>, s: State<V>, t: State<V>)
    requires Inv(guest, k, s) && Inv(guest, k, t) && LiveBefore(guest, k, t) && Quiet(s)
    requires Agree(s, t) && NotBehind(s, t)
    ensures |t.applied| <= |s.applied|
  {
    if |s.applied| < |t.applied| {
      SamePrefix(guest, k, s, t);
    }
  }

  /** Two runs of one script that have nothing to do, were given the same answer wherever both were
      given one, and were driven in any order, have applied the same answers if and only if
      neither waits for a number that the other was given; and then they left the same behind. */
  lemma {:induction false} SameAnswersIff<V(!new)>(
    guest: Guest<V>, startedAt: real, first: Reaction<V>,
    run: seq<Action>, s: State<V>, run': seq<Action>, t: State<V>)
    requires IsRun(guest, Initial(startedAt, first), run, s) && Quiet(s)
    requires IsRun(guest, Initial(startedAt, first), run', t) && Quiet(t)
    requires Agree(s, t)
    ensures s.applied == t.applied <==> NotBehind(s, t) && NotBehind(t, s)
    ensures s.applied == t.applied ==> s.core == t.core
  {
    var k, i := Started(startedAt, first), Initial(startedAt, first);
    InitialInv(guest, startedAt, first);
    InvRun(guest, k, i, run, s);
    InvRun(guest, k, i, run', t);
    LiveRun(guest, k, i, run, s);
    LiveRun(guest, k, i, run', t);
    if NotBehind(s, t) && NotBehind(t, s) {
      NotShorter(guest, k, s, t);
      NotShorter(guest, k, t, s);
      SamePrefix(guest, k, s, t);
    }
  }

  /** Arrival order does not matter: two runs of one script that were given the same numbered
      answers, in whatever order and however interleaved with the driver, end with the same guest
      state, clock, calls, records and idle reports. A finished run may have ignored answers that
      the other run was given. */
  lemma {:induction false} ArrivalOrderIndependent<V(!new)>(
    guest: Guest<V>, startedAt: real, first: Reaction<V>,
    run: seq<Action>, s: State<V>, run': seq<Action>, t: State<V>)
    requires IsRun(guest, Initial(startedAt, first), run, s) && Quiet(s)
    requires IsRun(guest, Initial(startedAt, first), run', t) && Quiet(t)
    requires Agree(s, t)
    requires s.core.done || t.admitted.Keys <= s.admitted.Keys
    requires t.core.done || s.admitted.Keys <= t.admitted.Keys
    ensures s.core == t.core && s.applied == t.applied
  {
    assert s.next !in s.admitted || s.core.done;
    assert t.next !in t.admitted || t.core.done;
    SameAnswersIff(guest, startedAt, first, run, s, run', t);
  }

  /** A host that offers one answer per number: what it says about each. */
  type Host = int -> (Clock, int, HostOutcome)

  /** The run is offered answers of this host only. */
  ghost predicate OfferedBy(host: Host, run: seq<Action>) {
    forall a :: a in run && a.Deliver? ==> (a.now, a.id, a.outcome) == host(a.number)
  }

  /** Every admitted answer is the host's. */
  ghost predicate FromHost<V(!new)>(host: Host, s: State<V>) {
    forall n :: n in s.admitted ==>
      var (now, id, o) := host(n);
      now.Finite? && s.admitted[n] == Answer(n, id, o.ok, o.payload, o.properties, now.time)
  }

  lemma {:induction false} FromHostRun<V(!new)>(guest: Guest<V>, host: Host, s: State<V>, run: seq<Action>, t: State<V>)
    requires FromHost(host, s) && OfferedBy(host, run) && IsRun(guest, s, run, t)
    ensures FromHost(host, t)
    decreases |run|
  {
    if run != [] {
      assert run[0] in run;
      FromHostRun(guest, host, Next(guest, s, run[0]), run[1..], t);
    }
  }

  /** Two runs offered the answers of one host agree, whichever of them were admitted. */
  lemma {:induction false} OneHostAgrees<V(!new)>(
    guest: Guest<V>, host: Host, startedAt: real, first: Reaction<V>,
    run: seq<Action>, s: State<V>, run': seq<Action>, t: State<V>)
    requires IsRun(guest, Initial(startedAt, first), run, s) && OfferedBy(host, run)
    requires IsRun(guest, Initial(startedAt, first), run', t) && OfferedBy(host, run')
    ensures Agree(s, t)
  {
    FromHostRun(guest, host, Initial(startedAt, first), run, s);
    FromHostRun(guest, host, Initial(startedAt, first), run', t);
  }

  /** The clock never goes back, and issued calls and idle reports are only added. */
  lemma {:induction false} ForwardStep<V(!new)>(guest: Guest<V>, s: State<V>, a: Action)
    requires Enabled(s, a)
    ensures var t := Next(guest, s, a);
            s.core.clock <= t.core.clock && s.core.log <= t.core.log && s.core.idles <= t.core.idles
  {
  }

  lemma {:induction false} ForwardOnly<V(!new)>(guest: Guest<V>, s: State<V>, run: seq<Action>, t: State<V>)
    requires IsRun(guest, s, run, t)
    ensures s.core.clock <= t.core.clock && s.core.log <= t.core.log && s.core.idles <= t.core.idles
    decreases |run|
  {
    if run != [] {
      ForwardStep(guest, s, run[0]);
      ForwardOnly(guest, Next(guest, s, run[0]), run[1..], t);
    }
  }
}
