/** What a deterministic run leaves behind: one record per tool call with the fate of the call, the
    clock, and the idle reports. */
module CallRecords {
  import opened Values
  import opened Deterministic

  // ---------------------------------------------------------------- calls and answers

  /** The tool calls among the issued calls, in order. */
  function ToolCalls(log: seq<Call>): seq<Call> {
    if log == [] then []
    else ToolCalls(log[..|log| - 1]) + if log[|log| - 1].isTool then [log[|log| - 1]] else []
  }

  predicate Issued(log: seq<Call>, id: int) {
    exists c :: c in log && c.id == id
  }

  predicate DistinctIds(log: seq<Call>) {
    forall i, j :: 0 <= i < j < |log| ==> log[i].id != log[j].id
  }

  predicate Answers(applied: seq<Answer>, id: int) {
    exists a :: a in applied && a.id == id
  }

  /** The fate of a call: cancelled until an answer to it was applied, then as that answer says. */
  predicate Fate(applied: seq<Answer>, id: int, status: Status) {
    && (status == Cancelled <==> !Answers(applied, id))
    && (forall a :: a in applied && a.id == id ==> (status == Succeeded <==> a.ok))
  }

  lemma {:induction false} ToolCallsSnoc(log: seq<Call>, c: Call)
    ensures ToolCalls(log + [c]) == ToolCalls(log) + if c.isTool then [c] else []
  {
    assert (log + [c])[..|log|] == log;
  }

  lemma {:induction false} ToolCallsIssued(log: seq<Call>, i: nat)
    requires i < |ToolCalls(log)|
    ensures ToolCalls(log)[i] in log && ToolCalls(log)[i].isTool
    decreases |log|
  {
    var front := log[..|log| - 1];
    if i < |ToolCalls(front)| {
      ToolCallsIssued(front, i);
    }
  }

  lemma {:induction false} ToolCallsDistinct(log: seq<Call>)
    requires DistinctIds(log)
    ensures DistinctIds(ToolCalls(log))
    decreases |log|
  {
    if log != [] {
      var front := log[..|log| - 1];
      ToolCallsDistinct(front);
      forall i | 0 <= i < |ToolCalls(front)|
        ensures ToolCalls(front)[i].id != log[|log| - 1].id
      {
        ToolCallsIssued(front, i);
      }
    }
  }

  // ---------------------------------------------------------------- the invariant

  /** Ids that wait were issued and have no answer yet; admitted answers are to issued calls, one each. */
  predicate WaitOk<V>(s: State<V>) {
    && (forall id :: id in s.waiting ==> Issued(s.core.log, id))
    && (forall n :: n in s.admitted ==> Issued(s.core.log, s.admitted[n].id) && s.admitted[n].id !in s.waiting)
    && (forall n, m :: n in s.admitted && m in s.admitted && s.admitted[n].id == s.admitted[m].id ==> n == m)
  }

  /** One record per tool call, in order, with its name and its fate; the open ones are those without
      an applied answer. */
  predicate RecordsOk<V>(s: State<V>) {
    var tools := ToolCalls(s.core.log);
    && |s.core.records| == |tools|
    && (forall i :: 0 <= i < |tools| ==> s.core.records[i].name == tools[i].name)
    && (forall i :: 0 <= i < |tools| ==> Fate(s.applied, tools[i].id, s.core.records[i].status))
    && (forall i :: 0 <= i < |tools| && !Answers(s.applied, tools[i].id) ==>
          tools[i].id in s.core.open && s.core.open[tools[i].id] == i)
    && (forall id :: id in s.core.open ==>
          !Answers(s.applied, id) && s.core.open[id] < |tools| && tools[s.core.open[id]].id == id)
  }

  ghost predicate FateInv<V(!new)>(s: State<V>) {
    AppliedOk(s) && QueueOk(s) && WaitOk(s) && RecordsOk(s)
  }

  // ---------------------------------------------------------------- each action keeps it

  lemma {:induction false} DeliverFate<V(!new)>(s: State<V>, n: int, now: Clock, id: int, o: HostOutcome)
    requires FateInv(s) && AppliedOk(DeliverAnswer(s, n, now, id, o)) && QueueOk(DeliverAnswer(s, n, now, id, o))
    ensures FateInv(DeliverAnswer(s, n, now, id, o))
  {
    var t := DeliverAnswer(s, n, now, id, o);
    if !s.core.done && Admission(s, n, now, id, o).None? {
      assert id in s.waiting && n !in s.admitted;
      assert forall m :: m in s.admitted ==> s.admitted[m].id != id;
    }
  }

  /** The applied answers are among the admitted ones, so no two are to the same call. */
  lemma {:induction false} NotAnsweredBefore<V(!new)>(s: State<V>, p: nat)
    requires FateInv(s) && Enabled(s, Take(p))
    ensures !Answers(s.applied, s.queued[p].id) && Issued(s.core.log, s.queued[p].id)
  {
    var x := s.queued[p];
    assert s.admitted[x.number] == x;
    forall a | a in s.applied
      ensures a.id != x.id
    {
      var i :| 0 <= i < |s.applied| && s.applied[i] == a;
      assert s.admitted[i + 1] == a && i + 1 != x.number;
    }
  }

  lemma {:induction false} TakeRecords<V(!new)>(guest: Guest<V>, s: State<V>, p: nat)
    requires FateInv(s) && Enabled(s, Take(p)) && DistinctIds(s.core.log)
    ensures RecordsOk(Next(guest, s, Take(p)))
  {
    var t := Next(guest, s, Take(p));
    var x := s.queued[p];
    var tools := ToolCalls(s.core.log);
    NotAnsweredBefore(s, p);
    ToolCallsDistinct(s.core.log);
    assert t.core.log == s.core.log;
    forall id
      ensures Answers(t.applied, id) <==> Answers(s.applied, id) || id == x.id
    {
      assert x in t.applied && forall a :: a in s.applied ==> a in t.applied;
    }
    if k :| 0 <= k < |tools| && tools[k].id == x.id {
      assert x.id in s.core.open && s.core.open[x.id] == k;
      TakeFates(s, t, x, k);
    } else {
      TakeOthers(s, t, x);
    }
  }

  /** The record of the answered call is settled, and only that. */
  lemma {:induction false} TakeFates<V(!new)>(s: State<V>, t: State<V>, x: Answer, k: nat)
    requires RecordsOk(s) && DistinctIds(ToolCalls(s.core.log)) && k < |ToolCalls(s.core.log)|
    requires ToolCalls(s.core.log)[k].id == x.id && !Answers(s.applied, x.id)
    requires x.id in s.core.open && s.core.open[x.id] == k
    requires t.core == Begin(s.core, x, t.core.vm) && t.applied == s.applied + [x]
    requires forall id :: Answers(t.applied, id) <==> Answers(s.applied, id) || id == x.id
    ensures RecordsOk(t)
  {
    var tools := ToolCalls(s.core.log);
    forall i | 0 <= i < |tools|
      ensures Fate(t.applied, tools[i].id, t.core.records[i].status)
    {
      assert Fate(s.applied, tools[i].id, s.core.records[i].status);
      if i == k {
        assert forall a :: a in t.applied && a.id == x.id ==> a == x;
      } else {
        assert tools[i].id != x.id;
      }
    }
  }

  /** An answer to a call that has no record changes no record. */
  lemma {:induction false} TakeOthers<V(!new)>(s: State<V>, t: State<V>, x: Answer)
    requires RecordsOk(s) && !Answers(s.applied, x.id)
    requires forall k :: 0 <= k < |ToolCalls(s.core.log)| ==> ToolCalls(s.core.log)[k].id != x.id
    requires t.core == Begin(s.core, x, t.core.vm) && t.applied == s.applied + [x] && x.id !in s.core.open
    requires forall id :: Answers(t.applied, id) <==> Answers(s.applied, id) || id == x.id
    ensures RecordsOk(t)
  {
    var tools := ToolCalls(s.core.log);
    forall i | 0 <= i < |tools|
      ensures Fate(t.applied, tools[i].id, t.core.records[i].status)
    {
      assert Fate(s.applied, tools[i].id, s.core.records[i].status);
    }
  }

  lemma {:induction false} TakeFate<V(!new)>(guest: Guest<V>, s: State<V>, p: nat)
    requires FateInv(s) && Enabled(s, Take(p)) && DistinctIds(s.core.log)
    ensures FateInv(Next(guest, s, Take(p)))
  {
    var t := Next(guest, s, Take(p));
    TakeApplied(guest, s, p);
    TakeQueue(s, t, p);
    TakeRecords(guest, s, p);
    assert t.core.log == s.core.log;
  }

  /** A new call waits; a tool call gets a record that says cancelled. */
  lemma {:induction false} IssueRecords<V(!new)>(guest: Guest<V>, s: State<V>)
    requires FateInv(s) && Enabled(s, IssueNext) && DistinctIds(Next(guest, s, IssueNext).core.log)
    ensures RecordsOk(Next(guest, s, IssueNext))
  {
    var t := Next(guest, s, IssueNext);
    var c := s.phase.calls[0];
    var tools, more := ToolCalls(s.core.log), ToolCalls(t.core.log);
    ToolCallsSnoc(s.core.log, c);
    NewId(s, c);
    forall i | 0 <= i < |tools|
      ensures more[i] == tools[i] && tools[i].id != c.id
    {
      ToolCallsIssued(s.core.log, i);
    }
    forall i | 0 <= i < |more|
      ensures Fate(t.applied, more[i].id, t.core.records[i].status)
    {
      if i < |tools| {
        assert Fate(s.applied, tools[i].id, s.core.records[i].status);
      }
    }
  }

  /** A call with a new id has no answer yet and is not open. */
  lemma {:induction false} NewId<V(!new)>(s: State<V>, c: Call)
    requires FateInv(s) && DistinctIds(s.core.log + [c])
    ensures !Issued(s.core.log, c.id) && !Answers(s.applied, c.id) && c.id !in s.core.open
    ensures forall n :: n in s.admitted ==> s.admitted[n].id != c.id
  {
    var log := s.core.log + [c];
    forall k | 0 <= k < |s.core.log|
      ensures s.core.log[k].id != c.id
    {
      assert log[k].id != log[|s.core.log|].id;
    }
    forall a | a in s.applied
      ensures a.id != c.id
    {
      var i :| 0 <= i < |s.applied| && s.applied[i] == a;
      assert s.admitted[i + 1] == a;
    }
    if c.id in s.core.open {
      ToolCallsIssued(s.core.log, s.core.open[c.id]);
    }
  }

  lemma {:induction false} IssueFate<V(!new)>(guest: Guest<V>, s: State<V>)
    requires FateInv(s) && Enabled(s, IssueNext) && DistinctIds(Next(guest, s, IssueNext).core.log)
    ensures FateInv(Next(guest, s, IssueNext))
  {
    var t := Next(guest, s, IssueNext);
    var c := s.phase.calls[0];
    IssueRecords(guest, s);
    NewId(s, c);
    assert c in t.core.log && forall d :: d in s.core.log ==> d in t.core.log;
    forall id | Issued(s.core.log, id)
      ensures Issued(t.core.log, id)
    {
    }
  }

  lemma {:induction false} FateStep<V(!new)>(guest: Guest<V>, k: Core<V>, s: State<V>, a: Action)
    requires Inv(guest, k, s) && FateInv(s) && Enabled(s, a) && DistinctIds(Next(guest, s, a).core.log)
    ensures FateInv(Next(guest, s, a))
  {
    InvStep(guest, k, s, a);
    match a
    case Deliver(n, now, id, o) => DeliverFate(s, n, now, id, o);
    case Take(p) => TakeFate(guest, s, p);
    case IssueNext => IssueFate(guest, s);
    case EndReaction =>
  }

  /** Issued calls are only added, so ids that are distinct at the end were distinct before. */
  lemma {:induction false} FateRun<V(!new)>(guest: Guest<V>, k: Core<V>, s: State<V>, run: seq<Action>, t: State<V>)
    requires Inv(guest, k, s) && FateInv(s) && IsRun(guest, s, run, t) && DistinctIds(t.core.log)
    ensures FateInv(t)
    decreases |run|
  {
    if run != [] {
      var n := Next(guest, s, run[0]);
      ForwardOnly(guest, n, run[1..], t);
      assert n.core.log == t.core.log[..|n.core.log|];
      InvStep(guest, k, s, run[0]);
      FateStep(guest, k, s, run[0]);
      FateRun(guest, k, n, run[1..], t);
    }
  }

  // ---------------------------------------------------------------- what a run leaves behind

  /** In every state any run reaches in which no call id was issued twice: one record per tool call, in
      the order of issue and with its name; it says cancelled exactly if no answer to the call was
      applied, and otherwise what that answer said. */
  lemma {:induction false} RecordsTell<V(!new)>(guest: Guest<V>, startedAt: real, first: Reaction<V>, run: seq<Action>, s: State<V>)
    requires IsRun(guest, Initial(startedAt, first), run, s) && DistinctIds(s.core.log)
    ensures var tools := ToolCalls(s.core.log);
            && |s.core.records| == |tools|
            && forall i :: 0 <= i < |tools| ==>
                 s.core.records[i].name == tools[i].name && Fate(s.applied, tools[i].id, s.core.records[i].status)
  {
    InitialInv(guest, startedAt, first);
    FateRun(guest, Started(startedAt, first), Initial(startedAt, first), run, s);
  }

  /** The clock is the latest of the start and the applied answers; the calls are counted; and when the
      driver waits, it has reported itself idle after the start and after every applied answer, last
      with the number of calls issued so far. */
  predicate Reported<V>(startedAt: real, s: State<V>) {
    && startedAt <= s.core.clock && (forall a :: a in s.applied ==> a.now <= s.core.clock)
    && (s.core.clock == startedAt || exists a :: a in s.applied && a.now == s.core.clock)
    && s.core.issued == |s.core.log|
    && (forall i :: 0 <= i < |s.core.idles| ==> s.core.idles[i].number == i)
    && (!s.core.done ==> |s.core.idles| == (if s.phase.Waiting? then |s.applied| + 1 else |s.applied|))
    && (s.phase.Waiting? && !s.core.done ==> s.core.idles[|s.applied|].issued == |s.core.log|)
  }

  lemma {:induction false} ReportedStep<V(!new)>(guest: Guest<V>, k: Core<V>, startedAt: real, s: State<V>, a: Action)
    requires Inv(guest, k, s) && Reported(startedAt, s) && Enabled(s, a)
    ensures Reported(startedAt, Next(guest, s, a))
  {
    var t := Next(guest, s, a);
    match a
    case Take(p) =>
      var x := s.queued[p];
      assert x in t.applied && forall b :: b in s.applied ==> b in t.applied;
      assert t.core.clock == s.core.clock || t.core.clock == x.now;
    case _ =>
  }

  lemma {:induction false} ReportedRun<V(!new)>(guest: Guest<V>, k: Core<V>, startedAt: real, s: State<V>, run: seq<Action>, t: State<V>)
    requires Inv(guest, k, s) && Reported(startedAt, s) && IsRun(guest, s, run, t)
    ensures Reported(startedAt, t)
    decreases |run|
  {
    if run != [] {
      ReportedStep(guest, k, startedAt, s, run[0]);
      InvStep(guest, k, s, run[0]);
      ReportedRun(guest, k, startedAt, Next(guest, s, run[0]), run[1..], t);
    }
  }

  lemma {:induction false} RunReported<V(!new)>(guest: Guest<V>, startedAt: real, first: Reaction<V>, run: seq<Action>, s: State<V>)
    requires IsRun(guest, Initial(startedAt, first), run, s)
    ensures Reported(startedAt, s)
  {
    InitialInv(guest, startedAt, first);
    ReportedRun(guest, Started(startedAt, first), startedAt, Initial(startedAt, first), run, s);
  }

  // ---------------------------------------------------------------- admission

  /** An answer is admitted exactly if its time is finite, its number is positive and unused, its call
      waits, and its texts can be read; a rejection names the first of these that fails. */
  lemma {:induction false} RejectionMeaning(number: int, now: Clock, o: HostOutcome, used: bool, waiting: bool)
    ensures var r := Rejection(number, now, o, used, waiting);
            var readable := if o.ok then o.payload == "" || o.payloadIsJson else o.properties.None? || o.propertiesIsObject;
            && (r.None? <==> now.Finite? && number > 0 && !used && waiting && readable)
            && (r == Some(ClockReason) <==> now.NotFinite?)
            && (r == Some(NumberReason) <==> now.Finite? && (number <= 0 || used))
            && (r == Some(UnknownCall) <==> now.Finite? && number > 0 && !used && !waiting)
            && (r == Some(PropertiesReason) <==> now.Finite? && number > 0 && !used && waiting && !readable && !o.ok)
            && (r == Some(SerializationReason) <==> now.Finite? && number > 0 && !used && waiting && !readable && o.ok)
  {
  }
}
