/** Whole runs of a tracker: any sequence of begin, draft, prepare, replace, abort and adopt
    calls on the handles they returned. */
module TrackerRuns {
  import opened Values
  import opened Delta
  import opened Tracker

  datatype DraftCall =
    | Set(path: Path, value: Json)
    | Erase(path: Path)
    | AppendString(path: Path, text: Bytes)
    | TruncateString(path: Path, count: nat)
    | Splice(path: Path, index: nat, remove: nat, items: seq<Json>)
    | Move(path: Path, permutation: seq<nat>)

  /** A call on the tracker or on the n-th handle handed out so far. */
  datatype Command =
    | Begin
    | Draft(change: nat, call: DraftCall)
    | Prepare(change: nat)
    | AbortChange(change: nat)
    | PrepareReplace(value: Json)
    | AbortPrepared(prepared: nat)
    | Adopt(prepared: nat)

  /** Drafts are distinct and the tracker's own, and the prepared changes they made are known. */
  ghost predicate DraftsOk(t: Tracker, cs: seq<Change>, ps: seq<Prepared>)
    reads cs
  {
    && (forall i :: 0 <= i < |cs| ==> cs[i].Valid() && cs[i].owner == t.owner)
    && (forall i, j :: 0 <= i < j < |cs| ==> cs[i] != cs[j])
    && (forall i :: 0 <= i < |cs| && cs[i].prepared != null ==> cs[i].prepared in ps)
  }

  /** What holds between any two calls. `cs` and `ps` are the handles handed out. */
  ghost predicate World(t: Tracker, cs: seq<Change>, ps: seq<Prepared>)
    reads t, t.history, cs
  {
    && t.Valid()
    && DraftsOk(t, cs, ps)
    && (forall c <- t.changes :: c in cs)
    // An open draft is on the current revision.
    && (forall i :: 0 <= i < |cs| && !cs[i].settled ==> cs[i] in t.changes)
    && (forall i :: 0 <= i < |ps| ==> ps[i].Valid() && ps[i].owner == t.owner)
    && (forall p <- t.history :: p in ps)
  }

  method RunDraft(c: Change, call: DraftCall)
    requires c.Valid()
    modifies c`recorded, c`candidate, c`trail, c`structural
    ensures c.Valid()
  {
    match call {
      case Set(p, v) => var _ := c.Set(p, v);
      case Erase(p) => var _ := c.Erase(p);
      case AppendString(p, s) => var _ := c.AppendString(p, s);
      case TruncateString(p, n) => var _ := c.TruncateString(p, n);
      case Splice(p, i, r, items) => var _ := c.Splice(p, i, r, items);
      case Move(p, s) => var _ := c.Move(p, s);
    }
  }

  method StepBegin(t: Tracker, cs: seq<Change>, ghost ps: seq<Prepared>) returns (c: Change)
    requires World(t, cs, ps)
    modifies t
    ensures fresh(c) && World(t, cs + [c], ps)
    ensures t.revision == old(t.revision) && t.history == old(t.history)
  {
    c := t.BeginChange();
  }

  method StepDraft(ghost t: Tracker, cs: seq<Change>, ghost ps: seq<Prepared>, n: nat, call: DraftCall)
    requires World(t, cs, ps) && n < |cs|
    modifies cs[n]
    ensures World(t, cs, ps)
  {
    RunDraft(cs[n], call);
  }

  method StepPrepare(ghost t: Tracker, cs: seq<Change>, ps: seq<Prepared>, n: nat) returns (made: seq<Prepared>)
    requires World(t, cs, ps) && n < |cs|
    modifies cs[n]
    ensures World(t, cs, ps + made) && |made| <= 1
    ensures forall i :: 0 <= i < |made| ==> fresh(made[i])
  {
    var c := cs[n];
    ghost var prepared := c.prepared;
    var fault, p := c.Prepare();
    made := if p == null then [] else [p];
    assert DraftsOk(t, cs, ps + made) by {
      forall i | 0 <= i < |cs| && cs[i].prepared != null
        ensures cs[i].prepared in ps + made
      {
        if i != n {
          assert cs[i] != c && cs[i].prepared in ps;
        } else if p == null {
          assert cs[i].prepared == prepared;
        }
      }
    }
  }

  method StepReplace(t: Tracker, ghost cs: seq<Change>, ps: seq<Prepared>, v: Json) returns (p: Prepared)
    requires World(t, cs, ps)
    ensures fresh(p) && World(t, cs, ps + [p])
  {
    p := t.PrepareReplace(v);
  }

  method StepAbortPrepared(ghost t: Tracker, ghost cs: seq<Change>, ps: seq<Prepared>, n: nat)
    requires World(t, cs, ps) && n < |ps|
    modifies ps[n]
    ensures World(t, cs, ps)
  {
    ps[n].Abort();
  }

  method StepAbortChange(ghost t: Tracker, cs: seq<Change>, ghost ps: seq<Prepared>, n: nat)
    requires World(t, cs, ps) && n < |cs|
    modifies cs[n], ps
    ensures World(t, cs, ps)
  {
    cs[n].Abort();
  }

  method StepAdopt(t: Tracker, ghost cs: seq<Change>, ps: seq<Prepared>, n: nat) returns (adopted: bool)
    requires World(t, cs, ps) && n < |ps|
    modifies t, cs, ps[n]
    ensures World(t, cs, ps)
    ensures adopted ==> t.revision == old(t.revision) + 1 && t.history == old(t.history) + [ps[n]]
    ensures adopted ==> forall c <- cs :: c.settled
    ensures !adopted ==> t.revision == old(t.revision) && t.history == old(t.history)
  {
    assert forall i :: 0 <= i < |t.changes| ==> t.changes[i] in cs;
    assert ps[n] in ps;
    var fault := t.Adopt(ps[n]);
    adopted := fault.None?;
  }

  /** Carry out one command: what it hands out is new, and only an adoption moves the revision. */
  method Step(t: Tracker, cs: seq<Change>, ps: seq<Prepared>, command: Command)
    returns (begun: seq<Change>, made: seq<Prepared>, adopted: bool)
    requires World(t, cs, ps)
    modifies t, cs, ps
    ensures World(t, cs + begun, ps + made)
    ensures forall i :: 0 <= i < |begun| ==> fresh(begun[i])
    ensures forall i :: 0 <= i < |made| ==> fresh(made[i])
    ensures t.revision == old(t.revision) + if adopted then 1 else 0
    ensures adopted ==> command.Adopt? && command.prepared < |ps| && t.history == old(t.history) + [ps[command.prepared]]
    ensures !adopted ==> t.history == old(t.history)
  {
    begun, made, adopted := [], [], false;
    assert cs + [] == cs && ps + [] == ps;
    match command {
      case Begin =>
        var c := StepBegin(t, cs, ps);
        begun := [c];
      case Draft(n, call) =>
        if n < |cs| {
          StepDraft(t, cs, ps, n, call);
        }
      case Prepare(n) =>
        if n < |cs| {
          made := StepPrepare(t, cs, ps, n);
        }
      case AbortChange(n) =>
        if n < |cs| {
          StepAbortChange(t, cs, ps, n);
        }
      case PrepareReplace(v) =>
        var p := StepReplace(t, cs, ps, v);
        made := [p];
      case AbortPrepared(n) =>
        if n < |ps| {
          StepAbortPrepared(t, cs, ps, n);
        }
      case Adopt(n) =>
        if n < |ps| {
          adopted := StepAdopt(t, cs, ps, n);
        }
    }
  }

  /** Any script of calls: the revision counts the adoptions, the i-th adopted change was based
      on revision i, and a replica that applies the adopted batches in order agrees with the
      tracker if and only if each adopted change was prepared from a replayable draft or replaced
      the root; otherwise it stops with a refusal. */
  method Run(initial: Json, script: seq<Command>) returns (t: Tracker, adoptions: nat)
    ensures t.Valid() && t.initial == initial && t.revision == adoptions == |t.history|
    ensures ApplyBatches(initial, Batches(t.history)).Ok? <==>
            forall p <- t.history :: Replayable(p.base, p.value, p.recorded, p.structural)
    ensures ApplyBatches(initial, Batches(t.history)).Ok? ==> ApplyBatches(initial, Batches(t.history)) == Ok(t.value)
  {
    t := new Tracker(initial);
    adoptions := 0;
    var cs: seq<Change>, ps: seq<Prepared> := [], [];
    for k := 0 to |script|
      invariant fresh(t) && World(t, cs, ps)
      invariant forall i :: 0 <= i < |cs| ==> fresh(cs[i])
      invariant forall i :: 0 <= i < |ps| ==> fresh(ps[i])
      invariant t.revision == adoptions
    {
      var begun, made, adopted := Step(t, cs, ps, script[k]);
      cs, ps := cs + begun, ps + made;
      adoptions := adoptions + if adopted then 1 else 0;
    }
    Followed(t, cs, ps);
  }

  /** The replica theorem for a tracker in any world. */
  lemma {:induction false} Followed(t: Tracker, cs: seq<Change>, ps: seq<Prepared>)
    requires World(t, cs, ps)
    ensures ApplyBatches(t.initial, Batches(t.history)).Ok? <==>
            forall p <- t.history :: Replayable(p.base, p.value, p.recorded, p.structural)
    ensures ApplyBatches(t.initial, Batches(t.history)).Ok? ==> ApplyBatches(t.initial, Batches(t.history)) == Ok(t.value)
  {
    assert AllValid(t.history);
    ReplicaFollowsIff(t.initial, t.history, t.value);
    assert AllReplay(t.history) <==> forall p <- t.history :: Replayable(p.base, p.value, p.recorded, p.structural);
  }
}
