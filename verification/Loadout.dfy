/** Tool declarations carried by a transcript: replaying them, diffing them against the executable
    tools, and folding system messages into one baseline. */
module Loadout {
  import opened Values

  type Name = string

  /** How parameter schemas are serialised; `None` for one that cannot be. */
  type Canon = Json -> Option<string>

  datatype Tool = Tool(
    name: Name,
    description: string,
    parameters: Json,
    outputSchema: Option<Json>,
    sampling: Option<string>)

  datatype Section = Section(name: Name, text: Option<string>)

  datatype SystemMessage = SystemMessage(
    content: string,
    sections: seq<Section>,
    toolsAdded: seq<Tool>,
    toolsRemoved: seq<Name>,
    timestamp: int)

  datatype StopReason = Stop | Length | ToolUse | Failed | Aborted

  datatype Message =
    | System(system: SystemMessage)
    | User(text: string)
    | Assistant(text: string, calls: seq<string>, reason: StopReason)
    | ToolResult(call: string, text: string)

  datatype Changes = Changes(added: seq<Tool>, removed: seq<Name>)

  // ---------------------------------------------------------------- lists of named tools

  /** The position of the first tool with a name; the number of tools if there is none. */
  function FindTool(tools: seq<Tool>, name: Name): (i: nat)
    ensures i <= |tools| && (i < |tools| ==> tools[i].name == name)
    ensures forall j :: 0 <= j < i ==> tools[j].name != name
  {
    if tools == [] || tools[0].name == name then 0 else 1 + FindTool(tools[1..], name)
  }

  predicate HasTool(tools: seq<Tool>, name: Name) {
    FindTool(tools, name) < |tools|
  }

  predicate Keyed(tools: seq<Tool>) {
    forall i, j :: 0 <= i < j < |tools| ==> tools[i].name != tools[j].name
  }

  /** `erase_if` by name. */
  function Without(tools: seq<Tool>, name: Name): seq<Tool> {
    if tools == [] then [] else (if tools[0].name == name then [] else [tools[0]]) + Without(tools[1..], name)
  }

  function RemoveAll(tools: seq<Tool>, names: seq<Name>): seq<Tool>
    decreases |names|
  {
    if names == [] then tools else RemoveAll(Without(tools, names[0]), names[1..])
  }

  function AddTool(tools: seq<Tool>, t: Tool): seq<Tool> {
    if HasTool(tools, t.name) then tools[FindTool(tools, t.name) := t] else tools + [t]
  }

  function AddAll(tools: seq<Tool>, added: seq<Tool>): seq<Tool>
    decreases |added|
  {
    if added == [] then tools else AddAll(AddTool(tools, added[0]), added[1..])
  }

  function ApplyDelta(tools: seq<Tool>, added: seq<Tool>, removed: seq<Name>): seq<Tool> {
    AddAll(RemoveAll(tools, removed), added)
  }

  function ReplayFrom(tools: seq<Tool>, messages: seq<Message>): seq<Tool>
    decreases |messages|
  {
    if messages == [] then tools
    else
      var m := messages[0];
      ReplayFrom(if m.System? then ApplyDelta(tools, m.system.toolsAdded, m.system.toolsRemoved) else tools, messages[1..])
  }

  /** The tools a transcript declares. */
  function CurrentTools(messages: seq<Message>): seq<Tool> {
    ReplayFrom([], messages)
  }

  // ---------------------------------------------------------------- the difference of two states

  function Declaration(t: Tool): Tool {
    t.(outputSchema := None)
  }

  predicate SameParameters(c: Canon, a: Tool, b: Tool) {
    c(a.parameters).Some? && c(b.parameters).Some? && c(a.parameters) == c(b.parameters)
  }

  predicate DeclarationsEqual(c: Canon, a: Tool, b: Tool) {
    a.name == b.name && a.description == b.description && a.sampling == b.sampling && SameParameters(c, a, b)
  }

  /** The first tool of `other` with this tool's name declares the same. */
  predicate Stays(c: Canon, t: Tool, other: seq<Tool>) {
    HasTool(other, t.name) && DeclarationsEqual(c, t, other[FindTool(other, t.name)])
  }

  function Added(c: Canon, previous: seq<Tool>, current: seq<Tool>): seq<Tool> {
    if current == [] then []
    else (if Stays(c, current[0], previous) then [] else [Declaration(current[0])]) + Added(c, previous, current[1..])
  }

  function Removed(c: Canon, previous: seq<Tool>, current: seq<Tool>): seq<Name> {
    if previous == [] then []
    else (if Stays(c, previous[0], current) then [] else [previous[0].name]) + Removed(c, previous[1..], current)
  }

  function StateChanges(c: Canon, previous: seq<Tool>, current: seq<Tool>): Changes {
    Changes(Added(c, previous, current), Removed(c, previous, current))
  }

  predicate NoChanges(d: Changes) {
    d.added == [] && d.removed == []
  }

  // ---------------------------------------------------------------- declaring

  /** The position of the last system message; -1 if there is none. */
  function Anchor(pending: seq<Message>): (i: int)
    ensures -1 <= i < |pending| && (i >= 0 ==> pending[i].System?)
    ensures forall j :: i < j < |pending| ==> !pending[j].System?
  {
    if pending == [] then -1
    else if pending[|pending| - 1].System? then |pending| - 1
    else Anchor(pending[..|pending| - 1])
  }

  function Declarations(tools: seq<Tool>): (r: seq<Tool>) {
    seq(|tools|, i requires 0 <= i < |tools| => Declaration(tools[i]))
  }

  /** What is declared once the transcript and the pending messages before the anchor are replayed. */
  function DeclaredBefore(transcript: seq<Message>, pending: seq<Message>): seq<Tool> {
    ReplayFrom(CurrentTools(transcript), if Anchor(pending) >= 0 then pending[..Anchor(pending)] else pending)
  }

  /** `declare_tool_changes`. Without an anchor no pending message is a system message, so the
      place before the first other message is the front. */
  function Declare(c: Canon, transcript: seq<Message>, pending: seq<Message>, executable: seq<Tool>, now: int): seq<Message> {
    var a := Anchor(pending);
    var d := StateChanges(c, DeclaredBefore(transcript, pending), Declarations(executable));
    if a >= 0 then pending[a := System(pending[a].system.(toolsAdded := d.added, toolsRemoved := d.removed))]
    else if NoChanges(d) then pending
    else [System(SystemMessage("", [], d.added, d.removed, now))] + pending
  }

  // ---------------------------------------------------------------- replay lemmas

  lemma {:induction false} ReplayConcat(tools: seq<Tool>, a: seq<Message>, b: seq<Message>)
    ensures ReplayFrom(tools, a + b) == ReplayFrom(ReplayFrom(tools, a), b)
    decreases |a|
  {
    if a == [] {
      assert a + b == b;
    } else {
      assert (a + b)[1..] == a[1..] + b;
      var m := a[0];
      ReplayConcat(if m.System? then ApplyDelta(tools, m.system.toolsAdded, m.system.toolsRemoved) else tools, a[1..], b);
    }
  }

  lemma {:induction false} ReplayOthers(tools: seq<Tool>, messages: seq<Message>)
    requires forall i :: 0 <= i < |messages| ==> !messages[i].System?
    ensures ReplayFrom(tools, messages) == tools
    decreases |messages|
  {
    if messages != [] { ReplayOthers(tools, messages[1..]); }
  }

  lemma {:induction false} WithoutMembers(tools: seq<Tool>, name: Name)
    ensures forall t :: t in Without(tools, name) <==> t in tools && t.name != name
    ensures Keyed(tools) ==> Keyed(Without(tools, name))
  {
    if tools != [] {
      WithoutMembers(tools[1..], name);
      assert tools == [tools[0]] + tools[1..];
      if Keyed(tools) {
        assert Keyed(tools[1..]);
        var rest := Without(tools[1..], name);
        forall j | 0 <= j < |rest| ensures rest[j].name != tools[0].name {
          assert rest[j] in tools[1..];
        }
      }
    }
  }

  lemma {:induction false} RemoveAllKeyed(tools: seq<Tool>, names: seq<Name>)
    requires Keyed(tools)
    ensures Keyed(RemoveAll(tools, names))
    decreases |names|
  {
    if names != [] {
      WithoutMembers(tools, names[0]);
      RemoveAllKeyed(Without(tools, names[0]), names[1..]);
    }
  }

  lemma {:induction false} AddAllKeyed(tools: seq<Tool>, added: seq<Tool>)
    requires Keyed(tools)
    ensures Keyed(AddAll(tools, added))
    decreases |added|
  {
    if added != [] {
      assert Keyed(AddTool(tools, added[0]));
      AddAllKeyed(AddTool(tools, added[0]), added[1..]);
    }
  }

  /** Whatever a transcript says, it declares no name twice. */
  lemma {:induction false} ReplayKeyed(tools: seq<Tool>, messages: seq<Message>)
    requires Keyed(tools)
    ensures Keyed(ReplayFrom(tools, messages))
    decreases |messages|
  {
    if messages != [] {
      var m := messages[0];
      if m.System? {
        RemoveAllKeyed(tools, m.system.toolsRemoved);
        AddAllKeyed(RemoveAll(tools, m.system.toolsRemoved), m.system.toolsAdded);
        ReplayKeyed(ApplyDelta(tools, m.system.toolsAdded, m.system.toolsRemoved), messages[1..]);
      } else {
        ReplayKeyed(tools, messages[1..]);
      }
    }
  }

  // ---------------------------------------------------------------- applying a difference

  /** The tools of `previous` that `current` declares the same. */
  function Kept(c: Canon, previous: seq<Tool>, current: seq<Tool>): seq<Tool> {
    if previous == [] then []
    else (if Stays(c, previous[0], current) then [previous[0]] else []) + Kept(c, previous[1..], current)
  }

  /** The tools whose names are not listed. */
  function Unlisted(tools: seq<Tool>, names: seq<Name>): seq<Tool> {
    if tools == [] then [] else (if tools[0].name in names then [] else [tools[0]]) + Unlisted(tools[1..], names)
  }

  lemma {:induction false} UnlistedStep(tools: seq<Tool>, names: seq<Name>)
    requires names != []
    ensures Unlisted(Without(tools, names[0]), names[1..]) == Unlisted(tools, names)
  {
    if tools != [] {
      UnlistedStep(tools[1..], names);
      var rest := Without(tools[1..], names[0]);
      assert names == [names[0]] + names[1..];
      assert ([tools[0]] + rest)[1..] == rest;
      assert [] + rest == rest;
    }
  }

  lemma {:induction false} UnlistedNone(tools: seq<Tool>)
    ensures Unlisted(tools, []) == tools
  {
    if tools != [] { UnlistedNone(tools[1..]); }
  }

  lemma {:induction false} RemoveAllIsUnlisted(tools: seq<Tool>, names: seq<Name>)
    ensures RemoveAll(tools, names) == Unlisted(tools, names)
    decreases |names|
  {
    if names == [] {
      UnlistedNone(tools);
    } else {
      UnlistedStep(tools, names);
      RemoveAllIsUnlisted(Without(tools, names[0]), names[1..]);
    }
  }

  lemma {:induction false} RemovedNames(c: Canon, previous: seq<Tool>, current: seq<Tool>, t: Tool)
    requires Keyed(previous) && t in previous
    ensures t.name in Removed(c, previous, current) <==> !Stays(c, t, current)
    decreases |previous|
  {
    var rest := previous[1..];
    assert previous == [previous[0]] + rest;
    RemovedOnlyNames(c, rest, current);
    if t != previous[0] {
      RemovedNames(c, rest, current, t);
      var k :| 0 <= k < |previous| && previous[k] == t;
      assert previous[0].name != previous[k].name;
    } else {
      forall i | 0 <= i < |rest| ensures rest[i].name != t.name {
        assert rest[i] == previous[i + 1];
      }
    }
  }

  lemma {:induction false} RemovedOnlyNames(c: Canon, previous: seq<Tool>, current: seq<Tool>)
    ensures forall n :: n in Removed(c, previous, current) ==> exists i :: 0 <= i < |previous| && previous[i].name == n
  {
    if previous != [] {
      RemovedOnlyNames(c, previous[1..], current);
      forall n | n in Removed(c, previous, current) ensures exists i :: 0 <= i < |previous| && previous[i].name == n {
        if n == previous[0].name {
          assert previous[0].name == n;
        } else {
          assert n in Removed(c, previous[1..], current);
          var i :| 0 <= i < |previous[1..]| && previous[1..][i].name == n;
          assert previous[i + 1].name == n;
        }
      }
    }
  }

  lemma {:induction false} UnlistedIsKept(c: Canon, tools: seq<Tool>, current: seq<Tool>, names: seq<Name>)
    requires forall t :: t in tools ==> (t.name in names <==> !Stays(c, t, current))
    ensures Unlisted(tools, names) == Kept(c, tools, current)
  {
    if tools != [] {
      UnlistedIsKept(c, tools[1..], current, names);
    }
  }

  lemma {:induction false} KeptMembers(c: Canon, previous: seq<Tool>, current: seq<Tool>)
    ensures forall t :: t in Kept(c, previous, current) <==> t in previous && Stays(c, t, current)
  {
    if previous != [] {
      KeptMembers(c, previous[1..], current);
      assert previous == [previous[0]] + previous[1..];
    }
  }

  lemma {:induction false} AddedMembers(c: Canon, previous: seq<Tool>, current: seq<Tool>)
    ensures forall t :: t in Added(c, previous, current) <==>
              exists i :: 0 <= i < |current| && Declaration(current[i]) == t && !Stays(c, current[i], previous)
  {
    if current != [] {
      AddedMembers(c, previous, current[1..]);
      forall t ensures t in Added(c, previous, current) <==>
        exists i :: 0 <= i < |current| && Declaration(current[i]) == t && !Stays(c, current[i], previous) {
        if t in Added(c, previous, current[1..]) {
          var i :| 0 <= i < |current[1..]| && Declaration(current[1..][i]) == t && !Stays(c, current[1..][i], previous);
          assert current[i + 1] == current[1..][i];
        }
        if i :| 0 < i < |current| && Declaration(current[i]) == t && !Stays(c, current[i], previous) {
          assert current[i] == current[1..][i - 1];
        }
      }
    }
  }

  lemma {:induction false} AddedKeyed(c: Canon, previous: seq<Tool>, current: seq<Tool>)
    requires Keyed(current)
    ensures Keyed(Added(c, previous, current))
  {
    if current != [] {
      var rest := Added(c, previous, current[1..]);
      AddedKeyed(c, previous, current[1..]);
      AddedMembers(c, previous, current[1..]);
      forall j | 0 <= j < |rest| ensures rest[j].name != current[0].name {
        assert rest[j] in rest;
        var i :| 0 <= i < |current[1..]| && Declaration(current[1..][i]) == rest[j];
        assert current[i + 1].name == rest[j].name;
      }
    }
  }

  /** A tool whose name is new goes to the end. */
  lemma {:induction false} AddNew(tools: seq<Tool>, added: seq<Tool>, k: nat)
    requires k < |added| && Keyed(added)
    requires forall i, j :: 0 <= i < |tools| && 0 <= j < |added| ==> tools[i].name != added[j].name
    ensures added[..k + 1] == added[..k] + [added[k]]
    ensures AddTool(tools + added[..k], added[k]) == tools + added[..k + 1]
  {
    var sofar := tools + added[..k];
    forall i | 0 <= i < |sofar|
      ensures sofar[i].name != added[k].name
    {
      assert i >= |tools| ==> sofar[i] == added[i - |tools|];
    }
    assert !HasTool(sofar, added[k].name);
  }

  lemma {:induction false} AddAllAppends(tools: seq<Tool>, added: seq<Tool>)
    requires Keyed(added)
    requires forall i, j :: 0 <= i < |tools| && 0 <= j < |added| ==> tools[i].name != added[j].name
    ensures AddAll(tools, added) == tools + added
    decreases |added|
  {
    assert added[..0] == [];
    for k := 0 to |added|
      invariant AddAll(tools, added[..k]) == tools + added[..k]
    {
      AddAllSnoc(tools, added[..k], added[k]);
      AddNew(tools, added, k);
    }
    assert added[..|added|] == added;
  }

  lemma {:induction false} KeyedFind(tools: seq<Tool>, i: nat)
    requires Keyed(tools) && i < |tools|
    ensures FindTool(tools, tools[i].name) == i
  {
  }

  /** A name kept from before is not added again. */
  lemma {:induction false} KeptAddedApart(c: Canon, previous: seq<Tool>, current: seq<Tool>)
    requires Keyed(previous) && Keyed(current)
    ensures forall t, u :: t in Kept(c, previous, current) && u in Added(c, previous, current) ==> t.name != u.name
  {
    KeptMembers(c, previous, current);
    AddedMembers(c, previous, current);
    forall t, u | t in Kept(c, previous, current) && u in Added(c, previous, current) ensures t.name != u.name {
      var i :| 0 <= i < |current| && Declaration(current[i]) == u && !Stays(c, current[i], previous);
      var k :| 0 <= k < |previous| && previous[k] == t;
      KeyedFind(current, i);
      KeyedFind(previous, k);
    }
  }

  /** Applying the difference keeps what is declared the same, in its old order, and appends the
      rest in the new order. */
  lemma {:induction false} DifferenceApplied(c: Canon, previous: seq<Tool>, current: seq<Tool>)
    requires Keyed(previous) && Keyed(current)
    ensures ApplyDelta(previous, Added(c, previous, current), Removed(c, previous, current))
            == Kept(c, previous, current) + Added(c, previous, current)
  {
    var added, removed := Added(c, previous, current), Removed(c, previous, current);
    forall t | t in previous ensures t.name in removed <==> !Stays(c, t, current) {
      RemovedNames(c, previous, current, t);
    }
    RemoveAllIsUnlisted(previous, removed);
    UnlistedIsKept(c, previous, current, removed);
    AddedKeyed(c, previous, current);
    KeptAddedApart(c, previous, current);
    AddAllAppends(Kept(c, previous, current), added);
  }

  // ---------------------------------------------------------------- convergence

  /** A tool is declared with its name, description and sampling, and with its parameters or others that
      serialise to the same text. */
  predicate Agrees(c: Canon, declared: Tool, tool: Tool) {
    && declared.name == tool.name
    && declared.description == tool.description
    && declared.sampling == tool.sampling
    && (declared.parameters == tool.parameters || SameText(c, declared.parameters, tool.parameters))
  }

  predicate SameText(c: Canon, p: Json, q: Json) {
    c(p).Some? && c(q) == c(p)
  }

  /** Exactly the executable names are declared, once each, with agreeing declarations. */
  ghost predicate Converged(c: Canon, declared: seq<Tool>, executable: seq<Tool>) {
    && Keyed(declared)
    && (forall i :: 0 <= i < |declared| ==> HasTool(executable, declared[i].name))
    && (forall k :: 0 <= k < |executable| ==>
          HasTool(declared, executable[k].name) && Agrees(c, declared[FindTool(declared, executable[k].name)], executable[k]))
  }

  lemma {:induction false} KeptKeyed(c: Canon, previous: seq<Tool>, current: seq<Tool>)
    requires Keyed(previous)
    ensures Keyed(Kept(c, previous, current))
  {
    if previous != [] {
      var rest := Kept(c, previous[1..], current);
      KeptKeyed(c, previous[1..], current);
      KeptMembers(c, previous[1..], current);
      forall j | 0 <= j < |rest| ensures rest[j].name != previous[0].name {
        assert rest[j] in rest;
        var i :| 0 <= i < |previous[1..]| && previous[1..][i] == rest[j];
        assert previous[i + 1].name == rest[j].name;
      }
    }
  }

  lemma {:induction false} FindIn(tools: seq<Tool>, t: Tool)
    requires Keyed(tools) && t in tools
    ensures HasTool(tools, t.name) && tools[FindTool(tools, t.name)] == t
  {
    var i :| 0 <= i < |tools| && tools[i] == t;
    KeyedFind(tools, i);
  }

  lemma {:induction false} DeclarationsKeyed(tools: seq<Tool>)
    requires Keyed(tools)
    ensures Keyed(Declarations(tools))
  {
  }

  lemma {:induction false} DifferenceConverges(c: Canon, previous: seq<Tool>, executable: seq<Tool>)
    requires Keyed(previous) && Keyed(executable)
    ensures var target := Declarations(executable);
            Converged(c, Kept(c, previous, target) + Added(c, previous, target), executable)
  {
    var target := Declarations(executable);
    var kept, added := Kept(c, previous, target), Added(c, previous, target);
    var result := kept + added;
    DeclarationsKeyed(executable);
    KeptKeyed(c, previous, target);
    AddedKeyed(c, previous, target);
    KeptAddedApart(c, previous, target);
    KeptMembers(c, previous, target);
    AddedMembers(c, previous, target);
    assert Keyed(result) by {
      forall i, j | 0 <= i < j < |result| ensures result[i].name != result[j].name {
        if i < |kept| <= j {
          assert result[i] in kept && result[j] in added;
        }
      }
    }
    forall i | 0 <= i < |result| ensures HasTool(executable, result[i].name) {
      var k: nat := ResultFrom(c, previous, executable, result[i]);
      KeyedFind(executable, k);
    }
    forall k | 0 <= k < |executable|
      ensures HasTool(result, executable[k].name)
      ensures Agrees(c, result[FindTool(result, executable[k].name)], executable[k])
    {
      var t := ResultHas(c, previous, executable, k);
      FindIn(result, t);
    }
  }

  lemma {:induction false} ResultFrom(c: Canon, previous: seq<Tool>, executable: seq<Tool>, t: Tool) returns (k: nat)
    requires t in Kept(c, previous, Declarations(executable)) || t in Added(c, previous, Declarations(executable))
    ensures k < |executable| && executable[k].name == t.name
  {
    var target := Declarations(executable);
    KeptMembers(c, previous, target);
    AddedMembers(c, previous, target);
    if t in Kept(c, previous, target) {
      k := FindTool(target, t.name);
    } else {
      var i :| 0 <= i < |target| && Declaration(target[i]) == t && !Stays(c, target[i], previous);
      k := i;
    }
  }

  lemma {:induction false} ResultHas(c: Canon, previous: seq<Tool>, executable: seq<Tool>, k: nat) returns (t: Tool)
    requires Keyed(previous) && Keyed(executable) && k < |executable|
    ensures t in Kept(c, previous, Declarations(executable)) + Added(c, previous, Declarations(executable))
    ensures t.name == executable[k].name && Agrees(c, t, executable[k])
  {
    var target := Declarations(executable);
    KeptMembers(c, previous, target);
    AddedMembers(c, previous, target);
    if Stays(c, target[k], previous) {
      t := previous[FindTool(previous, target[k].name)];
      DeclarationsKeyed(executable);
      KeyedFind(target, k);
    } else {
      t := Declaration(target[k]);
    }
  }

  /** What the transcript declares after the returned messages is the difference applied. */
  lemma {:induction false} DeclareReplays(c: Canon, transcript: seq<Message>, pending: seq<Message>, executable: seq<Tool>, now: int)
    requires Keyed(executable)
    ensures var before := DeclaredBefore(transcript, pending);
            var target := Declarations(executable);
            && Keyed(before)
            && CurrentTools(transcript + Declare(c, transcript, pending, executable, now))
               == Kept(c, before, target) + Added(c, before, target)
  {
    var a := Anchor(pending);
    var before := DeclaredBefore(transcript, pending);
    var target := Declarations(executable);
    var d := StateChanges(c, before, target);
    var out := Declare(c, transcript, pending, executable, now);
    ReplayKeyed([], transcript);
    ReplayKeyed(CurrentTools(transcript), if a >= 0 then pending[..a] else pending);
    DeclarationsKeyed(executable);
    DifferenceApplied(c, before, target);
    ReplayConcat([], transcript, out);
    if a >= 0 {
      AnchorReplays(CurrentTools(transcript), pending, a, d);
    } else {
      ReplayOthers(CurrentTools(transcript), pending);
      if NoChanges(d) {
        assert ApplyDelta(before, [], []) == before;
      } else {
        assert out[1..] == pending;
        ReplayOthers(ApplyDelta(before, d.added, d.removed), pending);
      }
    }
  }

  /** Replacing the tool fields of the last system message replays as the new delta. */
  lemma {:induction false} AnchorReplays(tools: seq<Tool>, pending: seq<Message>, a: int, d: Changes)
    requires 0 <= a < |pending| && pending[a].System? && forall j :: a < j < |pending| ==> !pending[j].System?
    ensures ReplayFrom(tools, pending[a := System(pending[a].system.(toolsAdded := d.added, toolsRemoved := d.removed))])
            == ApplyDelta(ReplayFrom(tools, pending[..a]), d.added, d.removed)
  {
    var out := pending[a := System(pending[a].system.(toolsAdded := d.added, toolsRemoved := d.removed))];
    var before := ReplayFrom(tools, pending[..a]);
    assert out == pending[..a] + out[a..];
    ReplayConcat(tools, pending[..a], out[a..]);
    assert out[a..][0] == out[a];
    ReplayOthers(ApplyDelta(before, d.added, d.removed), out[a..][1..]);
  }

  /** Declaring converges: the transcript with the returned messages declares exactly the
      executable tools. */
  lemma {:induction false} DeclareConverges(c: Canon, transcript: seq<Message>, pending: seq<Message>, executable: seq<Tool>, now: int)
    requires Keyed(executable)
    ensures Converged(c, CurrentTools(transcript + Declare(c, transcript, pending, executable, now)), executable)
  {
    DeclareReplays(c, transcript, pending, executable, now);
    DifferenceConverges(c, DeclaredBefore(transcript, pending), executable);
  }

  // ---------------------------------------------------------------- nothing more to declare

  predicate Serialisable(c: Canon, tools: seq<Tool>) {
    forall i :: 0 <= i < |tools| ==> c(tools[i].parameters).Some?
  }

  lemma {:induction false} AddedNone(c: Canon, previous: seq<Tool>, current: seq<Tool>)
    ensures Added(c, previous, current) == [] <==> forall i :: 0 <= i < |current| ==> Stays(c, current[i], previous)
  {
    if current != [] {
      AddedNone(c, previous, current[1..]);
      assert current == [current[0]] + current[1..];
    }
  }

  lemma {:induction false} RemovedNone(c: Canon, previous: seq<Tool>, current: seq<Tool>)
    ensures Removed(c, previous, current) == [] <==> forall i :: 0 <= i < |previous| ==> Stays(c, previous[i], current)
  {
    if previous != [] {
      RemovedNone(c, previous[1..], current);
      assert previous == [previous[0]] + previous[1..];
    }
  }

  /** On a converged state there is nothing left to declare exactly when every executable schema
      can be serialised. */
  lemma {:induction false} SettledIff(c: Canon, declared: seq<Tool>, executable: seq<Tool>)
    requires Keyed(executable) && Converged(c, declared, executable)
    ensures NoChanges(StateChanges(c, declared, Declarations(executable))) <==> Serialisable(c, executable)
  {
    var target := Declarations(executable);
    DeclarationsKeyed(executable);
    AddedNone(c, declared, target);
    RemovedNone(c, declared, target);
    if Serialisable(c, executable) {
      forall k | 0 <= k < |target| ensures Stays(c, target[k], declared) {
        assert target[k].name == executable[k].name;
      }
      forall i | 0 <= i < |declared| ensures Stays(c, declared[i], target) {
        var k := FindTool(executable, declared[i].name);
        KeyedFind(target, k);
        KeyedFind(declared, i);
      }
    }
    if NoChanges(StateChanges(c, declared, target)) {
      forall k | 0 <= k < |executable| ensures c(executable[k].parameters).Some? {
        assert Stays(c, target[k], declared);
      }
    }
  }

  /** The same names are declared, each tool agreeing, with parameters that can be serialised. */
  ghost predicate Agreed(c: Canon, declared: seq<Tool>, executable: seq<Tool>) {
    && (forall i :: 0 <= i < |declared| ==> HasTool(executable, declared[i].name))
    && (forall k :: 0 <= k < |executable| ==>
          && HasTool(declared, executable[k].name)
          && Agrees(c, declared[FindTool(declared, executable[k].name)], executable[k])
          && SameText(c, declared[FindTool(declared, executable[k].name)].parameters, executable[k].parameters))
  }

  lemma {:induction false} FindDeclaration(executable: seq<Tool>, name: Name)
    ensures FindTool(Declarations(executable), name) == FindTool(executable, name)
  {
    var target := Declarations(executable);
    var i, j := FindTool(target, name), FindTool(executable, name);
    assert i < |target| ==> executable[i].name == name;
    assert j < |executable| ==> target[j].name == name;
  }

  lemma {:induction false} NoChangesIff(c: Canon, declared: seq<Tool>, executable: seq<Tool>)
    requires Keyed(declared) && Keyed(executable)
    ensures NoChanges(StateChanges(c, declared, Declarations(executable))) <==> Agreed(c, declared, executable)
  {
    var target := Declarations(executable);
    AddedNone(c, declared, target);
    RemovedNone(c, declared, target);
    if Agreed(c, declared, executable) {
      forall k | 0 <= k < |target| ensures Stays(c, target[k], declared) {
        assert target[k].name == executable[k].name;
      }
      forall i | 0 <= i < |declared| ensures Stays(c, declared[i], target) {
        FindDeclaration(executable, declared[i].name);
        var k := FindTool(executable, declared[i].name);
        KeyedFind(declared, i);
        assert declared[FindTool(declared, executable[k].name)] == declared[i];
      }
    }
    if NoChanges(StateChanges(c, declared, target)) {
      forall i | 0 <= i < |declared| ensures HasTool(executable, declared[i].name) {
        FindDeclaration(executable, declared[i].name);
        assert Stays(c, declared[i], target);
      }
      forall k | 0 <= k < |executable|
        ensures HasTool(declared, executable[k].name)
        ensures Agrees(c, declared[FindTool(declared, executable[k].name)], executable[k])
        ensures SameText(c, declared[FindTool(declared, executable[k].name)].parameters, executable[k].parameters)
      {
        assert Stays(c, target[k], declared);
      }
    }
  }

  /** The pending messages with no tool change on the anchor. */
  function Emptied(pending: seq<Message>): seq<Message> {
    var a := Anchor(pending);
    if a >= 0 then pending[a := System(pending[a].system.(toolsAdded := [], toolsRemoved := []))] else pending
  }

  /** For all transcripts and pending messages: nothing is declared exactly when what they declare
      agrees with the executable tools. */
  lemma {:induction false} DeclaresNothingIff(c: Canon, transcript: seq<Message>, pending: seq<Message>, executable: seq<Tool>, now: int)
    requires Keyed(executable)
    ensures Declare(c, transcript, pending, executable, now) == Emptied(pending)
            <==> Agreed(c, DeclaredBefore(transcript, pending), executable)
  {
    var a := Anchor(pending);
    var before := DeclaredBefore(transcript, pending);
    ReplayKeyed([], transcript);
    ReplayKeyed(CurrentTools(transcript), if a >= 0 then pending[..a] else pending);
    NoChangesIff(c, before, executable);
    var d := StateChanges(c, before, Declarations(executable));
    var out := Declare(c, transcript, pending, executable, now);
    if a >= 0 {
      assert out[a].system.toolsAdded == d.added && out[a].system.toolsRemoved == d.removed;
      assert Emptied(pending)[a].system.toolsAdded == [] && Emptied(pending)[a].system.toolsRemoved == [];
    } else if !NoChanges(d) {
      assert |out| == |pending| + 1;
    }
  }

  /** A second call on the extended transcript adds nothing exactly when what the transcript and its
      pending messages declare agrees with the executable tools. Unless those messages change the
      declared tools themselves, that is so exactly when every executable schema can be serialised. */
  lemma {:induction false} SecondCallAddsNothingIff(
    c: Canon, transcript: seq<Message>, pending: seq<Message>, executable: seq<Tool>, now: int, more: seq<Message>, later: int)
    requires Keyed(executable)
    ensures var extended := transcript + Declare(c, transcript, pending, executable, now);
            var second := Declare(c, extended, more, executable, later);
            && (second == Emptied(more) <==> Agreed(c, DeclaredBefore(extended, more), executable))
            && (DeclaredBefore(extended, more) == CurrentTools(extended) ==>
                  (second == Emptied(more) <==> Serialisable(c, executable)))
  {
    var extended := transcript + Declare(c, transcript, pending, executable, now);
    DeclaresNothingIff(c, extended, more, executable, later);
    DeclareConverges(c, transcript, pending, executable, now);
    ReplayKeyed([], extended);
    NoChangesIff(c, CurrentTools(extended), executable);
    SettledIff(c, CurrentTools(extended), executable);
  }

  /** With no system message pending, the second call returns its messages unchanged. */
  lemma {:induction false} PlainSecondCall(extended: seq<Message>, more: seq<Message>)
    requires forall i :: 0 <= i < |more| ==> !more[i].System?
    ensures Emptied(more) == more && DeclaredBefore(extended, more) == CurrentTools(extended)
  {
    assert Anchor(more) == -1;
    ReplayOthers(CurrentTools(extended), more);
  }

  // ---------------------------------------------------------------- one baseline message

  datatype Prompt = Prompt(content: string, sections: seq<Section>, timestamp: Option<int>)

  function FindSection(sections: seq<Section>, name: Name): (i: nat)
    ensures i <= |sections| && (i < |sections| ==> sections[i].name == name)
    ensures forall j :: 0 <= j < i ==> sections[j].name != name
  {
    if sections == [] || sections[0].name == name then 0 else 1 + FindSection(sections[1..], name)
  }

  function PatchSection(sections: seq<Section>, s: Section): seq<Section> {
    var at := FindSection(sections, s.name);
    if s.text.None? then (if at < |sections| then sections[..at] + sections[at + 1..] else sections)
    else if at < |sections| then sections[at := Section(sections[at].name, s.text)]
    else sections + [s]
  }

  function PatchSections(sections: seq<Section>, patches: seq<Section>): seq<Section>
    decreases |patches|
  {
    if patches == [] then sections else PatchSections(PatchSection(sections, patches[0]), patches[1..])
  }

  function FoldSystem(p: Prompt, m: SystemMessage): Prompt {
    Prompt(
      if m.content == "" then p.content else if p.content == "" then m.content else p.content + "\n\n" + m.content,
      PatchSections(p.sections, m.sections),
      if p.timestamp.None? then Some(m.timestamp) else p.timestamp)
  }

  function FoldPrompt(p: Prompt, messages: seq<Message>): Prompt
    decreases |messages|
  {
    if messages == [] then p
    else FoldPrompt(if messages[0].System? then FoldSystem(p, messages[0].system) else p, messages[1..])
  }

  const Blank: Prompt := Prompt("", [], None)

  /** `current_system_message`. */
  function Baseline(messages: seq<Message>): Option<SystemMessage> {
    var p := FoldPrompt(Blank, messages);
    var tools := CurrentTools(messages);
    if p.timestamp.None? && tools == [] then None
    else Some(SystemMessage(p.content, p.sections, tools, [], if p.timestamp.Some? then p.timestamp.value else 0))
  }

  /** Section names are unique and every section has text. */
  predicate Tidy(sections: seq<Section>) {
    && (forall i, j :: 0 <= i < j < |sections| ==> sections[i].name != sections[j].name)
    && (forall i :: 0 <= i < |sections| ==> sections[i].text.Some?)
  }

  lemma {:induction false} PatchesTidy(sections: seq<Section>, patches: seq<Section>)
    requires Tidy(sections)
    ensures Tidy(PatchSections(sections, patches))
    decreases |patches|
  {
    if patches != [] {
      assert Tidy(PatchSection(sections, patches[0]));
      PatchesTidy(PatchSection(sections, patches[0]), patches[1..]);
    }
  }

  lemma {:induction false} FoldTidy(p: Prompt, messages: seq<Message>)
    requires Tidy(p.sections)
    ensures Tidy(FoldPrompt(p, messages).sections)
    decreases |messages|
  {
    if messages != [] {
      if messages[0].System? {
        PatchesTidy(p.sections, messages[0].system.sections);
        FoldTidy(FoldSystem(p, messages[0].system), messages[1..]);
      } else {
        FoldTidy(p, messages[1..]);
      }
    }
  }

  lemma {:induction false} TidyPatches(done: seq<Section>, rest: seq<Section>)
    requires Tidy(done + rest)
    ensures PatchSections(done, rest) == done + rest
    decreases |rest|
  {
    if rest != [] {
      var s := rest[0];
      assert (done + rest)[|done|] == s;
      forall i | 0 <= i < |done| ensures done[i].name != s.name {
        assert (done + rest)[i] == done[i];
      }
      assert PatchSection(done, s) == done + [s];
      assert done + [s] + rest[1..] == done + rest;
      TidyPatches(done + [s], rest[1..]);
    }
  }

  lemma {:induction false} FoldConcat(p: Prompt, a: seq<Message>, b: seq<Message>)
    ensures FoldPrompt(p, a + b) == FoldPrompt(FoldPrompt(p, a), b)
    decreases |a|
  {
    if a == [] {
      assert a + b == b;
    } else {
      assert (a + b)[1..] == a[1..] + b;
      FoldConcat(if a[0].System? then FoldSystem(p, a[0].system) else p, a[1..], b);
    }
  }

  /** Without a system message nothing is declared. */
  lemma {:induction false} StampedIffSystem(p: Prompt, messages: seq<Message>)
    ensures FoldPrompt(p, messages).timestamp.None? ==>
              p.timestamp.None? && forall i :: 0 <= i < |messages| ==> !messages[i].System?
    decreases |messages|
  {
    if messages != [] {
      StampedIffSystem(if messages[0].System? then FoldSystem(p, messages[0].system) else p, messages[1..]);
      assert messages == [messages[0]] + messages[1..];
    }
  }

  /** A keyed tool list declared by one message is that list. */
  lemma {:induction false} AloneTools(m: SystemMessage)
    requires Keyed(m.toolsAdded) && m.toolsRemoved == []
    ensures CurrentTools([System(m)]) == m.toolsAdded
  {
    AddAllAppends([], m.toolsAdded);
    assert [] + m.toolsAdded == m.toolsAdded;
    assert ApplyDelta([], m.toolsAdded, m.toolsRemoved) == m.toolsAdded;
    assert [System(m)][1..] == [];
    assert ReplayFrom(m.toolsAdded, []) == m.toolsAdded;
  }

  lemma {:induction false} AlonePrompt(m: SystemMessage)
    requires Tidy(m.sections)
    ensures FoldPrompt(Blank, [System(m)]) == Prompt(m.content, m.sections, Some(m.timestamp))
  {
    assert [] + m.sections == m.sections;
    TidyPatches([], m.sections);
    assert [System(m)][1..] == [];
  }

  /** A transcript has a baseline exactly when it holds a system message. */
  lemma {:induction false} BaselineIff(messages: seq<Message>)
    ensures Baseline(messages).Some? <==> exists i :: 0 <= i < |messages| && messages[i].System?
    ensures Baseline(messages).Some? ==> FoldPrompt(Blank, messages).timestamp.Some?
  {
    StampedIffSystem(Blank, messages);
    if forall i :: 0 <= i < |messages| ==> !messages[i].System? {
      ReplayOthers([], messages);
      FoldOthers(Blank, messages);
    }
  }

  /** The baseline alone declares the same tools and folds to the same prompt. */
  lemma {:induction false} BaselineState(messages: seq<Message>)
    requires Baseline(messages).Some?
    ensures var alone := [System(Baseline(messages).value)];
            CurrentTools(alone) == CurrentTools(messages) && FoldPrompt(Blank, alone) == FoldPrompt(Blank, messages)
  {
    BaselineIff(messages);
    ReplayKeyed([], messages);
    FoldTidy(Blank, messages);
    AloneTools(Baseline(messages).value);
    AlonePrompt(Baseline(messages).value);
  }

  lemma {:induction false} FoldOthers(p: Prompt, messages: seq<Message>)
    requires forall i :: 0 <= i < |messages| ==> !messages[i].System?
    ensures FoldPrompt(p, messages) == p
    decreases |messages|
  {
    if messages != [] { FoldOthers(p, messages[1..]); }
  }

  /** The baseline can stand for the messages it was made from, whatever follows. With nothing
      following, the baseline of a baseline is itself. */
  lemma {:induction false} BaselineReplaces(messages: seq<Message>, rest: seq<Message>)
    requires Baseline(messages).Some?
    ensures var alone := [System(Baseline(messages).value)];
            && Baseline(alone) == Baseline(messages)
            && CurrentTools(alone + rest) == CurrentTools(messages + rest)
            && Baseline(alone + rest) == Baseline(messages + rest)
  {
    var alone := [System(Baseline(messages).value)];
    BaselineState(messages);
    ReplayConcat([], alone, rest);
    ReplayConcat([], messages, rest);
    FoldConcat(Blank, alone, rest);
    FoldConcat(Blank, messages, rest);
  }

  // ---------------------------------------------------------------- the loops

  lemma {:induction false} RemoveAllSnoc(tools: seq<Tool>, names: seq<Name>, n: Name)
    ensures RemoveAll(tools, names + [n]) == Without(RemoveAll(tools, names), n)
    decreases |names|
  {
    if names != [] {
      assert (names + [n])[1..] == names[1..] + [n];
      RemoveAllSnoc(Without(tools, names[0]), names[1..], n);
    }
  }

  lemma {:induction false} AddAllSnoc(tools: seq<Tool>, added: seq<Tool>, t: Tool)
    ensures AddAll(tools, added + [t]) == AddTool(AddAll(tools, added), t)
    decreases |added|
  {
    if added != [] {
      assert (added + [t])[1..] == added[1..] + [t];
      AddAllSnoc(AddTool(tools, added[0]), added[1..], t);
    }
  }

  /** `apply_tool_delta`. */
  method ApplyToolDelta(tools: seq<Tool>, m: SystemMessage) returns (out: seq<Tool>)
    ensures out == ApplyDelta(tools, m.toolsAdded, m.toolsRemoved)
  {
    out := tools;
    for i := 0 to |m.toolsRemoved|
      invariant out == RemoveAll(tools, m.toolsRemoved[..i])
    {
      RemoveAllSnoc(tools, m.toolsRemoved[..i], m.toolsRemoved[i]);
      assert m.toolsRemoved[..i + 1] == m.toolsRemoved[..i] + [m.toolsRemoved[i]];
      out := Without(out, m.toolsRemoved[i]);
    }
    assert m.toolsRemoved[..|m.toolsRemoved|] == m.toolsRemoved;
    ghost var remaining := out;
    for i := 0 to |m.toolsAdded|
      invariant out == AddAll(remaining, m.toolsAdded[..i])
    {
      AddAllSnoc(remaining, m.toolsAdded[..i], m.toolsAdded[i]);
      assert m.toolsAdded[..i + 1] == m.toolsAdded[..i] + [m.toolsAdded[i]];
      var at := FindTool(out, m.toolsAdded[i].name);
      if at == |out| {
        out := out + [m.toolsAdded[i]];
      } else {
        out := out[at := m.toolsAdded[i]];
      }
    }
    assert m.toolsAdded[..|m.toolsAdded|] == m.toolsAdded;
  }

  /** `current_tools`, continued from a declared state. */
  method Replay(tools: seq<Tool>, messages: seq<Message>) returns (out: seq<Tool>)
    ensures out == ReplayFrom(tools, messages)
  {
    out := tools;
    for i := 0 to |messages|
      invariant out == ReplayFrom(tools, messages[..i])
    {
      assert messages[..i + 1] == messages[..i] + [messages[i]];
      ReplayConcat(tools, messages[..i], [messages[i]]);
      assert [messages[i]][1..] == [];
      if messages[i].System? {
        out := ApplyToolDelta(out, messages[i].system);
      }
    }
    assert messages[..|messages|] == messages;
  }

  lemma {:induction false} AddedConcat(c: Canon, previous: seq<Tool>, a: seq<Tool>, b: seq<Tool>)
    ensures Added(c, previous, a + b) == Added(c, previous, a) + Added(c, previous, b)
  {
    if a == [] {
      assert a + b == b;
    } else {
      assert (a + b)[1..] == a[1..] + b;
      AddedConcat(c, previous, a[1..], b);
    }
  }

  lemma {:induction false} RemovedConcat(c: Canon, a: seq<Tool>, b: seq<Tool>, current: seq<Tool>)
    ensures Removed(c, a + b, current) == Removed(c, a, current) + Removed(c, b, current)
  {
    if a == [] {
      assert a + b == b;
    } else {
      assert (a + b)[1..] == a[1..] + b;
      RemovedConcat(c, a[1..], b, current);
    }
  }

  /** `tool_state_changes`. */
  method ToolStateChanges(c: Canon, previous: seq<Tool>, current: seq<Tool>) returns (d: Changes)
    ensures d == StateChanges(c, previous, current)
  {
    var added: seq<Tool> := [];
    for i := 0 to |current|
      invariant added == Added(c, previous, current[..i])
    {
      assert current[..i + 1] == current[..i] + [current[i]];
      AddedConcat(c, previous, current[..i], [current[i]]);
      assert [current[i]][1..] == [];
      var at := FindTool(previous, current[i].name);
      if at == |previous| || !DeclarationsEqual(c, previous[at], current[i]) {
        added := added + [Declaration(current[i])];
      }
    }
    assert current[..|current|] == current;
    var removed: seq<Name> := [];
    for i := 0 to |previous|
      invariant removed == Removed(c, previous[..i], current)
    {
      assert previous[..i + 1] == previous[..i] + [previous[i]];
      RemovedConcat(c, previous[..i], [previous[i]], current);
      assert [previous[i]][1..] == [];
      var at := FindTool(current, previous[i].name);
      if at == |current| || !DeclarationsEqual(c, previous[i], current[at]) {
        removed := removed + [previous[i].name];
      }
    }
    assert previous[..|previous|] == previous;
    return Changes(added, removed);
  }

  /** The last system message, searched from the back. */
  method FindAnchor(pending: seq<Message>) returns (a: int)
    ensures a == Anchor(pending)
  {
    a := |pending| - 1;
    while a >= 0 && !pending[a].System?
      invariant -1 <= a < |pending|
      invariant forall j :: a < j < |pending| ==> !pending[j].System?
    {
      a := a - 1;
    }
  }

  /** The first message that is not a system message. */
  method FindNonSystem(pending: seq<Message>) returns (i: nat)
    ensures i <= |pending| && (i < |pending| ==> !pending[i].System?)
    ensures forall j :: 0 <= j < i ==> pending[j].System?
  {
    i := 0;
    while i < |pending| && pending[i].System?
      invariant i <= |pending|
      invariant forall j :: 0 <= j < i ==> pending[j].System?
    {
      i := i + 1;
    }
  }

  lemma {:induction false} AnchorSkipped(tools: seq<Tool>, pending: seq<Message>, a: int)
    requires 0 <= a < |pending| && forall j :: a < j < |pending| ==> !pending[j].System?
    ensures ReplayFrom(tools, pending[..a] + pending[a + 1..]) == ReplayFrom(tools, pending[..a])
  {
    ReplayConcat(tools, pending[..a], pending[a + 1..]);
    ReplayOthers(ReplayFrom(tools, pending[..a]), pending[a + 1..]);
  }

  /** `declare_tool_changes`: every pending system message but the anchor is replayed, and the
      anchor, or a new message before the first that is not a system message, carries the delta. */
  method DeclareToolChanges(c: Canon, transcript: seq<Message>, pending: seq<Message>, executable: seq<Tool>, now: int)
    returns (out: seq<Message>)
    ensures out == Declare(c, transcript, pending, executable, now)
  {
    var a := FindAnchor(pending);
    var declared := Replay([], transcript);
    if a >= 0 {
      AnchorSkipped(declared, pending, a);
      declared := Replay(declared, pending[..a] + pending[a + 1..]);
    } else {
      declared := Replay(declared, pending);
    }
    var target: seq<Tool> := [];
    for i := 0 to |executable|
      invariant |target| == i && forall k :: 0 <= k < i ==> target[k] == Declaration(executable[k])
    {
      target := target + [Declaration(executable[i])];
    }
    assert target == Declarations(executable);
    var d := ToolStateChanges(c, declared, target);
    if a >= 0 {
      var m := pending[a].system;
      if NoChanges(d) && m.toolsAdded == [] && m.toolsRemoved == [] {
        assert m.(toolsAdded := d.added, toolsRemoved := d.removed) == m;
        return pending;
      }
      return pending[a := System(m.(toolsAdded := d.added, toolsRemoved := d.removed))];
    }
    if NoChanges(d) {
      return pending;
    }
    var at := FindNonSystem(pending);
    assert at == 0;
    return pending[..at] + [System(SystemMessage("", [], d.added, d.removed, now))] + pending[at..];
  }

  lemma {:induction false} PatchesConcat(sections: seq<Section>, a: seq<Section>, b: seq<Section>)
    ensures PatchSections(sections, a + b) == PatchSections(PatchSections(sections, a), b)
    decreases |a|
  {
    if a == [] {
      assert a + b == b;
    } else {
      assert (a + b)[1..] == a[1..] + b;
      PatchesConcat(PatchSection(sections, a[0]), a[1..], b);
    }
  }

  method PatchAll(sections: seq<Section>, patches: seq<Section>) returns (out: seq<Section>)
    ensures out == PatchSections(sections, patches)
  {
    out := sections;
    for i := 0 to |patches|
      invariant out == PatchSections(sections, patches[..i])
    {
      var s := patches[i];
      assert patches[..i + 1] == patches[..i] + [s];
      PatchesConcat(sections, patches[..i], [s]);
      assert [s][1..] == [];
      assert PatchSections(out, [s]) == PatchSection(out, s);
      var at := FindSection(out, s.name);
      if s.text.None? {
        if at < |out| {
          out := out[..at] + out[at + 1..];
        }
      } else if at < |out| {
        out := out[at := Section(out[at].name, s.text)];
      } else {
        out := out + [s];
      }
    }
    assert patches[..|patches|] == patches;
  }

  method FoldOne(p: Prompt, m: SystemMessage) returns (out: Prompt)
    ensures out == FoldSystem(p, m)
  {
    var content, timestamp := p.content, p.timestamp;
    if timestamp.None? {
      timestamp := Some(m.timestamp);
    }
    if m.content != "" {
      if content != "" {
        content := content + "\n\n";
      }
      content := content + m.content;
    }
    var sections := PatchAll(p.sections, m.sections);
    return Prompt(content, sections, timestamp);
  }

  /** `current_system_message`. */
  method CurrentSystemMessage(messages: seq<Message>) returns (b: Option<SystemMessage>)
    ensures b == Baseline(messages)
  {
    var p := Blank;
    for i := 0 to |messages|
      invariant p == FoldPrompt(Blank, messages[..i])
    {
      assert messages[..i + 1] == messages[..i] + [messages[i]];
      FoldConcat(Blank, messages[..i], [messages[i]]);
      assert [messages[i]][1..] == [];
      if messages[i].System? {
        p := FoldOne(p, messages[i].system);
      }
    }
    assert messages[..|messages|] == messages;
    var tools := Replay([], messages);
    if p.timestamp.None? && tools == [] {
      return None;
    }
    return Some(SystemMessage(p.content, p.sections, tools, [], if p.timestamp.Some? then p.timestamp.value else 0));
  }
}
