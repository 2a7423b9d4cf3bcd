/** What a transcript declares, name by name, and what its system messages amount to, told without
    replaying them. */
module LoadoutMeaning {
  import opened Values
  import opened Loadout

  // ---------------------------------------------------------------- declared tools

  function Declared(tools: seq<Tool>, name: Name): Option<Tool> {
    if HasTool(tools, name) then Some(tools[FindTool(tools, name)]) else None
  }

  /** The last tool of the list with the name. */
  function LastAdded(added: seq<Tool>, name: Name): Option<Tool> {
    if added == [] then None
    else if added[|added| - 1].name == name then Some(added[|added| - 1])
    else LastAdded(added[..|added| - 1], name)
  }

  lemma {:induction false} DeclaredIs(tools: seq<Tool>, t: Tool)
    requires Keyed(tools) && t in tools
    ensures Declared(tools, t.name) == Some(t)
  {
    FindIn(tools, t);
  }

  lemma {:induction false} RemovedLookup(tools: seq<Tool>, names: seq<Name>, name: Name)
    requires Keyed(tools)
    ensures Declared(RemoveAll(tools, names), name) == if name in names then None else Declared(tools, name)
    decreases |names|
  {
    if names != [] {
      WithoutMembers(tools, names[0]);
      var rest := Without(tools, names[0]);
      RemovedLookup(rest, names[1..], name);
      assert names == [names[0]] + names[1..];
      if HasTool(tools, name) && name != names[0] {
        DeclaredIs(rest, tools[FindTool(tools, name)]);
      } else {
        assert forall i :: 0 <= i < |rest| ==> rest[i] in tools && rest[i].name != names[0];
      }
    }
  }

  lemma {:induction false} AddedLookup(tools: seq<Tool>, added: seq<Tool>, name: Name)
    requires Keyed(tools)
    ensures Declared(AddAll(tools, added), name) ==
            if LastAdded(added, name).Some? then LastAdded(added, name) else Declared(tools, name)
    decreases |added|
  {
    if added != [] {
      var front, t := added[..|added| - 1], added[|added| - 1];
      assert added == front + [t];
      AddedLookup(tools, front, name);
      AddAllSnoc(tools, front, t);
      AddAllKeyed(tools, front);
      AddOne(AddAll(tools, front), t, name);
    }
  }

  lemma {:induction false} AddOne(tools: seq<Tool>, t: Tool, name: Name)
    requires Keyed(tools)
    ensures Declared(AddTool(tools, t), name) == if t.name == name then Some(t) else Declared(tools, name)
    ensures forall i :: 0 <= i < |tools| ==> i < |AddTool(tools, t)| && AddTool(tools, t)[i].name == tools[i].name
  {
    var longer := AddTool(tools, t);
    assert Keyed(longer);
    if t.name == name {
      assert longer[FindTool(tools, t.name)] == t;
      DeclaredIs(longer, t);
    } else if HasTool(tools, name) {
      assert longer[FindTool(tools, name)] == tools[FindTool(tools, name)];
      DeclaredIs(longer, tools[FindTool(tools, name)]);
    } else {
      assert forall i :: 0 <= i < |longer| ==> longer[i] == t || longer[i] in tools;
    }
  }

  /** Additions win over removals of the same message, and the last addition of a name wins. */
  lemma {:induction false} DeltaMeaning(tools: seq<Tool>, m: SystemMessage, name: Name)
    requires Keyed(tools)
    ensures Declared(ApplyDelta(tools, m.toolsAdded, m.toolsRemoved), name) ==
            if LastAdded(m.toolsAdded, name).Some? then LastAdded(m.toolsAdded, name)
            else if name in m.toolsRemoved then None
            else Declared(tools, name)
  {
    RemoveAllKeyed(tools, m.toolsRemoved);
    RemovedLookup(tools, m.toolsRemoved, name);
    AddedLookup(RemoveAll(tools, m.toolsRemoved), m.toolsAdded, name);
  }

  /** The message adds or removes the name. */
  predicate Mentions(m: Message, name: Name) {
    m.System? && (LastAdded(m.system.toolsAdded, name).Some? || name in m.system.toolsRemoved)
  }

  lemma {:induction false} OneMore(front: seq<Message>, m: Message, name: Name)
    ensures Declared(CurrentTools(front + [m]), name) ==
            if Mentions(m, name) then LastAdded(m.system.toolsAdded, name) else Declared(CurrentTools(front), name)
  {
    ReplayConcat([], front, [m]);
    assert [m][1..] == [];
    ReplayKeyed([], front);
    if m.System? {
      DeltaMeaning(CurrentTools(front), m.system, name);
    }
  }

  /** The message is the last one that mentions the name. */
  predicate LastMention(messages: seq<Message>, name: Name, i: nat) {
    i < |messages| && Mentions(messages[i], name) && forall j :: i < j < |messages| ==> !Mentions(messages[j], name)
  }

  /** What a transcript says of a name is what the last message that mentions it says. */
  lemma {:induction false} LastMentionDecides(messages: seq<Message>, name: Name)
    ensures forall i: nat :: LastMention(messages, name, i) ==>
              Declared(CurrentTools(messages), name) == LastAdded(messages[i].system.toolsAdded, name)
    ensures (forall j :: 0 <= j < |messages| ==> !Mentions(messages[j], name)) ==> Declared(CurrentTools(messages), name) == None
    decreases |messages|
  {
    if messages != [] {
      var n := |messages| - 1;
      var front, m := messages[..n], messages[n];
      LastMentionDecides(front, name);
      assert messages == front + [m];
      OneMore(front, m, name);
      if !Mentions(m, name) {
        forall i: nat | LastMention(messages, name, i)
          ensures Declared(CurrentTools(messages), name) == LastAdded(messages[i].system.toolsAdded, name)
        {
          assert i < n && front[i] == messages[i];
          assert forall j :: i < j < |front| ==> front[j] == messages[j];
          assert LastMention(front, name, i);
        }
        assert forall j :: 0 <= j < |front| ==> front[j] == messages[j];
      } else {
        assert messages[n] == m;
      }
    }
  }

  // ---------------------------------------------------------------- what declaring leaves alone

  /** Nothing but the tool fields of two messages differs. */
  predicate SameButTools(a: Message, b: Message) {
    a.System? && b.System? && a.system.content == b.system.content && a.system.sections == b.system.sections
    && a.system.timestamp == b.system.timestamp
  }

  /** Declaring changes only the tool fields of the last pending system message; without one it puts an
      otherwise empty message of the given time in front, and that only if something changed. */
  lemma {:induction false} DeclareLeaves(c: Canon, transcript: seq<Message>, pending: seq<Message>, executable: seq<Tool>, now: int)
    ensures var out := Declare(c, transcript, pending, executable, now);
            if exists i :: 0 <= i < |pending| && pending[i].System? then
              |out| == |pending| && forall i :: 0 <= i < |pending| ==>
                out[i] == pending[i] || (SameButTools(out[i], pending[i]) && forall j :: i < j < |pending| ==> !pending[j].System?)
            else
              || out == pending
              || (|out| > 0 && out[1..] == pending && out[0].System? && out[0].system.timestamp == now
                  && out[0].system.content == "" && out[0].system.sections == []
                  && (out[0].system.toolsAdded != [] || out[0].system.toolsRemoved != []))
  {
  }

  // ---------------------------------------------------------------- the prompt

  /** The contents of the system messages that have one, in order. */
  function Contents(messages: seq<Message>): seq<string> {
    if messages == [] then []
    else
      var m := messages[|messages| - 1];
      Contents(messages[..|messages| - 1]) + if m.System? && m.system.content != "" then [m.system.content] else []
  }

  /** Texts with an empty line between each two. */
  function Paragraphs(texts: seq<string>): string {
    if texts == [] then ""
    else if |texts| == 1 then texts[0]
    else Paragraphs(texts[..|texts| - 1]) + "\n\n" + texts[|texts| - 1]
  }

  /** All section patches of the system messages, in order. */
  function Patches(messages: seq<Message>): seq<Section> {
    if messages == [] then []
    else
      var m := messages[|messages| - 1];
      Patches(messages[..|messages| - 1]) + if m.System? then m.system.sections else []
  }

  function FirstStamp(messages: seq<Message>): Option<int> {
    if messages == [] then None
    else if messages[0].System? then Some(messages[0].system.timestamp)
    else FirstStamp(messages[1..])
  }

  lemma {:induction false} ContentsNonEmpty(messages: seq<Message>)
    ensures forall i :: 0 <= i < |Contents(messages)| ==> Contents(messages)[i] != ""
  {
    if messages != [] {
      ContentsNonEmpty(messages[..|messages| - 1]);
    }
  }

  lemma {:induction false} ParagraphsSnoc(texts: seq<string>, text: string)
    requires forall i :: 0 <= i < |texts| ==> texts[i] != ""
    ensures Paragraphs(texts) == "" <==> texts == []
    ensures Paragraphs(texts + [text]) == if texts == [] then text else Paragraphs(texts) + "\n\n" + text
  {
    if texts != [] {
      assert (texts + [text])[..|texts|] == texts;
    }
  }

  lemma {:induction false} StampSnoc(messages: seq<Message>, m: Message)
    ensures FirstStamp(messages + [m]) ==
            if FirstStamp(messages).Some? then FirstStamp(messages) else if m.System? then Some(m.system.timestamp) else None
    decreases |messages|
  {
    if messages == [] {
      assert (messages + [m])[1..] == [];
    } else {
      assert (messages + [m])[1..] == messages[1..] + [m];
      StampSnoc(messages[1..], m);
    }
  }

  lemma {:induction false} FoldLast(messages: seq<Message>, m: Message)
    ensures FoldPrompt(Blank, messages + [m]) ==
            if m.System? then FoldSystem(FoldPrompt(Blank, messages), m.system) else FoldPrompt(Blank, messages)
  {
    FoldConcat(Blank, messages, [m]);
    assert [m][1..] == [];
  }

  /** The system messages amount to their contents as paragraphs, all their section patches, and the time of
      the first. */
  lemma {:induction false} PromptMeaning(messages: seq<Message>)
    ensures var p := FoldPrompt(Blank, messages);
            && p.content == Paragraphs(Contents(messages))
            && p.sections == PatchSections([], Patches(messages))
            && p.timestamp == FirstStamp(messages)
    decreases |messages|
  {
    if messages != [] {
      var front, m := messages[..|messages| - 1], messages[|messages| - 1];
      assert messages == front + [m];
      PromptMeaning(front);
      FoldLast(front, m);
      StampSnoc(front, m);
      ContentsNonEmpty(front);
      if m.System? {
        ParagraphsSnoc(Contents(front), m.system.content);
        PatchesConcat([], Patches(front), m.system.sections);
      } else {
        assert Patches(front) + [] == Patches(front);
      }
      if !m.System? || m.system.content == "" {
        assert Contents(front) + [] == Contents(front);
      }
    }
  }

  /** The text of the last patch with the name; `None` also if that patch removes the section. */
  function LastPatch(patches: seq<Section>, name: Name): Option<string> {
    if patches == [] then None
    else if patches[|patches| - 1].name == name then patches[|patches| - 1].text
    else LastPatch(patches[..|patches| - 1], name)
  }

  function SectionText(sections: seq<Section>, name: Name): Option<string> {
    if FindSection(sections, name) < |sections| then sections[FindSection(sections, name)].text else None
  }

  lemma {:induction false} PatchMeaning(sections: seq<Section>, s: Section, name: Name)
    requires Tidy(sections)
    ensures SectionText(PatchSection(sections, s), name) == if s.name == name then s.text else SectionText(sections, name)
  {
    var out := PatchSection(sections, s);
    var at, to, from := FindSection(sections, s.name), FindSection(out, name), FindSection(sections, name);
    if s.text.None? && at < |sections| {
      assert forall i :: 0 <= i < at ==> out[i] == sections[i];
      assert forall i :: at <= i < |out| ==> out[i] == sections[i + 1];
      if s.name != name && from < |sections| {
        var now := if from < at then from else from - 1;
        assert out[now] == sections[from];
      }
    } else if s.text.Some? {
      assert forall i :: 0 <= i < |sections| && i != at ==> out[i] == sections[i];
      assert out[at].name == s.name && out[at].text == s.text;
    }
  }

  /** A section has the text of the last patch for it. */
  lemma {:induction false} LastPatchDecides(patches: seq<Section>, name: Name)
    ensures Tidy(PatchSections([], patches))
    ensures SectionText(PatchSections([], patches), name) == LastPatch(patches, name)
  {
    PatchesTidy([], patches);
    if patches != [] {
      var front, s := patches[..|patches| - 1], patches[|patches| - 1];
      LastPatchDecides(front, name);
      assert patches == front + [s];
      PatchesConcat([], front, [s]);
      assert [s][1..] == [];
      assert PatchSections(PatchSections([], front), [s]) == PatchSection(PatchSections([], front), s);
      PatchMeaning(PatchSections([], front), s, name);
    }
  }
}
