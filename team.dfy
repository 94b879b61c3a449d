/** The agent team of src/fastapi_autogen_team/autogen_workflow_team.py: four
    agents handing over in a fixed cycle, and the termination predicates that
    end the chat. */
module Team {
  import opened Strings
  import opened Render
  import opened Agents

  const UserProxy := "UserProxy"
  const Planner := "Planner"
  const RagAssurance := "rag_assurance"
  const QualityAssurance := "Quality_assurance"
  const TerminateWord := "TERMINATE"

  /** The manager's group chat: members in declaration order, one successor each. */
  const Config := GroupChatConfig(
    [UserProxy, Planner, QualityAssurance, RagAssurance],
    map[UserProxy := [Planner], Planner := [RagAssurance],
        RagAssurance := [QualityAssurance], QualityAssurance := [UserProxy]],
    "allowed", 20, true)

  /** The `is_termination_msg` of each agent: UserProxy and Quality_assurance stop
      on a message whose content is present, not None and mentions TERMINATE;
      Planner and rag_assurance never stop. */
  predicate IsTerminationMsg(agent: string, m: Message) {
    if agent == UserProxy || agent == QualityAssurance then
      m.content.TextContent? && Contains(m.content.text, TerminateWord)
    else false
  }

  lemma ConfigWellFormed()
    ensures WellFormed(Config)
    ensures Config.transitions.Keys == {UserProxy, Planner, RagAssurance, QualityAssurance}
  {
    assert Config.transitions.Keys == {UserProxy, Planner, RagAssurance, QualityAssurance};
    assert (set a | a in Config.agents) == {UserProxy, Planner, RagAssurance, QualityAssurance};
  }

  /** The four walks of four hand-overs, one from each agent. */
  lemma CycleWalks()
    ensures Walk(Config.transitions, UserProxy, 4) == [Planner, RagAssurance, QualityAssurance, UserProxy]
    ensures Walk(Config.transitions, Planner, 4) == [RagAssurance, QualityAssurance, UserProxy, Planner]
    ensures Walk(Config.transitions, RagAssurance, 4) == [QualityAssurance, UserProxy, Planner, RagAssurance]
    ensures Walk(Config.transitions, QualityAssurance, 4) == [UserProxy, Planner, RagAssurance, QualityAssurance]
  {
    var t := Config.transitions;
    assert Walk(t, UserProxy, 1) == [Planner];
    assert Walk(t, Planner, 1) == [RagAssurance];
    assert Walk(t, RagAssurance, 1) == [QualityAssurance];
    assert Walk(t, QualityAssurance, 1) == [UserProxy];
    assert Walk(t, UserProxy, 2) == [Planner, RagAssurance];
    assert Walk(t, Planner, 2) == [RagAssurance, QualityAssurance];
    assert Walk(t, RagAssurance, 2) == [QualityAssurance, UserProxy];
    assert Walk(t, QualityAssurance, 2) == [UserProxy, Planner];
    assert Walk(t, UserProxy, 3) == [Planner, RagAssurance, QualityAssurance];
    assert Walk(t, Planner, 3) == [RagAssurance, QualityAssurance, UserProxy];
    assert Walk(t, RagAssurance, 3) == [QualityAssurance, UserProxy, Planner];
    assert Walk(t, QualityAssurance, 3) == [UserProxy, Planner, RagAssurance];
  }

  /** Each agent has exactly one successor, and following it from any agent
      visits the other three and comes back after four hand-overs. */
  lemma HandOverCycle()
    ensures WellFormed(Config) && Config.maxRound == 20
    ensures forall a :: a in Config.transitions ==> |Config.transitions[a]| == 1
    ensures forall a :: a in Config.transitions ==>
      var w := Walk(Config.transitions, a, 4);
      |w| == 4 && w[3] == a && (forall b :: b in Config.agents ==> b in w)
    ensures Walk(Config.transitions, UserProxy, 4) == [Planner, RagAssurance, QualityAssurance, UserProxy]
  {
    ConfigWellFormed();
    CycleWalks();
  }

  /** The word w occurs in s at position i. */
  predicate OccursAt(s: string, w: string, i: int) {
    0 <= i <= |s| - |w| && s[i..i + |w|] == w
  }

  /** The termination test, spelled out: the word occurs at some position of the text. */
  lemma TerminationIff(agent: string, m: Message)
    ensures IsTerminationMsg(agent, m) <==>
      (agent == UserProxy || agent == QualityAssurance) && m.content.TextContent?
      && exists i :: OccursAt(m.content.text, TerminateWord, i)
  {
    if m.content.TextContent? {
      var s := m.content.text;
      ContainsIff(s, TerminateWord);
      if Contains(s, TerminateWord) {
        var i :| 0 <= i <= |s| && IsPrefix(TerminateWord, s[i..]);
        assert s[i..i + |TerminateWord|] == s[i..][..|TerminateWord|];
        assert OccursAt(s, TerminateWord, i);
      }
      if exists i :: OccursAt(s, TerminateWord, i) {
        var i :| OccursAt(s, TerminateWord, i);
        assert s[i..][..|TerminateWord|] == s[i..i + |TerminateWord|];
        assert IsPrefix(TerminateWord, s[i..]);
      }
    }
  }

  /** A reply that ends with TERMINATE, as Quality_assurance is instructed to
      write, stops the two terminating agents; no content never stops anyone. */
  lemma EndingWithTerminateStops(agent: string, m: Message, body: string)
    requires agent == UserProxy || agent == QualityAssurance
    requires m.content == TextContent(body + TerminateWord)
    ensures IsTerminationMsg(agent, m)
    ensures !IsTerminationMsg(agent, m.(content := NoContent)) && !IsTerminationMsg(agent, m.(content := NullContent))
  {
    ContainsPiece(body, TerminateWord, "");
    assert body + TerminateWord + "" == body + TerminateWord;
  }
}
