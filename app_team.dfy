/** The agent team of app/autogen_workflow_team.py: five agents, several
    allowed successors each, and at most ten rounds. */
module AppTeam {
  import opened Agents

  const UserProxy := "UserProxy"
  const Developer := "Developer"
  const Planner := "Planner"
  const Executor := "Executor"
  const QualityAssurance := "Quality_assurance"

  const Config := GroupChatConfig(
    [UserProxy, Developer, Planner, Executor, QualityAssurance],
    map[UserProxy := [Planner, QualityAssurance],
        Planner := [UserProxy, Developer, QualityAssurance],
        Developer := [Executor, QualityAssurance, UserProxy],
        Executor := [Developer],
        QualityAssurance := [Planner, Developer, Executor, UserProxy]],
    "allowed", 10, true)

  /** Every agent may hand over, only to other members, and the round limit is ten. */
  lemma GraphWellFormed()
    ensures WellFormed(Config) && |Config.agents| == 5 && Config.maxRound == 10
  {
    var t := Config.transitions;
    ConfigKeys();
    assert (set a | a in Config.agents) == {UserProxy, Developer, Planner, Executor, QualityAssurance};
    forall a | a in t
      ensures t[a] != [] && forall b :: b in t[a] ==> b in Config.agents && b != a
    {
      if a == UserProxy {
        assert t[a] == [Planner, QualityAssurance];
      } else if a == Planner {
        assert t[a] == [UserProxy, Developer, QualityAssurance];
      } else if a == Developer {
        assert t[a] == [Executor, QualityAssurance, UserProxy];
      } else if a == Executor {
        assert t[a] == [Developer];
      } else {
        assert t[a] == [Planner, Developer, Executor, UserProxy];
      }
    }
  }

  lemma ConfigKeys()
    ensures Config.transitions.Keys == {UserProxy, Developer, Planner, Executor, QualityAssurance}
  {
  }

  /** Any agent can be followed by any agent (itself included) within three
      hand-overs; the Executor only ever hands back to the Developer. */
  lemma EveryoneReachesEveryone()
    ensures forall a, b :: a in Config.transitions && b in Config.transitions ==>
      Reachable(Config.transitions, a, b, 3)
    ensures Config.transitions[Executor] == [Developer]
  {
    var t := Config.transitions;
    forall a, b | a in t && b in t
      ensures Reachable(t, a, b, 3)
    {
      ConfigKeys();
      if a == UserProxy {
        ReachesAllFromUserProxy();
      } else if a == Planner {
        ReachesAllFromPlanner();
      } else if a == Developer {
        ReachesAllFromDeveloper();
      } else if a == Executor {
        ReachesAllFromExecutor();
      } else {
        ReachesAllFromQualityAssurance();
      }
    }
  }

  lemma ReachesAllFromUserProxy()
    ensures forall b :: b in Config.transitions ==> Reachable(Config.transitions, UserProxy, b, 3)
  {
    var t := Config.transitions;
    // UserProxy -> Planner -> UserProxy
    HandOver(t, Planner, UserProxy, 2);
    Through(t, UserProxy, Planner, UserProxy, 2);
    // UserProxy -> Planner
    HandOver(t, UserProxy, Planner, 3);
    // UserProxy -> Planner -> Developer
    HandOver(t, Planner, Developer, 2);
    Through(t, UserProxy, Planner, Developer, 2);
    // UserProxy -> QualityAssurance -> Executor
    HandOver(t, QualityAssurance, Executor, 2);
    Through(t, UserProxy, QualityAssurance, Executor, 2);
    // UserProxy -> QualityAssurance
    HandOver(t, UserProxy, QualityAssurance, 3);
  }

  lemma ReachesAllFromPlanner()
    ensures forall b :: b in Config.transitions ==> Reachable(Config.transitions, Planner, b, 3)
  {
    var t := Config.transitions;
    // Planner -> UserProxy
    HandOver(t, Planner, UserProxy, 3);
    // Planner -> UserProxy -> Planner
    HandOver(t, UserProxy, Planner, 2);
    Through(t, Planner, UserProxy, Planner, 2);
    // Planner -> Developer
    HandOver(t, Planner, Developer, 3);
    // Planner -> Developer -> Executor
    HandOver(t, Developer, Executor, 2);
    Through(t, Planner, Developer, Executor, 2);
    // Planner -> QualityAssurance
    HandOver(t, Planner, QualityAssurance, 3);
  }

  lemma ReachesAllFromDeveloper()
    ensures forall b :: b in Config.transitions ==> Reachable(Config.transitions, Developer, b, 3)
  {
    var t := Config.transitions;
    // Developer -> UserProxy
    HandOver(t, Developer, UserProxy, 3);
    // Developer -> QualityAssurance -> Planner
    HandOver(t, QualityAssurance, Planner, 2);
    Through(t, Developer, QualityAssurance, Planner, 2);
    // Developer -> Executor -> Developer
    HandOver(t, Executor, Developer, 2);
    Through(t, Developer, Executor, Developer, 2);
    // Developer -> Executor
    HandOver(t, Developer, Executor, 3);
    // Developer -> QualityAssurance
    HandOver(t, Developer, QualityAssurance, 3);
  }

  lemma ReachesAllFromExecutor()
    ensures forall b :: b in Config.transitions ==> Reachable(Config.transitions, Executor, b, 3)
  {
    var t := Config.transitions;
    // Executor -> Developer -> UserProxy
    HandOver(t, Developer, UserProxy, 2);
    Through(t, Executor, Developer, UserProxy, 2);
    // Executor -> Developer -> QualityAssurance -> Planner
    HandOver(t, QualityAssurance, Planner, 1);
    Through(t, Developer, QualityAssurance, Planner, 1);
    Through(t, Executor, Developer, Planner, 2);
    // Executor -> Developer
    HandOver(t, Executor, Developer, 3);
    // Executor -> Developer -> Executor
    HandOver(t, Developer, Executor, 2);
    Through(t, Executor, Developer, Executor, 2);
    // Executor -> Developer -> QualityAssurance
    HandOver(t, Developer, QualityAssurance, 2);
    Through(t, Executor, Developer, QualityAssurance, 2);
  }

  lemma ReachesAllFromQualityAssurance()
    ensures forall b :: b in Config.transitions ==> Reachable(Config.transitions, QualityAssurance, b, 3)
  {
    var t := Config.transitions;
    // QualityAssurance -> UserProxy
    HandOver(t, QualityAssurance, UserProxy, 3);
    // QualityAssurance -> Planner
    HandOver(t, QualityAssurance, Planner, 3);
    // QualityAssurance -> Developer
    HandOver(t, QualityAssurance, Developer, 3);
    // QualityAssurance -> Executor
    HandOver(t, QualityAssurance, Executor, 3);
    // QualityAssurance -> Planner -> QualityAssurance
    HandOver(t, Planner, QualityAssurance, 2);
    Through(t, QualityAssurance, Planner, QualityAssurance, 2);
  }

  lemma HandOver(t: Transitions, a: string, b: string, n: nat)
    requires a in t && b in t[a] && n > 0
    ensures Reachable(t, a, b, n)
  {
  }

  lemma Through(t: Transitions, a: string, c: string, b: string, n: nat)
    requires a in t && c in t[a] && Reachable(t, c, b, n)
    ensures Reachable(t, a, b, n + 1)
  {
  }
}
