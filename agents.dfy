/** The declarative part of a group chat as both workflow files configure it:
    the members, the allowed hand-over graph keyed by agent name, and the round
    limit. Speaker selection itself belongs to the library and is not modelled. */
module Agents {
  /** `allowed_transitions`, keyed by agent name: who may speak after whom. */
  type Transitions = map<string, seq<string>>

  datatype GroupChatConfig = GroupChatConfig(
    agents: seq<string>,
    transitions: Transitions,
    transitionsType: string,
    maxRound: nat,
    sendIntroductions: bool)

  /** Every member has an entry and only members do; every entry lists at least
      one successor, every successor is a member other than the speaker itself. */
  predicate WellFormed(c: GroupChatConfig) {
    c.transitions.Keys == set a | a in c.agents
    && (forall a :: a in c.transitions ==>
          c.transitions[a] != [] && forall b :: b in c.transitions[a] ==> b in c.agents && b != a)
  }

  /** b may speak within n hand-overs after a. */
  predicate Reachable(t: Transitions, a: string, b: string, n: nat)
    decreases n
  {
    n > 0 && a in t && (b in t[a] || exists c :: c in t[a] && Reachable(t, c, b, n - 1))
  }

  /** The speakers met by always taking the first allowed successor, n times:
      every speaker met is the first successor of the one before it, and the
      walk stops early only at a speaker without successors. */
  function Walk(t: Transitions, a: string, n: nat): (r: seq<string>)
    ensures |r| <= n
    ensures n > 0 && a in t && t[a] != [] ==> |r| >= 1 && r[0] == t[a][0]
    ensures forall k :: 0 <= k < |r| - 1 ==> r[k] in t && t[r[k]] != [] && r[k + 1] == t[r[k]][0]
    ensures 0 < |r| < n ==> r[|r| - 1] !in t || t[r[|r| - 1]] == []
    decreases n
  {
    if n == 0 || a !in t || t[a] == [] then []
    else [t[a][0]] + Walk(t, t[a][0], n - 1)
  }
}
