/** The name "Agent {i}" shared by the agents agent_factory.py creates and
    the keys under which langgraph_chain.py records their outcomes. */
module AgentNaming {
  import opened PyText

  /** The name of the agent at 1-based position `i`: f"Agent {i}". */
  function AgentName(i: nat): string {
    "Agent " + NatToString(i)
  }

  lemma AgentNameInjective(a: nat, b: nat)
    ensures AgentName(a) == AgentName(b) ==> a == b
  {
    if AgentName(a) == AgentName(b) {
      assert NatToString(a) == AgentName(a)[6..];
      assert NatToString(b) == AgentName(b)[6..];
      NatToStringInjective(a, b);
    }
  }

  /** The names of the application's four agents. */
  lemma FirstFourNames()
    ensures AgentName(1) == "Agent 1" && AgentName(2) == "Agent 2"
    ensures AgentName(3) == "Agent 3" && AgentName(4) == "Agent 4"
  {
  }
}
