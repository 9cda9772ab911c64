// hufiagents/risk/__init__.py: the decision the gateway acts on.

module Policy {
  import opened Contracts

  datatype Policy = Policy(r2AutoAllow: set<(string, string)>) {

    function Decide(risk: Risk, plan: Plan, agent: Agent, tool: string, action: string): Decision {
      if tool !in plan.allowedTools || tool !in agent.tools then Denied
      else if risk.Rank() > agent.ceiling.Rank() then Denied
      else if risk == R3 || risk == R4 then ApprovalRequired
      else if risk.Rank() > plan.riskCeiling.Rank() then Denied
      else if risk == R2 && (tool, action) !in r2AutoAllow then ReviewerGate
      else AutoAllow
    }

    // What a call must satisfy before its tool may run, apart from approval.
    predicate WithinBounds(risk: Risk, plan: Plan, agent: Agent, tool: string, action: string) {
      && tool in plan.allowedTools
      && tool in agent.tools
      && risk.Rank() <= agent.ceiling.Rank()
      && (risk.Rank() < R3.Rank() ==> risk.Rank() <= plan.riskCeiling.Rank())
      && (risk == R2 ==> (tool, action) in r2AutoAllow)
    }

    // The table decides as the bounds demand: automatic exactly within them
    // below R3, human approval exactly within them from R3 up, so approval
    // never lifts an agent above its own ceiling or tool list; the preflight
    // rejection exactly for R2 calls that only the list is missing for.
    lemma DecisionMeaning(risk: Risk, plan: Plan, agent: Agent, tool: string, action: string)
      ensures var d := Decide(risk, plan, agent, tool, action);
              var ok := WithinBounds(risk, plan, agent, tool, action);
              && (d == AutoAllow <==> ok && risk.Rank() < R3.Rank())
              && (d == ApprovalRequired <==> ok && risk.Rank() >= R3.Rank())
              && (d == ReviewerGate <==>
                    && risk == R2 && (tool, action) !in r2AutoAllow
                    && Policy(r2AutoAllow + {(tool, action)}).WithinBounds(risk, plan, agent, tool, action))
    {
      match risk case R0 => case R1 => case R2 => case R3 => case R4 =>
    }
  }
}
