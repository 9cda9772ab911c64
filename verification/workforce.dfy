// hufiagents/orchestrator/workforce.py: agents created through a delegator
// never hold more than it does.

module Workforces {
  import opened Contracts
  import opened Capabilities

  datatype Status = Active | Disabled | Archived

  // An agents row. `delegated` records that create_agent made it for a
  // delegator, `born` the order of creation; both are history.
  datatype Row = Row(
    capabilities: Value,
    ceiling: Risk,
    policyCeiling: Risk,
    parent: Option<string>,
    status: Status,
    profile: map<string, string>,
    delegated: bool,
    born: nat)

  datatype Result = Done | IdTaken | UnknownAgent | Inactive | WrongParent | TooCapable | TooRisky
                  | NeedsDelegator | Forbidden | IsArchived | UnknownField

  predicate Within(child: Row, parent: Row) {
    Subset(child.capabilities, parent.capabilities) && child.ceiling.Rank() <= parent.ceiling.Rank()
  }

  // The delegator of a delegated agent exists, is older and bounds it.
  ghost predicate Lineage(agents: map<string, Row>) {
    forall id | id in agents && agents[id].delegated ::
      && agents[id].parent.Some? && agents[id].parent.value in agents
      && agents[agents[id].parent.value].born < agents[id].born
      && Within(agents[id], agents[agents[id].parent.value])
      && agents[id].policyCeiling == agents[id].ceiling
  }

  // The agent reached by following `steps` delegations upwards.
  function Delegator(agents: map<string, Row>, id: string, steps: nat): Option<string> {
    if steps == 0 then Some(id)
    else
      match Delegator(agents, id, steps - 1)
      case None => None
      case Some(above) => if above in agents && agents[above].delegated then agents[above].parent else None
  }

  // Every agent on the delegation chain above, however far, bounds the agent
  // in capabilities and risk, and is older, so chains have no cycle.
  lemma {:induction false} AncestorsBound(agents: map<string, Row>, id: string, steps: nat)
    requires Lineage(agents) && id in agents && Delegator(agents, id, steps).Some?
    ensures var above := Delegator(agents, id, steps).value;
            && above in agents
            && Within(agents[id], agents[above])
            && (steps > 0 ==> agents[above].born < agents[id].born && above != id)
  {
    if steps == 0 {
      SubsetIsReflexive(agents[id].capabilities);
    } else {
      AncestorsBound(agents, id, steps - 1);
      var middle := Delegator(agents, id, steps - 1).value;
      var above := agents[middle].parent.value;
      SubsetIsTransitive(agents[id].capabilities, agents[middle].capabilities, agents[above].capabilities);
    }
  }

  lemma AddedKeepsLineage(agents: map<string, Row>, id: string, row: Row)
    requires Lineage(agents) && id !in agents
    requires row.delegated ==>
               && row.parent.Some? && row.parent.value in agents
               && agents[row.parent.value].born < row.born
               && Within(row, agents[row.parent.value]) && row.policyCeiling == row.ceiling
    ensures Lineage(agents[id := row])
  {
  }

  lemma SameLineage(agents: map<string, Row>, id: string, row: Row)
    requires Lineage(agents) && id in agents
    requires row == agents[id].(status := row.status, profile := row.profile)
    ensures Lineage(agents[id := row])
  {
  }

  const FORBIDDEN: set<string> := {"id", "parent_agent_id", "capabilities", "risk_ceiling", "default_risk_ceiling"}

  const FIELDS: set<string> := {
    "id", "role", "capabilities", "default_risk_ceiling", "name", "description", "parent_agent_id", "project_id",
    "risk_ceiling", "model_preference", "memory_scope", "workspace_id", "status", "created_by", "created_at",
    "archived_at"
  }

  function StatusNamed(name: string): Option<Status> {
    if name == "active" then Some(Active)
    else if name == "disabled" then Some(Disabled)
    else if name == "archived" then Some(Archived)
    else None
  }

  class Workforce {
    var agents: map<string, Row>
    var births: nat

    ghost predicate Valid()
      reads this
    {
      && Lineage(agents)
      && forall id | id in agents :: agents[id].born < births && agents[id].capabilities.Record?
    }

    // The registry's seed rows: parents without a check.
    constructor (seeded: map<string, Row>)
      requires forall id | id in seeded ::
                 !seeded[id].delegated && seeded[id].born == 0 && seeded[id].capabilities.Record?
      ensures Valid() && agents == seeded
    {
      agents := seeded;
      births := 1;
    }

    // create_agent; `parent` is the parent id the caller put on the agent.
    method CreateAgent(id: string, capabilities: Value, ceiling: Risk, parent: Option<string>,
                       profile: map<string, string>, delegator: Option<string>) returns (result: Result)
      requires Valid() && capabilities.Record?
      modifies this
      ensures Valid()
      ensures result != Done ==> agents == old(agents)
      ensures result == Done ==>
                && id !in old(agents)
                && agents.Keys == old(agents).Keys + {id}
                && (forall other | other in old(agents) :: agents[other] == old(agents)[other])
                && agents[id].capabilities == capabilities && agents[id].ceiling == ceiling
                && agents[id].policyCeiling == ceiling
                && agents[id].delegated == delegator.Some?
                && agents[id].parent == delegator
                && agents[id].status == Active && agents[id].profile == profile
      ensures delegator.Some? ==>
                (result == Done <==>
                   && id !in old(agents)
                   && delegator.value in old(agents)
                   && old(agents)[delegator.value].status == Active
                   && (parent == None || parent == delegator)
                   && GrantsAll(old(agents)[delegator.value].capabilities, capabilities)
                   && ceiling.Rank() <= old(agents)[delegator.value].ceiling.Rank())
      ensures delegator.None? ==> (result == Done <==> id !in old(agents) && parent == None)
    {
      hide Subset, Lineage, GrantsAll;
      if id in agents {
        return IdTaken;
      }
      var row := Row(capabilities, ceiling, ceiling, parent, Active, profile, false, births);
      if delegator.Some? {
        if delegator.value !in agents {
          return UnknownAgent;
        }
        var above := agents[delegator.value];
        if above.status != Active {
          return Inactive;
        }
        if parent.Some? && parent != delegator {
          return WrongParent;
        }
        SubsetMeansGrants(capabilities, above.capabilities);
        if !Subset(capabilities, above.capabilities) {
          return TooCapable;
        }
        if ceiling.Rank() > above.ceiling.Rank() {
          return TooRisky;
        }
        row := row.(parent := delegator, delegated := true);
      } else if parent.Some? {
        return NeedsDelegator;
      }
      AddedKeepsLineage(agents, id, row);
      agents := agents[id := row];
      births := births + 1;
      return Done;
    }

    // update_agent: field by field, none of them part of the lineage. An
    // unknown field or status undoes all of it, and nothing else does.
    method UpdateAgent(id: string, changes: map<string, string>) returns (result: Result)
      requires Valid()
      modifies this
      ensures Valid()
      ensures result == Forbidden <==> changes.Keys * FORBIDDEN != {}
      ensures result == UnknownAgent <==> changes.Keys * FORBIDDEN == {} && id !in old(agents)
      ensures result == IsArchived <==>
                changes.Keys * FORBIDDEN == {} && id in old(agents) && old(agents)[id].status == Archived
      ensures result == Done <==>
                && changes.Keys * FORBIDDEN == {} && id in old(agents) && old(agents)[id].status != Archived
                && changes.Keys <= FIELDS && ("status" in changes ==> StatusNamed(changes["status"]).Some?)
      ensures result != Done ==> agents == old(agents)
      ensures result == Done ==>
                && id in old(agents) && old(agents)[id].status != Archived && id in agents
                && changes.Keys <= FIELDS - FORBIDDEN
                && agents == old(agents)[id := old(agents)[id].(status := agents[id].status,
                                                                profile := agents[id].profile)]
                && ("status" in changes ==> Some(agents[id].status) == StatusNamed(changes["status"]))
                && ("status" !in changes ==> agents[id].status == old(agents)[id].status)
                && (forall field | field in changes && field != "status" ::
                      field in agents[id].profile && agents[id].profile[field] == changes[field])
                && (forall field | field !in changes || field == "status" ::
                      && (field in agents[id].profile <==> field in old(agents)[id].profile)
                      && (field in agents[id].profile ==>
                            agents[id].profile[field] == old(agents)[id].profile[field]))
    {
      hide Lineage;
      if changes.Keys * FORBIDDEN != {} {
        return Forbidden;
      }
      if id !in agents {
        return UnknownAgent;
      }
      if agents[id].status == Archived {
        return IsArchived;
      }
      var row := agents[id];
      var left := changes.Keys;
      while left != {}
        invariant left <= changes.Keys
        invariant row == old(agents)[id].(status := row.status, profile := row.profile)
        invariant forall field | field in changes && field !in left :: field in FIELDS
        invariant forall field | field in changes && field !in left && field != "status" ::
                    field in row.profile && row.profile[field] == changes[field]
        invariant forall field | field !in changes || field == "status" ::
                    && (field in row.profile <==> field in old(agents)[id].profile)
                    && (field in row.profile ==> row.profile[field] == old(agents)[id].profile[field])
        invariant "status" in changes && "status" !in left ==> Some(row.status) == StatusNamed(changes["status"])
        invariant "status" !in changes || "status" in left ==> row.status == old(agents)[id].status
        decreases left
      {
        var field :| field in left;
        left := left - {field};
        if field !in FIELDS {
          return UnknownField;
        }
        if field == "status" {
          var status := StatusNamed(changes[field]);
          if status == None {
            return UnknownField;
          }
          row := row.(status := status.value);
        } else {
          row := row.(profile := row.profile[field := changes[field]]);
        }
      }
      assert forall field | field in changes :: field in FORBIDDEN ==> field in changes.Keys * FORBIDDEN;
      SameLineage(agents, id, row);
      agents := agents[id := row];
      return Done;
    }

    method ArchiveAgent(id: string) returns (result: Result)
      requires Valid()
      modifies this
      ensures Valid()
      ensures result == if id in old(agents) then Done else UnknownAgent
      ensures result != Done ==> agents == old(agents)
      ensures result == Done ==> agents == old(agents)[id := old(agents)[id].(status := Archived)]
    {
      if id !in agents {
        return UnknownAgent;
      }
      if agents[id].status != Archived {
        SameLineage(agents, id, agents[id].(status := Archived));
        agents := agents[id := agents[id].(status := Archived)];
      }
      return Done;
    }
  }
}
