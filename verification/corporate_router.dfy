// hufiagents/corporate_router.py: how a request becomes routed steps and the
// outcome contract that is later checked against their results.

module CorporateRouter {
  import opened Contracts
  import opened Text

  // A TaskSpec; an empty agent, workstream or deliverable is an absent one.
  datatype StepSpec = StepSpec(
    objective: string,
    output: string,
    criteria: seq<Criterion>,
    allowedTools: set<string>,
    agent: string,
    retryLimit: nat,
    operations: seq<Key>,
    workstream: string,
    deliverable: string,
    indexes: Option<seq<int>>)

  // `golden` is _is_golden_qa of the outcome and `routed` the agent that
  // resolve_route selects; both are inputs here.
  datatype Request = Request(
    outcome: string,
    riskCeiling: Risk,
    steps: seq<StepSpec>,
    golden: bool,
    routed: string,
    inputs: seq<string>)

  const MAX_STEPS := 20
  const MAX_RETRIES := 5
  const MAX_OPERATIONS := 10
  const MAX_TEXT := 32000

  // What MissionCreate and TaskSpec admit.
  predicate Valid(request: Request) {
    && 1 <= |request.outcome| <= MAX_TEXT
    && |request.steps| <= MAX_STEPS
    && forall i | 0 <= i < |request.steps| :: ValidStep(request.steps[i])
  }

  predicate ValidStep(step: StepSpec) {
    && 1 <= |step.objective| <= MAX_TEXT
    && step.criteria != []
    && step.retryLimit <= MAX_RETRIES
    && |step.operations| <= MAX_OPERATIONS
  }

  function Or(value: string, fallback: string): string {
    if value != "" then value else fallback
  }

  function DefaultSpec(objective: string): StepSpec {
    StepSpec(objective, "result.md", [Nonempty, FileExists, NotRefusal], {"files", "shell", "git"}, "", 2, [],
             "", "", None)
  }

  const GOLDEN_ROLES: seq<(string, string, string)> := [
    ("provider_qa", "provider_report", "Provider Report"),
    ("client_qa", "client_report", "Client Report"),
    ("partner_qa", "partner_report", "Partner Report")
  ]

  function GoldenStep(role: string, report: string, objective: string, indexes: seq<int>): StepSpec {
    DefaultSpec(objective).(output := "reports/" + report + ".md", agent := role, workstream := role,
                            deliverable := report, indexes := Some(indexes))
  }

  function GoldenSteps(): seq<StepSpec> {
    seq(3, i requires 0 <= i < 3 =>
             GoldenStep(GOLDEN_ROLES[i].0, GOLDEN_ROLES[i].1,
                        GOLDEN_ROLES[i].2 + ": unabhängig prüfen und reale Evidenz dokumentieren.", []))
    + [GoldenStep("cross_role_qa", "cross_role_report",
                  "Cross-Role-Szenarien ausführen und Ergebnisse zusammenführen.", [0, 1, 2])]
  }

  function Filled(spec: StepSpec, index: nat, routed: string): StepSpec {
    spec.(agent := Or(spec.agent, routed),
          workstream := Or(spec.workstream, "workstream_" + Decimal(index + 1)),
          deliverable := Or(spec.deliverable, "result_" + Decimal(index + 1)))
  }

  function RoutedSteps(request: Request): (steps: seq<StepSpec>)
    ensures steps != []
  {
    if request.golden then GoldenSteps()
    else if request.steps != [] then
      seq(|request.steps|, i requires 0 <= i < |request.steps| => Filled(request.steps[i], i, request.routed))
    else
      [DefaultSpec(request.outcome).(agent := request.routed, workstream := "primary", deliverable := "result",
                                     indexes := Some([]))]
  }

  // Routing keeps the bounds, also for the requests it rewrites.
  lemma RoutingKeepsBounds(request: Request)
    requires Valid(request)
    ensures |RoutedSteps(request)| <= MAX_STEPS
    ensures forall i | 0 <= i < |RoutedSteps(request)| :: ValidStep(RoutedSteps(request)[i])
  {
    if request.golden {
      GoldenAreValid();
    }
  }

  lemma GoldenAreValid()
    ensures forall i | 0 <= i < |GoldenSteps()| :: ValidStep(GoldenSteps()[i])
  {
    var ending := ": unabhängig prüfen und reale Evidenz dokumentieren.";
    assert |ending| == 52 && |GOLDEN_ROLES| == 3;
    assert |GOLDEN_ROLES[0].2| < 20 && |GOLDEN_ROLES[1].2| < 20 && |GOLDEN_ROLES[2].2| < 20;
  }

  function ContractFor(request: Request): OutcomeContract {
    if request.golden then
      var roles := {"provider_qa", "client_qa", "partner_qa", "cross_role_qa"};
      OutcomeContract(roles, roles, {"provider_report", "client_report", "partner_report", "cross_role_report"},
                      Dispatching)
    else
      var steps := RoutedSteps(request);
      OutcomeContract(set i | 0 <= i < |steps| && steps[i].agent != "" :: steps[i].agent,
                      set i | 0 <= i < |steps| && steps[i].workstream != "" :: steps[i].workstream,
                      set i | 0 <= i < |steps| && steps[i].deliverable != "" :: steps[i].deliverable,
                      Dispatching)
  }

  // Everything the contract demands is asked of some step.
  ghost predicate CoveredBy(contract: OutcomeContract, steps: seq<StepSpec>) {
    && (forall r | r in contract.roles :: exists i | 0 <= i < |steps| :: steps[i].agent == r)
    && (forall x | x in contract.workstreams :: exists i | 0 <= i < |steps| :: steps[i].workstream == x)
    && (forall d | d in contract.deliverables :: d != "" && exists i | 0 <= i < |steps| :: steps[i].deliverable == d)
  }

  // And the contract demands all that the steps are to deliver: the agent, the
  // workstream and the deliverable of each of them. Every step has the last two.
  ghost predicate Demands(contract: OutcomeContract, steps: seq<StepSpec>) {
    && contract.status == Dispatching
    && (forall i | 0 <= i < |steps| ::
          && (steps[i].agent != "" ==> steps[i].agent in contract.roles)
          && steps[i].workstream != "" && steps[i].workstream in contract.workstreams
          && steps[i].deliverable != "" && steps[i].deliverable in contract.deliverables)
  }

  lemma ContractIsCovered(request: Request)
    ensures CoveredBy(ContractFor(request), RoutedSteps(request))
    ensures Demands(ContractFor(request), RoutedSteps(request))
    ensures request.routed != "" ==>
              forall i | 0 <= i < |RoutedSteps(request)| :: RoutedSteps(request)[i].agent != ""
  {
    hide GoldenSteps, ContractFor, CoveredBy, Demands;
    if request.golden {
      GoldenCovered(request);
    } else {
      StepsCovered(request);
    }
  }

  lemma GoldenCovered(request: Request)
    requires request.golden
    ensures CoveredBy(ContractFor(request), RoutedSteps(request))
    ensures Demands(ContractFor(request), RoutedSteps(request))
    ensures forall i | 0 <= i < |RoutedSteps(request)| :: RoutedSteps(request)[i].agent != ""
  {
    hide CoveredBy, Demands, ContractFor, RoutedSteps;
    GoldenTerms(request);
    FourCovered(ContractFor(request), RoutedSteps(request));
  }

  lemma GoldenTerms(request: Request)
    requires request.golden
    ensures var contract, s := ContractFor(request), RoutedSteps(request);
            && |s| == 4 && contract.status == Dispatching
            && (forall i | 0 <= i < 4 :: s[i].agent != "" && s[i].workstream != "" && s[i].deliverable != "")
            && contract.roles == {s[0].agent, s[1].agent, s[2].agent, s[3].agent}
            && contract.workstreams == {s[0].workstream, s[1].workstream, s[2].workstream, s[3].workstream}
            && contract.deliverables == {s[0].deliverable, s[1].deliverable, s[2].deliverable, s[3].deliverable}
  {
    hide GoldenSteps;
    GoldenNames();
  }

  lemma FourCovered(contract: OutcomeContract, s: seq<StepSpec>)
    requires |s| == 4 && forall i | 0 <= i < 4 :: s[i].workstream != "" && s[i].deliverable != ""
    requires contract.status == Dispatching
    requires contract.roles == {s[0].agent, s[1].agent, s[2].agent, s[3].agent}
    requires contract.workstreams == {s[0].workstream, s[1].workstream, s[2].workstream, s[3].workstream}
    requires contract.deliverables == {s[0].deliverable, s[1].deliverable, s[2].deliverable, s[3].deliverable}
    ensures CoveredBy(contract, s) && Demands(contract, s)
  {
  }

  lemma StepsCovered(request: Request)
    requires !request.golden
    ensures CoveredBy(ContractFor(request), RoutedSteps(request))
    ensures Demands(ContractFor(request), RoutedSteps(request))
  {
    hide GoldenSteps, Decimal;
    var steps := RoutedSteps(request);
    forall i | 0 <= i < |steps| ensures steps[i].workstream != "" && steps[i].deliverable != "" {
    }
  }

  // A step that is asked for keeps what it states and gets what it leaves open;
  // a request without steps becomes one step, its outcome, to be answered and
  // checked by default.
  lemma RoutingMeans(request: Request)
    requires !request.golden
    ensures var routed := RoutedSteps(request);
            && (request.steps == [] ==>
                  routed == [StepSpec(request.outcome, "result.md", [Nonempty, FileExists, NotRefusal],
                                      {"files", "shell", "git"}, request.routed, 2, [], "primary", "result",
                                      Some([]))])
            && (request.steps != [] ==> |routed| == |request.steps|)
    ensures forall i | 0 <= i < |request.steps| ::
              var step, routed := request.steps[i], RoutedSteps(request)[i];
              && routed == step.(agent := routed.agent, workstream := routed.workstream,
                                 deliverable := routed.deliverable)
              && routed.agent == (if step.agent == "" then request.routed else step.agent)
              && routed.workstream == (if step.workstream == "" then "workstream_" + Decimal(i + 1)
                                       else step.workstream)
              && routed.deliverable == (if step.deliverable == "" then "result_" + Decimal(i + 1) else step.deliverable)
  {
    hide Decimal, GoldenSteps;
  }

  // The four steps of the quality audit: three reports that depend on nothing
  // and a fourth that depends on all three.
  lemma GoldenMeans(request: Request)
    requires request.golden
    ensures var s := RoutedSteps(request);
            && |s| == 4
            && s[0].agent == s[0].workstream == "provider_qa" && s[0].deliverable == "provider_report"
            && s[1].agent == s[1].workstream == "client_qa" && s[1].deliverable == "client_report"
            && s[2].agent == s[2].workstream == "partner_qa" && s[2].deliverable == "partner_report"
            && s[3].agent == s[3].workstream == "cross_role_qa" && s[3].deliverable == "cross_role_report"
    ensures var s := RoutedSteps(request);
            && s[0].indexes == s[1].indexes == s[2].indexes == Some([]) && s[3].indexes == Some([0, 1, 2])
            && forall i | 0 <= i < 4 ::
                 && s[i].output == "reports/" + s[i].deliverable + ".md"
                 && s[i].criteria == [Nonempty, FileExists, NotRefusal]
                 && s[i].allowedTools == {"files", "shell", "git"} && s[i].retryLimit == 2 && s[i].operations == []
  {
  }

  lemma GoldenNames()
    ensures var s := GoldenSteps();
            && |s| == 4
            && s[0].agent == s[0].workstream == "provider_qa" && s[0].deliverable == "provider_report"
            && s[1].agent == s[1].workstream == "client_qa" && s[1].deliverable == "client_report"
            && s[2].agent == s[2].workstream == "partner_qa" && s[2].deliverable == "partner_report"
            && s[3].agent == s[3].workstream == "cross_role_qa" && s[3].deliverable == "cross_role_report"
  {
  }
}
