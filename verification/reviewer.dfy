// hufiagents/orchestrator/reviewer.py: scope rejection and the criterion loop.

module Reviewer {
  import opened Contracts
  import opened Text

  const REVIEWER := "reviewer"
  const MAX_READ := 64000

  const REFUSAL_MARKERS: seq<string> := [
    "kritischer sicherheitsvorfall",
    "wird nicht ausgeführt",
    "lehne diese anfrage ab",
    "kann ich nicht ausführen",
    "kann ich nicht tun",
    "verstößt gegen meine richtlinien",
    "i cannot comply",
    "i will not execute",
    "i refuse to",
    "i cannot assist with this request",
    "as an ai, i cannot"
  ]

  predicate LooksLikeRefusal(text: string) {
    exists i | 0 <= i < |REFUSAL_MARKERS| :: Within(REFUSAL_MARKERS[i], Lower(text))
  }

  function TextOf(result: Option<string>): string {
    if result.Some? then result.value else ""
  }

  // One mechanical check; `file` is what reading the artifact gives, None when
  // there is no such file.
  predicate Holds(criterion: Criterion, result: Option<string>, file: Option<string>, calls: map<Key, Call>) {
    match criterion
    case Nonempty => !Blank(TextOf(result))
    case FileExists => file.Some? && |file.value| <= MAX_READ && !Blank(file.value)
    case Contains(text) => Within(text, TextOf(result))
    case ExitCode(code) =>
      && (exists k | k in calls :: calls[k].exit.Some?)
      && (forall k | k in calls :: calls[k].exit.Some? ==> calls[k].exit.value == code)
    case NotRefusal => !LooksLikeRefusal(TextOf(result))
  }

  predicate InScope(plan: Plan, calls: map<Key, Call>) {
    forall k | k in calls :: k.tool in plan.allowedTools && calls[k].risk.Rank() <= plan.riskCeiling.Rank()
  }

  function Unmet(criteria: seq<Criterion>, result: Option<string>, file: Option<string>,
                 calls: map<Key, Call>): (r: seq<Criterion>)
  {
    if criteria == [] then []
    else
      var last := criteria[|criteria| - 1];
      Unmet(criteria[..|criteria| - 1], result, file, calls)
      + (if Holds(last, result, file, calls) then [] else [last])
  }

  function Judge(plan: Plan, result: Option<string>, file: Option<string>, calls: map<Key, Call>): ReviewResult {
    if !InScope(plan, calls) then ReviewResult(REVIEWER, Reject, [])
    else
      var findings := Unmet(plan.criteria, result, file, calls);
      ReviewResult(REVIEWER, if findings != [] then Revise else Approve, findings)
  }

  // -- what the criteria mean -------------------------------------------------

  // What a criterion asks of the result, the file and the calls.
  ghost predicate Meets(criterion: Criterion, text: string, file: Option<string>, calls: map<Key, Call>) {
    match criterion
    case Nonempty => exists i :: 0 <= i < |text| && !IsSpace(text[i])
    case FileExists =>
      file.Some? && |file.value| <= 64000 && exists i :: 0 <= i < |file.value| && !IsSpace(file.value[i])
    case Contains(part) => exists a, b :: text == a + part + b
    case ExitCode(code) => (set k | k in calls && calls[k].exit.Some? :: calls[k].exit.value) == {code}
    case NotRefusal => forall a, marker, b | text == a + marker + b :: Lower(marker) !in REFUSAL_MARKERS
  }

  lemma OccurrenceMeans(part: string, s: string)
    ensures Within(part, s) <==> exists a, b :: s == a + part + b
  {
    if i :| 0 <= i <= |s| && OccursAt(part, s, i) {
      assert s == s[..i] + part + s[i + |part|..];
    }
    if a, b :| s == a + part + b {
      assert OccursAt(part, s, |a|);
    }
  }

  lemma LowerParts(text: string, a: string, marker: string, b: string)
    requires text == a + marker + b
    ensures Within(Lower(marker), Lower(text))
  {
    assert Lower(text)[|a|..|a| + |marker|] == Lower(marker);
    assert OccursAt(Lower(marker), Lower(text), |a|);
  }

  // A text is taken for a refusal exactly when some part of it, in whatever
  // case, is one of the markers.
  lemma RefusalMeans(text: string)
    ensures LooksLikeRefusal(text)
       <==> exists a, marker, b :: text == a + marker + b && Lower(marker) in REFUSAL_MARKERS
  {
    hide REFUSAL_MARKERS, Within, OccursAt;
    if LooksLikeRefusal(text) {
      var i :| 0 <= i < |REFUSAL_MARKERS| && Within(REFUSAL_MARKERS[i], Lower(text));
      MarkerFound(text, REFUSAL_MARKERS[i]);
    }
    if a, marker, b :| text == a + marker + b && Lower(marker) in REFUSAL_MARKERS {
      LowerParts(text, a, marker, b);
    }
  }

  lemma MarkerFound(text: string, marker: string)
    requires Within(marker, Lower(text))
    ensures exists a, m, b :: text == a + m + b && Lower(m) == marker
  {
    var i :| 0 <= i <= |text| && OccursAt(marker, Lower(text), i);
    var m := text[i..i + |marker|];
    assert text == text[..i] + m + text[i + |marker|..];
    assert Lower(m) == marker;
  }

  lemma HoldsMeans(criterion: Criterion, result: Option<string>, file: Option<string>, calls: map<Key, Call>)
    ensures Holds(criterion, result, file, calls) <==> Meets(criterion, TextOf(result), file, calls)
  {
    hide LooksLikeRefusal, Within, REFUSAL_MARKERS, IsSpace;
    match criterion
    case Nonempty =>
    case FileExists =>
    case Contains(part) => OccurrenceMeans(part, TextOf(result));
    case ExitCode(code) => ExitsMean(calls, code);
    case NotRefusal => RefusalMeans(TextOf(result));
  }

  lemma ExitsMean(calls: map<Key, Call>, code: int)
    ensures (set k | k in calls && calls[k].exit.Some? :: calls[k].exit.value) == {code}
       <==> && (exists k :: k in calls && calls[k].exit.Some?)
            && (forall k | k in calls && calls[k].exit.Some? :: calls[k].exit.value == code)
  {
    var codes := set k | k in calls && calls[k].exit.Some? :: calls[k].exit.value;
    if k :| k in calls && calls[k].exit.Some? {
      assert calls[k].exit.value in codes;
      if forall j | j in calls && calls[j].exit.Some? :: calls[j].exit.value == code {
        assert codes == {code};
      }
    }
    if codes == {code} {
      assert code in codes;
      forall k | k in calls && calls[k].exit.Some? ensures calls[k].exit.value == code {
        assert calls[k].exit.value in codes;
      }
    }
  }

  // The findings are the criteria that are not met.
  lemma {:induction false} UnmetListsFailures(criteria: seq<Criterion>, result: Option<string>, file: Option<string>,
                                              calls: map<Key, Call>)
    ensures forall c :: c in Unmet(criteria, result, file, calls)
                        <==> c in criteria && !Meets(c, TextOf(result), file, calls)
  {
    hide Holds, Meets;
    if criteria != [] {
      var rest, last := criteria[..|criteria| - 1], criteria[|criteria| - 1];
      UnmetListsFailures(rest, result, file, calls);
      HoldsMeans(last, result, file, calls);
      assert criteria == rest + [last];
    }
  }

  // Approval means exactly: every call in scope and every criterion met.
  // Rejection means exactly: some call out of scope. The findings of any other
  // review are the criteria that are not met.
  lemma VerdictMeaning(plan: Plan, result: Option<string>, file: Option<string>, calls: map<Key, Call>)
    ensures var review := Judge(plan, result, file, calls);
            var scoped := forall k | k in calls ::
                            k.tool in plan.allowedTools && calls[k].risk.Rank() <= plan.riskCeiling.Rank();
            && review.reviewer == "reviewer"
            && (review.verdict == Approve <==>
                  scoped && forall c | c in plan.criteria :: Meets(c, TextOf(result), file, calls))
            && (review.verdict == Reject <==> !scoped)
            && (scoped ==> forall c :: c in review.findings
                                       <==> c in plan.criteria && !Meets(c, TextOf(result), file, calls))
  {
    hide Holds, Meets;
    UnmetListsFailures(plan.criteria, result, file, calls);
    var findings := Unmet(plan.criteria, result, file, calls);
    if findings != [] {
      assert findings[0] in findings;
    }
  }

  lemma MarkerInUpperCase()
    ensures Lower("I refuse to") in REFUSAL_MARKERS
  {
    var marker := REFUSAL_MARKERS[8];
    assert marker == "i refuse to";
    assert Lower("I refuse to") == marker;
  }

  // -- one criterion at a time --------------------------------------------------

  // A result with a marker in it, in whatever case, is not approved.
  lemma RefusalIsNotApproved(plan: Plan, a: string, marker: string, b: string, file: Option<string>,
                             calls: map<Key, Call>)
    requires NotRefusal in plan.criteria && Lower(marker) in REFUSAL_MARKERS
    ensures Judge(plan, Some(a + marker + b), file, calls).verdict != Approve
  {
    hide Judge, REFUSAL_MARKERS;
    VerdictMeaning(plan, Some(a + marker + b), file, calls);
  }

  // One without any marker is not faulted for a refusal.
  lemma AnswerIsNoRefusal(plan: Plan, text: string, file: Option<string>, calls: map<Key, Call>)
    requires InScope(plan, calls)
    requires forall a, marker, b | text == a + marker + b :: Lower(marker) !in REFUSAL_MARKERS
    ensures NotRefusal !in Judge(plan, Some(text), file, calls).findings
  {
    hide Judge, REFUSAL_MARKERS;
    VerdictMeaning(plan, Some(text), file, calls);
  }

  // Exit codes: some call has one, and all that have one have this.
  lemma ExitCodesAgree(plan: Plan, code: int, result: Option<string>, file: Option<string>, calls: map<Key, Call>)
    requires InScope(plan, calls) && ExitCode(code) in plan.criteria
    ensures ExitCode(code) !in Judge(plan, result, file, calls).findings
       <==> && (exists k :: k in calls && calls[k].exit.Some?)
            && (forall k | k in calls && calls[k].exit.Some? :: calls[k].exit.value == code)
  {
    hide Judge;
    VerdictMeaning(plan, result, file, calls);
    ExitsMean(calls, code);
  }

  lemma TextIsContained(plan: Plan, part: string, text: string, file: Option<string>, calls: map<Key, Call>)
    requires InScope(plan, calls) && Contains(part) in plan.criteria
    ensures Contains(part) !in Judge(plan, Some(text), file, calls).findings <==> exists a, b :: text == a + part + b
  {
    hide Judge;
    VerdictMeaning(plan, Some(text), file, calls);
  }

  // The file is there, can be read and is not blank.
  lemma FileHasText(plan: Plan, result: Option<string>, file: Option<string>, calls: map<Key, Call>)
    requires InScope(plan, calls) && FileExists in plan.criteria
    ensures FileExists !in Judge(plan, result, file, calls).findings
       <==> && file.Some? && |file.value| <= 64000
            && exists i :: 0 <= i < |file.value| && !IsSpace(file.value[i])
  {
    hide Judge, IsSpace;
    VerdictMeaning(plan, result, file, calls);
  }

  lemma ResultHasText(plan: Plan, result: Option<string>, file: Option<string>, calls: map<Key, Call>)
    requires InScope(plan, calls) && Nonempty in plan.criteria
    ensures Nonempty !in Judge(plan, result, file, calls).findings
       <==> result.Some? && exists i :: 0 <= i < |result.value| && !IsSpace(result.value[i])
  {
    hide Judge, IsSpace;
    VerdictMeaning(plan, result, file, calls);
  }

  method Review(plan: Plan, result: Option<string>, file: Option<string>, calls: map<Key, Call>)
    returns (review: ReviewResult)
    ensures review == Judge(plan, result, file, calls)
    ensures review.verdict == Reject
       <==> exists k :: k in calls && (k.tool !in plan.allowedTools || calls[k].risk.Rank() > plan.riskCeiling.Rank())
    ensures review.verdict == Approve
       <==> review.verdict != Reject && forall c | c in plan.criteria :: Meets(c, TextOf(result), file, calls)
    ensures review.verdict != Reject ==>
              forall c :: c in review.findings <==> c in plan.criteria && !Meets(c, TextOf(result), file, calls)
  {
    hide Holds, Meets;
    VerdictMeaning(plan, result, file, calls);
    if exists k | k in calls :: k.tool !in plan.allowedTools || calls[k].risk.Rank() > plan.riskCeiling.Rank() {
      return ReviewResult(REVIEWER, Reject, []);
    }
    var findings: seq<Criterion> := [];
    for i := 0 to |plan.criteria|
      invariant findings == Unmet(plan.criteria[..i], result, file, calls)
    {
      assert plan.criteria[..i + 1][..i] == plan.criteria[..i];
      if !Holds(plan.criteria[i], result, file, calls) {
        findings := findings + [plan.criteria[i]];
      }
    }
    assert plan.criteria[..|plan.criteria|] == plan.criteria;
    review := ReviewResult(REVIEWER, if findings != [] then Revise else Approve, findings);
  }
}
