/** The display rules of the results panel: which view a finished run gets,
    and how its risk level is coloured. */
module App {
  import opened PyText
  import opened Workflow
  import opened WorkflowRuns

  /** The panel shows "No Disaster Detected" for a result whose type passes
      the same test that ends a run after detection. */
  predicate ShowsNoDisaster(result: DisasterState)
    requires result.disaster.Some?
    ensures ShowsNoDisaster(result) <==> ShouldContinue(result) == "end"
  {
    IsNoDisaster(result.disaster.value.kind)
  }

  /** The no-disaster view is shown exactly for the runs that ended after
      detection; every other successful run carries the `risk_level` and
      `action_plan` the detailed view reads. */
  lemma ViewAgreesWithRun(imagePath: string, io: Services, fuel: nat)
    requires fuel >= 4
    requires Invoke(PipelineGraph(), imagePath, io, fuel).Success?
    ensures var result := Invoke(PipelineGraph(), imagePath, io, fuel).value;
      && result.final.disaster.Some?
      && (ShowsNoDisaster(result.final) <==> result.trace == [Detect])
      && (!ShowsNoDisaster(result.final) ==> result.final.riskLevel.Some? && result.final.actionPlan.Some?)
  {
    RunInvariant(imagePath, io, fuel);
  }

  /** The Streamlit message box a risk level is shown in. */
  datatype Bucket = ErrorBox | WarningBox | SuccessBox

  /** The colour of the risk level: error for high, severe or critical,
      otherwise warning for medium or moderate, otherwise success; the
      keywords are looked for anywhere in the lower-cased label. */
  function Severity(riskLevel: string): (r: Bucket)
    ensures var l := Lower(riskLevel);
      var error := Mentions(l, "high") || Mentions(l, "severe") || Mentions(l, "critical");
      var warning := Mentions(l, "medium") || Mentions(l, "moderate");
      && (r == ErrorBox <==> error)
      && (r == WarningBox <==> !error && warning)
      && (r == SuccessBox <==> !error && !warning)
  {
    var l := Lower(riskLevel);
    ContainsIff(l, "high");
    ContainsIff(l, "severe");
    ContainsIff(l, "critical");
    ContainsIff(l, "medium");
    ContainsIff(l, "moderate");
    if Contains(l, "high") || Contains(l, "severe") || Contains(l, "critical") then ErrorBox
    else if Contains(l, "medium") || Contains(l, "moderate") then WarningBox
    else SuccessBox
  }

  /** `w` occurs somewhere in `l`. */
  ghost predicate Mentions(l: string, w: string) {
    exists k :: OccursAt(l, w, k)
  }

  predicate ErrorWord(w: string) {
    w == "high" || w == "severe" || w == "critical"
  }

  predicate WarningWord(w: string) {
    w == "medium" || w == "moderate"
  }

  /** Any occurrence of an error keyword makes the label an error, whatever
      else it contains: error takes priority over warning. */
  lemma ErrorWins(riskLevel: string, w: string, k: int)
    requires ErrorWord(w) && OccursAt(Lower(riskLevel), w, k)
    ensures Severity(riskLevel) == ErrorBox
  {
    ContainsIff(Lower(riskLevel), w);
  }

  /** A warning keyword with no error keyword anywhere makes the label a
      warning. */
  lemma WarningWhenNoError(riskLevel: string, w: string, k: int)
    requires WarningWord(w) && OccursAt(Lower(riskLevel), w, k)
    requires forall e, j :: ErrorWord(e) ==> !OccursAt(Lower(riskLevel), e, j)
    ensures Severity(riskLevel) == WarningBox
  {
    var l := Lower(riskLevel);
    ContainsIff(l, w);
    ContainsIff(l, "high");
    ContainsIff(l, "severe");
    ContainsIff(l, "critical");
  }

  /** A label with none of the five keywords anywhere is shown as success:
      low, empty and unrecognised labels alike. */
  lemma SuccessWhenNoKeyword(riskLevel: string)
    requires forall w, k :: ErrorWord(w) || WarningWord(w) ==> !OccursAt(Lower(riskLevel), w, k)
    ensures Severity(riskLevel) == SuccessBox
  {
    var l := Lower(riskLevel);
    ContainsIff(l, "high");
    ContainsIff(l, "severe");
    ContainsIff(l, "critical");
    ContainsIff(l, "medium");
    ContainsIff(l, "moderate");
  }

  /** And only those: a label shown as success contains none of the five
      keywords. */
  lemma NoKeywordWhenSuccess(riskLevel: string, w: string, k: int)
    requires Severity(riskLevel) == SuccessBox
    requires ErrorWord(w) || WarningWord(w)
    ensures !OccursAt(Lower(riskLevel), w, k)
  {
    var l := Lower(riskLevel);
    assert !Contains(l, w);
    ContainsIff(l, w);
  }

  /** Colouring ignores letter case: a label and its lower-cased form get the
      same box. */
  lemma SeverityIgnoresCase(riskLevel: string)
    ensures Severity(Lower(riskLevel)) == Severity(riskLevel)
  {
    LowerIdempotent(riskLevel);
  }

  /** The labels the risk prompt asks for: critical and high are errors. */
  lemma SeverityOfErrorLabels()
    ensures Severity("CRITICAL") == ErrorBox
    ensures Severity("HIGH") == ErrorBox
  {
    assert Lower("CRITICAL") == "critical";
    assert Contains("critical", "critical");
    assert Lower("HIGH") == "high";
    assert Contains("high", "high");
  }

  /** Medium is a warning. */
  lemma SeverityOfMedium()
    ensures Severity("MEDIUM") == WarningBox
  {
    var l := Lower("MEDIUM");
    assert l == "medium";
    assert !Contains(l, "critical");
    assert !Contains(l, "high") by {
      ContainsIff(l, "high");
    }
    assert !Contains(l, "severe") by {
      ContainsIff(l, "severe");
    }
    assert Contains(l, "medium");
  }

  /** Low and the empty label are successes. */
  lemma SeverityOfLow()
    ensures Severity("LOW") == SuccessBox
    ensures Severity("") == SuccessBox
  {
    assert Lower("LOW") == "low";
  }
}
