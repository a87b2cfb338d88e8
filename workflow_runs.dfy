/** What the routing test and a run of the pipeline's graph guarantee. */
module WorkflowRuns {
  import opened Wrappers
  import opened PyText
  import opened Workflow

  // ---------------------------------------------------------------------
  // The routing test

  /** Any letter-case variant of "none", with any whitespace around it,
      counts as no disaster. */
  lemma NoDisasterPadded(w1: string, x: string, w2: string)
    requires AllSpace(w1) && AllSpace(w2)
    requires Lower(x) == "none"
    ensures IsNoDisaster(w1 + x + w2)
  {
    assert LowerChar(x[0]) == 'n' && LowerChar(x[3]) == 'e';
    assert Trimmed(x);
    StripPadded(w1, x, w2);
    StripTrimmed(x);
  }

  /** And nothing else does: a no-disaster type is whitespace, then a
      letter-case variant of "none", then whitespace. */
  lemma NoDisasterShape(kind: string) returns (i: nat, j: nat)
    requires IsNoDisaster(kind)
    ensures i <= j <= |kind|
    ensures AllSpace(kind[..i]) && AllSpace(kind[j..])
    ensures Lower(kind[i..j]) == "none"
  {
    i, j := StripSplit(kind);
  }

  /** The routing test ignores letter case. */
  lemma NoDisasterIgnoresCase(a: string, b: string)
    requires Lower(a) == Lower(b)
    ensures IsNoDisaster(a) <==> IsNoDisaster(b)
  {
    LowerStrip(a);
    LowerStrip(b);
  }

  /** The three spellings "none", " None " and "NONE" all end the run. */
  lemma NoneSpellingsEndTheRun(s: DisasterState)
    requires s.disaster.Some?
    requires s.disaster.value.kind in {"none", " None ", "NONE"}
    ensures ShouldContinue(s) == "end"
  {
    var kind := s.disaster.value.kind;
    if kind == " None " {
      assert kind == " " + "None" + " ";
      assert Lower("None") == "none";
      NoDisasterPadded(" ", "None", " ");
    } else {
      assert kind == [] + kind + [];
      assert Lower(kind) == "none";
      NoDisasterPadded([], kind, []);
    }
  }

  /** The disaster types the detection prompt asks for do not end the run. */
  lemma DisasterTypesGoToRisk(s: DisasterState)
    requires s.disaster.Some?
    requires s.disaster.value.kind in {"Wildfire", "Flood"}
    ensures ShouldContinue(s) == "risk"
  {
    var kind := s.disaster.value.kind;
    assert Trimmed(kind);
    StripTrimmed(kind);
  }

  // ---------------------------------------------------------------------
  // Runs of the pipeline's graph

  /** One step of a run: the node runs, its outgoing edge is followed and
      the rest of the run is prefixed with this node and what it sent. */
  lemma RunStep(g: Graph, fuel: nat, stage: Stage, s: DisasterState, io: Services,
                out: Output, next: Target, rest: Outcome)
    requires fuel > 0 && stage in g.nodes
    requires ExecNode(stage, s, io) == Success(out)
    requires Next(g, From(stage), out.state) == Success(next)
    requires Run(g, fuel - 1, next, out.state, io) == Success(rest)
    ensures Run(g, fuel, To(stage), s, io)
         == Success(Outcome(rest.final, [stage] + rest.trace, out.sent + rest.sent))
  {
  }

  /** A node that fails aborts the run with its error. */
  lemma RunNodeFails(g: Graph, fuel: nat, stage: Stage, s: DisasterState, io: Services, e: Error)
    requires fuel > 0 && stage in g.nodes
    requires ExecNode(stage, s, io) == Failure(e)
    ensures Run(g, fuel, To(stage), s, io) == Failure(e)
  {
  }

  /** A failure later in the run aborts the whole run with that error. */
  lemma RunRestFails(g: Graph, fuel: nat, stage: Stage, s: DisasterState, io: Services,
                     out: Output, next: Target, e: Error)
    requires fuel > 0 && stage in g.nodes
    requires ExecNode(stage, s, io) == Success(out)
    requires Next(g, From(stage), out.state) == Success(next)
    requires Run(g, fuel - 1, next, out.state, io) == Failure(e)
    ensures Run(g, fuel, To(stage), s, io) == Failure(e)
  {
  }

  /** A detection call that raises aborts the run with no state. */
  lemma DetectionCallAborts(imagePath: string, io: Services, fuel: nat)
    requires io.detection.CallRaised? && fuel >= 1
    ensures Invoke(PipelineGraph(), imagePath, io, fuel) == Failure(ServiceError)
  {
  }

  /** A detection reply that does not parse aborts the run with no state. */
  lemma ParseFailureAborts(imagePath: string, io: Services, fuel: nat)
    requires io.detection == Replied(None) && fuel >= 1
    ensures Invoke(PipelineGraph(), imagePath, io, fuel) == Failure(ParseError)
  {
  }

  /** No disaster: the run stops after detect, with `disaster` set and
      neither `risk_level` nor `action_plan`, and sends nothing; the risk
      and plan services are never called. */
  lemma EarlyExit(imagePath: string, d: Detection, io: Services, fuel: nat)
    requires io.detection == Replied(Some(d)) && IsNoDisaster(d.kind)
    requires fuel >= 1
    ensures Invoke(PipelineGraph(), imagePath, io, fuel)
         == Success(Outcome(DisasterState(imagePath, Some(d), None, None), [Detect], []))
  {
    var g, s := PipelineGraph(), Initial(imagePath);
    var s1 := s.(disaster := Some(d));
    assert ExecNode(Detect, s, io) == Success(Output(s1, []));
    assert ShouldContinue(s1) == "end";
    assert Next(g, From(Detect), s1) == Success(End);
    var none: seq<Notification> := [];
    assert [Detect] + [] == [Detect] && none + none == none;
    RunStep(g, fuel, Detect, s, io, Output(s1, none), End, Outcome(s1, [], none));
    assert Run(g, fuel, To(Detect), s, io) == Success(Outcome(s1, [Detect], []));
    assert Next(g, Start, s) == Success(To(Detect));
    assert Invoke(g, imagePath, io, fuel) == Run(g, fuel, To(Detect), s, io);
  }

  /** From the plan node on, with the risk level stored: the plan and
      then the notification run. */
  lemma RunFromPlan(s2: DisasterState, io: Services, plan: string, fuel: nat)
    requires s2.disaster.Some? && s2.riskLevel.Some? && s2.actionPlan.None?
    requires io.planReply == Replied(plan)
    requires fuel >= 2
    ensures Run(PipelineGraph(), fuel, To(Plan), s2, io)
         == Success(Outcome(
              s2.(actionPlan := Some(Strip(plan))),
              [Plan, SendToN8n],
              [Notification(
                 Payload(s2.disaster.value.kind, s2.riskLevel.value, Location, Strip(plan)),
                 io.delivery)]))
  {
    var g := PipelineGraph();
    var s3 := s2.(actionPlan := Some(Strip(plan)));
    var n := Notification(
      Payload(s2.disaster.value.kind, s2.riskLevel.value, Location, Strip(plan)), io.delivery);
    assert ExecNode(SendToN8n, s3, io) == Success(Output(s3, [n]));
    assert [SendToN8n] + [] == [SendToN8n] && [n] + [] == [n];
    RunStep(g, fuel - 1, SendToN8n, s3, io, Output(s3, [n]), End, Outcome(s3, [], []));
    assert ExecNode(Plan, s2, io) == Success(Output(s3, []));
    assert [Plan] + [SendToN8n] == [Plan, SendToN8n] && [] + [n] == [n];
    RunStep(g, fuel, Plan, s2, io, Output(s3, []), To(SendToN8n), Outcome(s3, [SendToN8n], [n]));
  }

  /** From the risk node on, with the detection stored: risk, plan and the
      notification run in that order. */
  lemma RunFromRisk(s1: DisasterState, io: Services, risk: string, plan: string, fuel: nat)
    requires s1.disaster.Some? && s1.riskLevel.None? && s1.actionPlan.None?
    requires io.riskReply == Replied(risk) && io.planReply == Replied(plan)
    requires fuel >= 3
    ensures Run(PipelineGraph(), fuel, To(Risk), s1, io)
         == Success(Outcome(
              s1.(riskLevel := Some(Strip(risk)), actionPlan := Some(Strip(plan))),
              [Risk, Plan, SendToN8n],
              [Notification(
                 Payload(s1.disaster.value.kind, Strip(risk), Location, Strip(plan)),
                 io.delivery)]))
  {
    var g := PipelineGraph();
    var s2 := s1.(riskLevel := Some(Strip(risk)));
    var s3 := s2.(actionPlan := Some(Strip(plan)));
    var n := Notification(
      Payload(s1.disaster.value.kind, Strip(risk), Location, Strip(plan)), io.delivery);
    RunFromPlan(s2, io, plan, fuel - 1);
    assert ExecNode(Risk, s1, io) == Success(Output(s2, []));
    assert [Risk] + [Plan, SendToN8n] == [Risk, Plan, SendToN8n] && [] + [n] == [n];
    RunStep(g, fuel, Risk, s1, io, Output(s2, []), To(Plan), Outcome(s3, [Plan, SendToN8n], [n]));
  }

  /** A disaster: detect, risk, plan and the notification run in that
      order; the final state holds the stripped risk and plan replies, and
      the one notification carries the detected type, the risk level, the
      fixed location and the plan. */
  lemma FullRun(imagePath: string, d: Detection, risk: string, plan: string, io: Services, fuel: nat)
    requires io.detection == Replied(Some(d)) && !IsNoDisaster(d.kind)
    requires io.riskReply == Replied(risk) && io.planReply == Replied(plan)
    requires fuel >= 4
    ensures Invoke(PipelineGraph(), imagePath, io, fuel)
         == Success(Outcome(
              DisasterState(imagePath, Some(d), Some(Strip(risk)), Some(Strip(plan))),
              [Detect, Risk, Plan, SendToN8n],
              [Notification(Payload(d.kind, Strip(risk), Location, Strip(plan)), io.delivery)]))
  {
    var g, s0 := PipelineGraph(), Initial(imagePath);
    var s1 := s0.(disaster := Some(d));
    var n := Notification(Payload(d.kind, Strip(risk), Location, Strip(plan)), io.delivery);
    var s3 := s1.(riskLevel := Some(Strip(risk)), actionPlan := Some(Strip(plan)));
    RunFromRisk(s1, io, risk, plan, fuel - 1);
    assert ExecNode(Detect, s0, io) == Success(Output(s1, []));
    assert Next(g, From(Detect), s1) == Success(To(Risk));
    assert [Detect] + [Risk, Plan, SendToN8n] == [Detect, Risk, Plan, SendToN8n] && [] + [n] == [n];
    RunStep(g, fuel, Detect, s0, io, Output(s1, []), To(Risk), Outcome(s3, [Risk, Plan, SendToN8n], [n]));
  }

  /** A disaster whose risk call raises: the run aborts with a service
      error. */
  lemma RiskCallAborts(imagePath: string, d: Detection, io: Services, fuel: nat)
    requires io.detection == Replied(Some(d)) && !IsNoDisaster(d.kind)
    requires io.riskReply.CallRaised?
    requires fuel >= 4
    ensures Invoke(PipelineGraph(), imagePath, io, fuel) == Failure(ServiceError)
  {
    var g, s0 := PipelineGraph(), Initial(imagePath);
    var s1 := s0.(disaster := Some(d));
    RunNodeFails(g, fuel - 1, Risk, s1, io, ServiceError);
    assert ExecNode(Detect, s0, io) == Success(Output(s1, []));
    assert Next(g, From(Detect), s1) == Success(To(Risk));
    RunRestFails(g, fuel, Detect, s0, io, Output(s1, []), To(Risk), ServiceError);
  }

  /** A disaster whose plan call raises: the run aborts at the plan node
      with a service error. */
  lemma PlanCallAborts(imagePath: string, d: Detection, risk: string, io: Services, fuel: nat)
    requires io.detection == Replied(Some(d)) && !IsNoDisaster(d.kind)
    requires io.riskReply == Replied(risk) && io.planReply.CallRaised?
    requires fuel >= 4
    ensures Invoke(PipelineGraph(), imagePath, io, fuel) == Failure(ServiceError)
  {
    var g, s0 := PipelineGraph(), Initial(imagePath);
    var s1 := s0.(disaster := Some(d));
    var s2 := s1.(riskLevel := Some(Strip(risk)));
    RunNodeFails(g, fuel - 2, Plan, s2, io, ServiceError);
    assert ExecNode(Risk, s1, io) == Success(Output(s2, []));
    RunRestFails(g, fuel - 1, Risk, s1, io, Output(s2, []), To(Plan), ServiceError);
    assert ExecNode(Detect, s0, io) == Success(Output(s1, []));
    assert Next(g, From(Detect), s1) == Success(To(Risk));
    RunRestFails(g, fuel, Detect, s0, io, Output(s1, []), To(Risk), ServiceError);
  }

  /** The pipeline's consistency rule, for a run with four steps to spare.
      A raising detection call or an unparseable reply aborts the run. After
      a parsed detection, the run succeeds exactly when the type is "none" or
      both later calls replied. On success, `risk_level` and `action_plan`
      are present exactly when the type is not "none". The only errors are
      service and parse errors: no node ever misses a key it reads. */
  lemma RunInvariant(imagePath: string, io: Services, fuel: nat)
    requires fuel >= 4
    ensures var r := Invoke(PipelineGraph(), imagePath, io, fuel);
      && (r.Failure? ==> r.error == ServiceError || r.error == ParseError)
      && (io.detection.CallRaised? ==> r == Failure(ServiceError))
      && (io.detection == Replied(None) ==> r == Failure(ParseError))
      && (io.detection.Replied? && io.detection.value.Some? ==>
            var d := io.detection.value.value;
            && (r.Success? <==> IsNoDisaster(d.kind) || (io.riskReply.Replied? && io.planReply.Replied?))
            && (r.Success? ==>
                  && r.value.final.imagePath == imagePath
                  && r.value.final.disaster == Some(d)
                  && (r.value.final.riskLevel.Some? <==> !IsNoDisaster(d.kind))
                  && (r.value.final.actionPlan.Some? <==> !IsNoDisaster(d.kind))
                  && (r.value.trace == [Detect] <==> IsNoDisaster(d.kind))
                  && (r.value.trace == [Detect] || r.value.trace == [Detect, Risk, Plan, SendToN8n])))
  {
    match io.detection
    case CallRaised =>
      DetectionCallAborts(imagePath, io, fuel);
    case Replied(None) =>
      ParseFailureAborts(imagePath, io, fuel);
    case Replied(Some(d)) =>
      if IsNoDisaster(d.kind) {
        EarlyExit(imagePath, d, io, fuel);
      } else if io.riskReply.CallRaised? {
        RiskCallAborts(imagePath, d, io, fuel);
      } else if io.planReply.CallRaised? {
        PlanCallAborts(imagePath, d, io.riskReply.value, io, fuel);
      } else {
        FullRun(imagePath, d, io.riskReply.value, io.planReply.value, io, fuel);
      }
  }

  /** Example: a wildfire at 85% confidence rated "HIGH" notifies
      with crisis type "Wildfire" and severity "HIGH". */
  lemma WildfireScenario(imagePath: string, description: string, plan: string, delivery: Delivery)
    ensures var io := Services(Replied(Some(Detection("Wildfire", description, 85))), Replied("HIGH"), Replied(plan), delivery);
      var r := Invoke(PipelineGraph(), imagePath, io, 4);
      && r.Success?
      && |r.value.sent| == 1
      && r.value.sent[0].payload.crisisType == "Wildfire"
      && r.value.sent[0].payload.severity == "HIGH"
  {
    var d := Detection("Wildfire", description, 85);
    var io := Services(Replied(Some(d)), Replied("HIGH"), Replied(plan), delivery);
    DisasterTypesGoToRisk(Initial(imagePath).(disaster := Some(d)));
    StripTrimmed("HIGH");
    FullRun(imagePath, d, "HIGH", plan, io, 4);
  }

  // ---------------------------------------------------------------------
  // The notification is a best-effort side effect

  /** Changing how the webhook call ends changes neither whether a run
      succeeds nor its final state, its stages or what it sent: on any
      graph, from any point, with any step bound. */
  lemma {:induction false} DeliveryNeverMatters(g: Graph, fuel: nat, at: Target, s: DisasterState, io: Services, other: Delivery)
    ensures var r1 := Run(g, fuel, at, s, io);
      var r2 := Run(g, fuel, at, s, io.(delivery := other));
      && (r1.Success? <==> r2.Success?)
      && (r1.Failure? ==> r1 == r2)
      && (r1.Success? ==>
            && r1.value.final == r2.value.final
            && r1.value.trace == r2.value.trace
            && |r1.value.sent| == |r2.value.sent|
            && forall k :: 0 <= k < |r1.value.sent| ==> r1.value.sent[k].payload == r2.value.sent[k].payload)
    decreases fuel
  {
    var io2 := io.(delivery := other);
    match at
    case End =>
    case To(stage) =>
      if fuel > 0 && stage in g.nodes {
        var o1, o2 := ExecNode(stage, s, io), ExecNode(stage, s, io2);
        assert o1.Success? <==> o2.Success?;
        assert o1.Failure? ==> o1 == o2;
        if o1.Success? {
          assert o1.value.state == o2.value.state;
          assert |o1.value.sent| == |o2.value.sent|;
          assert forall k :: 0 <= k < |o1.value.sent| ==> o1.value.sent[k].payload == o2.value.sent[k].payload;
          var t := o1.value.state;
          var next := Next(g, From(stage), t);
          if next.Success? {
            DeliveryNeverMatters(g, fuel - 1, next.value, t, io, other);
            var rest1, rest2 := Run(g, fuel - 1, next.value, t, io), Run(g, fuel - 1, next.value, t, io2);
            if rest1.Success? {
              var sent1, sent2 := o1.value.sent + rest1.value.sent, o2.value.sent + rest2.value.sent;
              assert Run(g, fuel, at, s, io).value.sent == sent1;
              assert Run(g, fuel, at, s, io2).value.sent == sent2;
              forall k | 0 <= k < |sent1| ensures sent1[k].payload == sent2[k].payload {
                if k >= |o1.value.sent| {
                  assert sent1[k] == rest1.value.sent[k - |o1.value.sent|];
                  assert sent2[k] == rest2.value.sent[k - |o1.value.sent|];
                }
              }
            }
          }
        }
      }
  }

  /** For the pipeline: a webhook that always fails still leaves a run
      that succeeds with the same, fully populated state. */
  lemma FailingWebhookStillCompletes(imagePath: string, d: Detection, risk: string, plan: string, io: Services, fuel: nat)
    requires io.detection == Replied(Some(d)) && !IsNoDisaster(d.kind)
    requires io.riskReply == Replied(risk) && io.planReply == Replied(plan)
    requires fuel >= 4
    ensures var r := Invoke(PipelineGraph(), imagePath, io.(delivery := Raised), fuel);
      && r.Success?
      && Invoke(PipelineGraph(), imagePath, io, fuel).Success?
      && r.value.final == Invoke(PipelineGraph(), imagePath, io, fuel).value.final
      && r.value.final.riskLevel.Some? && r.value.final.actionPlan.Some?
  {
    FullRun(imagePath, d, risk, plan, io, fuel);
    FullRun(imagePath, d, risk, plan, io.(delivery := Raised), fuel);
  }
}
