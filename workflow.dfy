/** The disaster pipeline of `DisasterResponseAgent`: the state record, the
    routing test, the four nodes with their external services passed in as
    values, the graph that `build_workflow` wires, and a run of that graph. */
module Workflow {
  import opened Wrappers
  import opened PyText

  /** The parsed JSON object the vision service returns for detection:
      keys `type`, `description` and `confidence_level`. */
  datatype Detection = Detection(kind: string, description: string, confidence: int)

  /** `DisasterState`: `image_path` is the input of a run; each of the other
      keys is absent until the stage that sets it has run. */
  datatype DisasterState = DisasterState(
    imagePath: string,
    disaster: Option<Detection>,
    riskLevel: Option<string>,
    actionPlan: Option<string>)

  /** The state a run starts from: only `image_path` is set. */
  function Initial(imagePath: string): DisasterState {
    DisasterState(imagePath, None, None, None)
  }

  /** What aborts a run: a service call that raised, an unparseable
      detection reply (`json.loads`), a key a node reads that is not in the
      state (`KeyError`), or a graph the runtime cannot follow. */
  datatype Error =
    | ServiceError
    | ParseError
    | MissingKey(key: string)
    | NoEdge(from: Endpoint)
    | UnknownNode(stage: Stage)
    | UnknownRoute(route: string)
    | StepLimit

  /** How the POST to the webhook ended: a response with some status code,
      or an exception (connection error, timeout). */
  datatype Delivery = Delivered(status: int) | Raised

  /** How a call to an inference service ended: with a reply, or with an
      exception (network, authentication, rate limit, unreadable image). */
  datatype Reply<+T> = Replied(value: T) | CallRaised

  /** The replies of the external services for one run: the detection
      reply (`Replied(None)` when it is not valid JSON), the risk reply, the
      plan reply and the outcome of the webhook call. */
  datatype Services = Services(
    detection: Reply<Option<Detection>>,
    riskReply: Reply<string>,
    planReply: Reply<string>,
    delivery: Delivery)

  // ---------------------------------------------------------------------
  // Routing

  /** The test `t.strip().lower() == "none"` that decides whether a
      detection found no disaster. */
  predicate IsNoDisaster(kind: string)
    ensures IsNoDisaster(kind) <==> Strip(Lower(kind)) == "none"
    ensures IsNoDisaster(kind) ==> |kind| >= 4
  {
    LowerStrip(kind);
    Lower(Strip(kind)) == "none"
  }

  /** `should_continue`: "end" for no disaster, "risk" for anything else. */
  function ShouldContinue(s: DisasterState): (r: string)
    requires s.disaster.Some?
    ensures r == "end" || r == "risk"
    ensures r == "end" <==> IsNoDisaster(s.disaster.value.kind)
  {
    if IsNoDisaster(s.disaster.value.kind) then "end" else "risk"
  }

  // ---------------------------------------------------------------------
  // Nodes

  /** `detect_node`: stores the parsed detection under `disaster`; a call
      that raises or a reply that does not parse aborts with nothing
      stored. */
  function DetectNode(s: DisasterState, reply: Reply<Option<Detection>>): (r: Result<DisasterState, Error>)
    ensures reply.CallRaised? ==> r == Failure(ServiceError)
    ensures reply == Replied(None) ==> r == Failure(ParseError)
    ensures reply.Replied? && reply.value.Some? ==> r.Success? && r.value.disaster == reply.value
    ensures r.Success? ==> r.value == s.(disaster := r.value.disaster)
  {
    match reply
    case CallRaised => Failure(ServiceError)
    case Replied(None) => Failure(ParseError)
    case Replied(Some(d)) => Success(s.(disaster := Some(d)))
  }

  /** `risk_node`: reads the description, calls the service, and stores the
      reply, stripped and otherwise unchecked, under `risk_level`. */
  function RiskNode(s: DisasterState, reply: Reply<string>): (r: Result<DisasterState, Error>)
    ensures s.disaster.None? ==> r == Failure(MissingKey("disaster"))
    ensures s.disaster.Some? && reply.CallRaised? ==> r == Failure(ServiceError)
    ensures s.disaster.Some? && reply.Replied? ==> r.Success? && r.value.riskLevel == Some(Strip(reply.value))
    ensures r.Success? ==> Trimmed(r.value.riskLevel.value)
    ensures r.Success? ==> r.value == s.(riskLevel := r.value.riskLevel)
  {
    if s.disaster.None? then Failure(MissingKey("disaster"))
    else if reply.CallRaised? then Failure(ServiceError)
    else Success(s.(riskLevel := Some(Strip(reply.value))))
  }

  /** `plan_node`: reads the description and then `risk_level`, calls the
      service, and stores the reply, stripped, under `action_plan`. */
  function PlanNode(s: DisasterState, reply: Reply<string>): (r: Result<DisasterState, Error>)
    ensures s.disaster.None? ==> r == Failure(MissingKey("disaster"))
    ensures s.disaster.Some? && s.riskLevel.None? ==> r == Failure(MissingKey("risk_level"))
    ensures s.disaster.Some? && s.riskLevel.Some? && reply.CallRaised? ==> r == Failure(ServiceError)
    ensures s.disaster.Some? && s.riskLevel.Some? && reply.Replied?
        ==> r.Success? && r.value.actionPlan == Some(Strip(reply.value))
    ensures r.Success? ==> Trimmed(r.value.actionPlan.value)
    ensures r.Success? ==> r.value == s.(actionPlan := r.value.actionPlan)
  {
    if s.disaster.None? then Failure(MissingKey("disaster"))
    else if s.riskLevel.None? then Failure(MissingKey("risk_level"))
    else if reply.CallRaised? then Failure(ServiceError)
    else Success(s.(actionPlan := Some(Strip(reply.value))))
  }

  /** The fixed location every notification reports. */
  const Location: string := "San Diego, California"

  /** The webhook body, without its rendered HTML and its timestamp. */
  datatype Payload = Payload(crisisType: string, severity: string, location: string, actionPlan: string)

  /** One POST to the webhook: what was sent and how the call ended. */
  datatype Notification = Notification(payload: Payload, delivery: Delivery)

  /** `send_to_n8n_node`: posts the payload built from the state and returns
      the state it was given, however the POST ends. It reads
      `action_plan`, then `disaster`, then `risk_level`. */
  function SendToN8nNode(s: DisasterState, delivery: Delivery): (r: Result<(DisasterState, Notification), Error>)
    ensures r.Success? <==> s.actionPlan.Some? && s.disaster.Some? && s.riskLevel.Some?
    ensures s.actionPlan.None? ==> r == Failure(MissingKey("action_plan"))
    ensures s.actionPlan.Some? && s.disaster.None? ==> r == Failure(MissingKey("disaster"))
    ensures s.actionPlan.Some? && s.disaster.Some? && s.riskLevel.None? ==> r == Failure(MissingKey("risk_level"))
    ensures r.Success? ==> r.value.0 == s
    ensures r.Success? ==> r.value.1.delivery == delivery
    ensures r.Success? ==> r.value.1.payload == Payload(s.disaster.value.kind, s.riskLevel.value, Location, s.actionPlan.value)
  {
    if s.actionPlan.None? then Failure(MissingKey("action_plan"))
    else if s.disaster.None? then Failure(MissingKey("disaster"))
    else if s.riskLevel.None? then Failure(MissingKey("risk_level"))
    else
      var payload := Payload(s.disaster.value.kind, s.riskLevel.value, Location, s.actionPlan.value);
      Success((s, Notification(payload, delivery)))
  }

  // ---------------------------------------------------------------------
  // The graph

  datatype Stage = Detect | Risk | Plan | SendToN8n

  /** Where an edge starts: the graph's entry, or a node. */
  datatype Endpoint = Start | From(stage: Stage)

  /** Where an edge leads: a node, or the end of the run. */
  datatype Target = To(stage: Stage) | End

  /** An unconditional edge, or a conditional one whose router is
      `should_continue` and whose labels map to targets. */
  datatype Edge = Fixed(target: Target) | Branch(paths: map<string, Target>)

  /** A compiled graph: the registered nodes and the edge out of each
      endpoint. */
  datatype Graph = Graph(nodes: set<Stage>, edges: map<Endpoint, Edge>)

  /** The builder `StateGraph`, filled in by successive calls. */
  class StateGraph {
    var nodes: set<Stage>
    var edges: map<Endpoint, Edge>

    constructor ()
      ensures nodes == {} && edges == map[]
    {
      nodes := {};
      edges := map[];
    }

    method AddNode(stage: Stage)
      modifies this
      ensures nodes == old(nodes) + {stage} && edges == old(edges)
    {
      nodes := nodes + {stage};
    }

    method AddEdge(from: Endpoint, to: Target)
      modifies this
      ensures edges == old(edges)[from := Fixed(to)] && nodes == old(nodes)
    {
      edges := edges[from := Fixed(to)];
    }

    method AddConditionalEdges(from: Stage, paths: map<string, Target>)
      modifies this
      ensures edges == old(edges)[From(from) := Branch(paths)] && nodes == old(nodes)
    {
      edges := edges[From(from) := Branch(paths)];
    }

    function Compile(): Graph
      reads this
    {
      Graph(nodes, edges)
    }
  }

  /** The graph of the pipeline: detect, then risk unless there is no
      disaster, then plan, then the notification, then the end. */
  function PipelineGraph(): Graph {
    Graph(
      {Detect, Risk, Plan, SendToN8n},
      map[
        Start := Fixed(To(Detect)),
        From(Detect) := Branch(map["risk" := To(Risk), "end" := End]),
        From(Risk) := Fixed(To(Plan)),
        From(Plan) := Fixed(To(SendToN8n)),
        From(SendToN8n) := Fixed(End)])
  }

  /** `build_workflow`: registers the four nodes and wires their edges. */
  method BuildWorkflow() returns (g: Graph)
    ensures g == PipelineGraph()
  {
    var builder := new StateGraph();
    builder.AddNode(Detect);
    builder.AddNode(Risk);
    builder.AddNode(Plan);
    builder.AddNode(SendToN8n);
    builder.AddEdge(Start, To(Detect));
    builder.AddConditionalEdges(Detect, map["risk" := To(Risk), "end" := End]);
    builder.AddEdge(From(Risk), To(Plan));
    builder.AddEdge(From(Plan), To(SendToN8n));
    builder.AddEdge(From(SendToN8n), End);
    g := builder.Compile();
  }

  /** `DisasterResponseAgent`: builds its workflow once, on creation. */
  class DisasterResponseAgent {
    const workflow: Graph

    constructor ()
      ensures workflow == PipelineGraph()
    {
      var g := BuildWorkflow();
      workflow := g;
    }
  }

  // ---------------------------------------------------------------------
  // Running the graph

  /** What one node did: the new state and the notifications it sent. */
  datatype Output = Output(state: DisasterState, sent: seq<Notification>)

  /** What a run produced: the final state, the stages in the order they
      ran, and every notification sent. */
  datatype Outcome = Outcome(final: DisasterState, trace: seq<Stage>, sent: seq<Notification>)

  /** Runs one node against the service replies. */
  function ExecNode(stage: Stage, s: DisasterState, io: Services): (r: Result<Output, Error>)
    ensures r.Success? && stage != SendToN8n ==> r.value.sent == []
    ensures r.Success? ==> r.value.state.imagePath == s.imagePath
  {
    match stage
    case Detect =>
      var t :- DetectNode(s, io.detection);
      Success(Output(t, []))
    case Risk =>
      var t :- RiskNode(s, io.riskReply);
      Success(Output(t, []))
    case Plan =>
      var t :- PlanNode(s, io.planReply);
      Success(Output(t, []))
    case SendToN8n =>
      var out :- SendToN8nNode(s, io.delivery);
      Success(Output(out.0, [out.1]))
  }

  /** Follows the edge out of `from`; a conditional edge asks
      `should_continue`, which reads `disaster`. */
  function Next(g: Graph, from: Endpoint, s: DisasterState): (r: Result<Target, Error>)
    ensures from !in g.edges ==> r == Failure(NoEdge(from))
  {
    if from !in g.edges then Failure(NoEdge(from))
    else match g.edges[from]
      case Fixed(t) => Success(t)
      case Branch(paths) =>
        if s.disaster.None? then Failure(MissingKey("disaster"))
        else
          var route := ShouldContinue(s);
          if route in paths then Success(paths[route]) else Failure(UnknownRoute(route))
  }

  /** Runs the graph from `at` for at most `fuel` node executions. A
      successful run executed only registered nodes, and no node changes
      `image_path`. */
  function Run(g: Graph, fuel: nat, at: Target, s: DisasterState, io: Services): (r: Result<Outcome, Error>)
    ensures r.Success? ==> |r.value.trace| <= fuel
    ensures r.Success? ==> forall i :: 0 <= i < |r.value.trace| ==> r.value.trace[i] in g.nodes
    ensures r.Success? ==> r.value.final.imagePath == s.imagePath
    ensures at == End ==> r == Success(Outcome(s, [], []))
    ensures at != End && fuel == 0 ==> r == Failure(StepLimit)
    decreases fuel
  {
    match at
    case End => Success(Outcome(s, [], []))
    case To(stage) =>
      if fuel == 0 then Failure(StepLimit)
      else if stage !in g.nodes then Failure(UnknownNode(stage))
      else
        var out :- ExecNode(stage, s, io);
        var next :- Next(g, From(stage), out.state);
        var rest :- Run(g, fuel - 1, next, out.state, io);
        Success(Outcome(rest.final, [stage] + rest.trace, out.sent + rest.sent))
  }

  /** `workflow.invoke({"image_path": imagePath})`: starts from a state
      holding only `image_path` and follows the edge out of START. */
  function Invoke(g: Graph, imagePath: string, io: Services, fuel: nat): (r: Result<Outcome, Error>)
    ensures Start !in g.edges ==> r == Failure(NoEdge(Start))
    ensures r.Success? ==> |r.value.trace| <= fuel
    ensures r.Success? ==> forall i :: 0 <= i < |r.value.trace| ==> r.value.trace[i] in g.nodes
    ensures r.Success? ==> r.value.final.imagePath == imagePath
  {
    var s := Initial(imagePath);
    var first :- Next(g, Start, s);
    Run(g, fuel, first, s, io)
  }
}
