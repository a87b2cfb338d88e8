# HazardNet disaster pipeline, modelled in Dafny

HazardNet takes a photo and asks an external vision service whether it shows
a wildfire or a flood. If it shows neither, the run stops. Otherwise the
pipeline asks for a severity rating, then for an action plan, and posts a
notification to a webhook. A Streamlit page shows the result.

This project models the orchestration core of `DisasterResponseAgent`
(`workflow.py`) and the two display rules of the results panel (`app.py`):

- `wrappers.dfy`: `Option` and `Result`. `Result` stands for a Python
  exception and works with `:-`.
- `pytext.dfy`: the ASCII part of Python's `str.strip()`, `str.lower()` and
  the substring test `w in s`. It includes the lemmas these rules need:
  - strip removes a whitespace prefix and suffix and nothing else;
  - padding with whitespace does not change the result of strip;
  - `lower` commutes with `strip`;
  - the substring search finds `w` exactly when `w` occurs at some offset.
- `workflow.dfy`: the pipeline itself.
  - The state record `DisasterState` has `Option` fields that are filled in
    stage by stage.
  - The routing test `should_continue`.
  - The four nodes, as functions. The external services are passed in as
    values (`Services`):
    - the detection reply: parsed, not JSON, or a call that raised;
    - the risk reply and the plan reply: each a string, or a call that
      raised;
    - how the webhook POST ended.
  - The builder `StateGraph`, a class whose methods update its node set and
    edge map. `BuildWorkflow` calls them as `build_workflow` does and is
    proved to produce the graph `PipelineGraph()`.
  - `Run` and `Invoke` execute a compiled graph node by node. Each node's
    output becomes the new state, and the outgoing edge is followed. A
    conditional edge asks `should_continue`. A `KeyError` becomes
    `Failure(MissingKey(..))`.
- `workflow_runs.dfy`: what the routing test and runs of `PipelineGraph()`
  guarantee:
  - the early exit;
  - the full stage order;
  - a raising service call aborts the run;
  - the consistency rule between the detected type and `risk_level` /
    `action_plan`;
  - a detection reply that does not parse aborts the run;
  - how a webhook call ends never changes a run.
- `app.dfy`: the "No Disaster Detected" view and the three-way colouring of
  the risk level.

Python's `strip()` and `lower()` are modelled on ASCII only. The whitespace
characters are 9-13, 28-31 and 32, which are the ASCII characters for which
`str.isspace()` holds. Lower-casing changes only `A`-`Z`.

The model follows what the code checks, not what the prompts ask for:
- The prompts ask for the type 'Wildfire', 'Flood' or 'None' (prompts.py:7)
  and for one of CRITICAL, HIGH, MEDIUM, LOW (prompts.py:48). Nothing in the
  code checks the replies, so the type and the risk level are free strings.
- The confidence value is stored but never read.

## Model

| member | source | states |
|---|---|---|
| `PyText.StripSplit` | workflow.py:53 | `strip()` removes a run of whitespace at each end and nothing else; what is left has no whitespace at either end |
| `PyText.StripPadded` | workflow.py:53 | extra whitespace around a string does not change what `strip()` returns |
| `PyText.LowerStrip` | app.py:98 | `s.strip().lower()` equals `s.lower().strip()` |
| `PyText.ContainsIff` | app.py:126-129 | the substring test `w in s` holds exactly when `w` occurs in `s` at some offset |
| `Workflow.IsNoDisaster` | workflow.py:53 | the no-disaster test `t.strip().lower() == "none"` gives the same answer as `t.lower().strip() == "none"`, and it holds only for strings of at least four characters |
| `Workflow.ShouldContinue` | workflow.py:51-56 | the router returns only "end" or "risk", and "end" exactly when the stripped, lower-cased type is "none" |
| `Workflow.DetectNode` | workflow.py:101-104 | a call that raises aborts with a service error, and a reply that does not parse aborts with a parse error. Otherwise the parsed object is stored under `disaster` and nothing else changes |
| `Workflow.RiskNode` | workflow.py:106-110 | without `disaster` it fails with a missing key, and a call that raises fails with a service error. Otherwise `risk_level` becomes the stripped reply, unvalidated and with no whitespace at its ends, and nothing else changes |
| `Workflow.PlanNode` | workflow.py:112-116 | it fails on a missing `disaster`, then on a missing `risk_level`, then on a call that raises, in that order. Otherwise `action_plan` becomes the stripped reply and nothing else changes |
| `Workflow.SendToN8nNode` | workflow.py:118-210 | it fails only on a missing key, checking `action_plan`, then `disaster`, then `risk_level` as the code reads them; otherwise it returns the state it was given, whatever the delivery outcome, and sends a payload whose fields are the type, the risk level, "San Diego, California" and the plan |
| `Workflow.StateGraph.constructor` | workflow.py:26 | a new builder has no nodes and no edges |
| `Workflow.StateGraph.AddNode` | workflow.py:29-32 | registers one node and leaves the edges alone |
| `Workflow.StateGraph.AddEdge` | workflow.py:44-46 | sets the unconditional edge out of one endpoint and leaves the nodes alone |
| `Workflow.StateGraph.AddConditionalEdges` | workflow.py:36-43 | sets the conditional edge out of one node, with its label-to-target map |
| `Workflow.BuildWorkflow` | workflow.py:24-48 | the builder calls produce exactly the pipeline graph: four nodes; START to detect; detect to risk or END by the router's label; risk to plan; plan to send_to_n8n; send_to_n8n to END |
| `Workflow.DisasterResponseAgent.constructor` | workflow.py:21-22 | the agent holds the graph `build_workflow` produces |
| `Workflow.Run` | app.py:74-76 | executing a compiled graph runs at most `fuel` nodes, and only registered ones. It keeps `image_path`, stops at END with the state unchanged, and fails with the step limit when the fuel runs out |
| `Workflow.Invoke` | app.py:74-76 | `workflow.invoke({"image_path": p})` fails when START has no edge. A successful run executed at most `fuel` registered nodes and ends with `image_path` = p |
| `WorkflowRuns.NoDisasterPadded` | workflow.py:53 | any letter-case variant of "none", with any whitespace around it, passes the no-disaster test |
| `WorkflowRuns.NoDisasterShape` | workflow.py:53 | a type passes the no-disaster test only if it is whitespace, then a letter-case variant of "none", then whitespace |
| `WorkflowRuns.NoDisasterIgnoresCase` | workflow.py:53 | two types that differ only in letter case route the same way |
| `WorkflowRuns.NoneSpellingsEndTheRun` | workflow.py:51-56 | "none", " None " and "NONE" all route to "end" |
| `WorkflowRuns.DisasterTypesGoToRisk` | workflow.py:51-56 | "Wildfire" and "Flood" route to "risk" |
| `WorkflowRuns.DetectionCallAborts` | workflow.py:101-103 | a detection call that raises aborts the run with a service error and no state |
| `WorkflowRuns.ParseFailureAborts` | workflow.py:101-104 | a detection reply that does not parse aborts the run with a parse error and no state |
| `WorkflowRuns.EarlyExit` | workflow.py:35-43 | with a no-disaster type the run executes only detect. The final state has `image_path` and `disaster` but no `risk_level` and no `action_plan`, and nothing is sent |
| `WorkflowRuns.RunFromPlan` | workflow.py:45-46 | from the plan node, the plan runs and then the notification, which sends the stored type and risk level with the stripped plan |
| `WorkflowRuns.RunFromRisk` | workflow.py:44-46 | from the risk node, risk, plan and notification run in that order and fill in both remaining keys |
| `WorkflowRuns.FullRun` | workflow.py:35-46 | with any other type the stages run detect, risk, plan, send_to_n8n in that order. The final state holds both stripped replies. The one notification has `crisis_type` = type, `severity` = risk level, the fixed location and `action_plan` = the plan |
| `WorkflowRuns.RiskCallAborts` | workflow.py:106-110 | for a disaster, a risk call that raises aborts the run with a service error |
| `WorkflowRuns.PlanCallAborts` | workflow.py:112-116 | for a disaster, a plan call that raises aborts the run at the plan node with a service error |
| `WorkflowRuns.RunInvariant` | workflow.py:35-116 | a raising detection call or an unparseable reply aborts the run. After a parsed detection, the run succeeds exactly when the type is "none" or both later calls replied. On success, `risk_level` and `action_plan` are present exactly when the type is not "none", and the stages are detect alone or all four. The only errors are service and parse errors |
| `WorkflowRuns.WildfireScenario` | workflow.py:188-195 | a wildfire at 85% rated "HIGH" sends one notification with crisis type "Wildfire" and severity "HIGH" |
| `WorkflowRuns.DeliveryNeverMatters` | workflow.py:197-210 | on any graph, how the webhook call ends changes neither success nor the final state, the stages run or the payloads sent |
| `WorkflowRuns.FailingWebhookStillCompletes` | workflow.py:197-210 | a webhook that always raises still leaves a successful run with the same fully populated state |
| `App.ShowsNoDisaster` | app.py:98 | the panel's no-disaster test holds exactly when the workflow's router returns "end" for the same result |
| `App.ViewAgreesWithRun` | app.py:98-117 | the "No Disaster Detected" view is shown exactly for runs that ended after detect. Every other successful run has the `risk_level` and `action_plan` the detailed view reads |
| `App.Severity` | app.py:125-131 | error exactly when "high", "severe" or "critical" occurs in the lower-cased label. Warning exactly when none of those occurs but "medium" or "moderate" does. Success exactly when none of the five occurs |
| `App.ErrorWins` | app.py:125-127 | a label with "high", "severe" or "critical" anywhere in its lower-cased form is an error, whatever else it contains |
| `App.WarningWhenNoError` | app.py:128-129 | a label with "medium" or "moderate" and no error keyword is a warning |
| `App.SuccessWhenNoKeyword` | app.py:130-131 | a label with none of the five keywords is a success |
| `App.NoKeywordWhenSuccess` | app.py:125-131 | a label shown as success contains none of the five keywords |
| `App.SeverityIgnoresCase` | app.py:125 | a label and its lower-cased form get the same box |
| `App.SeverityOfErrorLabels` | app.py:125-127 | "CRITICAL" and "HIGH" are errors |
| `App.SeverityOfMedium` | app.py:128-129 | "MEDIUM" is a warning |
| `App.SeverityOfLow` | app.py:130-131 | "LOW" and the empty label are successes |

## Left out

- External services. The vision and text model calls (`call_vision_llm`,
  `call_llm`, workflow.py:64-99) and image encoding (workflow.py:60-62) are
  network and file I/O. Their replies are inputs (`Services`). A call that
  raises, for any reason, is the single outcome `CallRaised`.
- JSON. `json.loads` (workflow.py:103) is library code: detection is given
  already parsed, or as a parse failure. The `strip()` applied before parsing
  is part of that. So are a reply whose `type` is missing or not a string and
  a `confidence_level` that is not an integer. The `json.dumps` quoting
  inside prompts (workflow.py:108, 114) and the prompt texts of `prompts.py`
  are not modelled.
- Notification rendering. The markdown-to-HTML conversion (workflow.py:123-126),
  the HTML email template (workflow.py:129-186) and both timestamps are not
  modelled, so `Payload` has no `email_html` and no `timestamp`. The POST
  itself, its URL and timeout, and the `print` logging (workflow.py:197-208)
  are I/O. Only how the call ended is kept.
- Graph runtime internals. `Run` is a plain interpreter of the compiled
  graph, not the library's scheduler. `fuel` bounds the number of node
  executions and stands for the runtime's step limit; the lemmas show that
  four steps are enough for this graph. A failed run records no effects;
  here that loses nothing, because send_to_n8n, the only node with an
  effect, is the last one. Duplicate node names, several
  unconditional edges out of one node, and compile-time validation are not
  modelled.
- WorkflowRuns.RunInvariant: a parsed detection without a `description` key
  makes `risk_node` raise `KeyError` (workflow.py:108). The model cannot
  express that, because `Detection` always has a description.
- Workflow.StateGraph.AddEdge: one unconditional edge per endpoint. A second
  call replaces the first instead of fanning out, because this workflow never
  adds two edges from the same endpoint.
- Workflow.StateGraph.AddConditionalEdges: it replaces any edge out of the
  same node, including an unconditional one, instead of keeping both. This
  workflow never gives one node both kinds.
- Workflow.Run: its contract states only bounds and what every run keeps.
  What runs of this pipeline's graph produce is stated by the WorkflowRuns
  lemmas.
- Workflow.Invoke: the same holds as for `Run`. Its own contract adds only
  the failure when START has no edge.
- The Streamlit page. Page setup, CSS, the upload widget, columns, the report
  download, `st.session_state` bookkeeping and the temporary image file
  (app.py:9-88, 100-110, 133-185) are UI and file-system I/O. Only the
  no-disaster test (app.py:98) and the severity colouring (app.py:125-131) are
  modelled.
- Unicode. Python's full Unicode whitespace and case mapping are
  approximated by their ASCII part.
