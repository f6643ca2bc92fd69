# Travel and career-coach workflows: a Dafny model

This project models the core of a LangGraph application. The application
runs a language-model workflow that can pause for human review. It has
three parts:

- **The state reducer** (`src/state.py`). A step returns a partial state
  that is merged into the thread's state. `messages` is combined with list
  concatenation. Every other key is last-writer-wins. Module `State`
  (`state.dfy`) holds the travel state `AgentState`, its merge `Merge` and
  the errors that steps raise.
- **The travel workflow** (`src/graph.py`). It has four steps: `planner`,
  `weather_tool`, `adjuster` and `human_review`. The workflow pauses before
  `human_review`. Module `Graph` (`graph.dfy`) holds the graph builder
  (`GraphBuilder`), `_build_graph` (`BuildTravelGraph`, which compiles to
  the constant `TravelGraph`) and the two routing functions. Module
  `Workflow` (`workflow.dfy`) holds the checkpointing scheduler. The class
  `TravelWorkflow` keeps a checkpoint per thread: the state plus the pending
  step. Its loop `RunPending` runs steps, saving a checkpoint after each,
  until the next step is the interrupt point, the run ends, or a step
  raises. The loop is proved equal to the specification function `Execute`.
- **The career-coach steps** (`CoachNodes` in `src/nodes.py`). Module
  `Coach` (`coach.dfy`) holds them as pure functions from a coach state to
  a partial update. The language model is an opaque function from a
  `Prompt` to a string. A `Prompt` records only which state values the
  request embeds. Module `Text` (`text.dfy`) supplies the lower-casing and
  substring test the review step uses.

Opaque inputs become parameters. The travel step bodies are one such
parameter (`StepBody`): `src/graph.py` imports `TravelAgentNodes`, and
`src/nodes.py` does not define it. The language model is another
(`Coach.Llm`). Clocks, printing and storage are not modelled.

The model follows the code as written, including where it behaves
differently from what its names and comments suggest:

- `_weather_routing_logic` is modelled as written. Its first operand,
  `"Rainy" in state['weather']`, and its `bad_weather`/`good_weather`
  labels point to a branch on a rainy forecast. Its condition ends in
  `or "Rainy and Cold"`, a non-empty string, so it always returns
  `bad_weather` once the `weather` key exists. The `good_weather` edge is
  therefore never taken. When `weather` is absent, the router raises a
  `KeyError`.
- The coach refiner only needs the `learning_plan`, `human_feedback` and
  `revision_count` keys to be present. An empty feedback string is
  accepted and sent to the model.
- The coach review step's test is a substring test on the lower-cased
  feedback, so any feedback containing `approve` approves, including
  "disapprove".
- The coach state type is imported in `src/nodes.py` but defined nowhere.
  `Coach.CoachState` has the keys the steps use. Its reducer, `MergeCoach`,
  uses the same table as `AgentState`.
- The repository has no coach graph: `CoachWorkflow` is imported by
  `app.py` but not defined. No coach routing is modelled.

## Model

| member | source | states |
|---|---|---|
| `State.MergeSemantics` | src/state.py:5-14 | After a merge, the log is the old log followed by the update's messages. A scalar key present in the update takes the update's value; an absent key keeps the old value. |
| `State.MergeKeepsHistory` | src/state.py:9 | A merge never drops or reorders the old log: it stays a prefix of the new one. |
| `State.MergeEmptyIsIdentity` | src/state.py:9-14 | An update that writes no key leaves the state unchanged. |
| `State.MergeComposes` | src/state.py:9-14 | Merging two updates one after the other equals merging their combination once. |
| `State.MergeAllKeepsHistory` | src/state.py:9 | Over any sequence of merges, the first log is a prefix of the last. The length grows by exactly the number of messages the updates carried, so it never decreases. |
| `Text.Lower` | src/nodes.py:113 | Lower-casing keeps the length and maps each character through ASCII lower-casing. |
| `Text.Contains` | src/nodes.py:113 | `pat in text` holds exactly when `pat` occurs in `text` at some position. |
| `Coach.MergeCoach` | src/state.py:9-14 | The coach reducer appends the update's messages after the old log. Each scalar key is replaced when present in the update and kept otherwise. |
| `Coach.ProfileAnalyzer` | src/nodes.py:21-47 | Raises `IndexError` exactly when the log is empty. Otherwise it writes only `messages` and `user_profile`. The profile holds only `raw_summary`, which is the model's completion of a request built from the last log entry's content. The single appended message is that summary. |
| `Coach.GapAnalyzer` | src/nodes.py:49-70 | Raises `KeyError` for a missing `user_profile` or `raw_summary`, and succeeds otherwise. It writes only `messages` and `gap_analysis`. The analysis is the model's completion of a request built from `raw_summary`, and the single message is the analysis. |
| `Coach.PlanGenerator` | src/nodes.py:72-97 | Raises `KeyError` exactly when `gap_analysis` is absent. It writes `messages`, `learning_plan` and `revision_count`. The plan is the model's completion of a request built from `gap_analysis`. The count is carried forward, or 0 when absent. The single message is the plan. |
| `Coach.HumanReview` | src/nodes.py:99-119 | The update holds only `is_approved`. It is true exactly when the feedback is present and non-empty and `approve` occurs in its lower-cased text. |
| `Coach.PlanRefiner` | src/nodes.py:121-149 | Raises `KeyError` for `learning_plan`, `human_feedback` or `revision_count`, checked in that order, and succeeds exactly when all three are present. The new plan is the model's completion of a request built from the current plan and the feedback. It increments the count by one, clears the feedback to "", and appends one message, the new plan. |
| `Coach.ProfileAnalyzerReadsLastMessageOnly` | src/nodes.py:27-28 | Two logs whose last entries have the same content give the same profile update. |
| `Coach.GapAnalyzerReadsSummaryOnly` | src/nodes.py:55-65 | Two states with the same `raw_summary` give the same gap update. |
| `Coach.PlanGeneratorReadsGapsOnly` | src/nodes.py:78-96 | Two states with the same `gap_analysis` and `revision_count` give the same plan update. |
| `Coach.PlanRefinerReadsPlanAndFeedbackOnly` | src/nodes.py:127-147 | Two states with the same plan, feedback and count give the same refinement. |
| `Coach.HumanReviewReadsFeedbackOnly` | src/nodes.py:111 | The review decision depends on `human_feedback` alone. |
| `Coach.ApprovedApproves` | src/nodes.py:113-114 | Feedback "APPROVED" approves: case is ignored and the token may be part of a longer word. |
| `Coach.DisapproveApproves` | src/nodes.py:113-114 | Feedback "disapprove" also approves, because the test is a substring test. |
| `Coach.NoTokenMeansNotApproved` | src/nodes.py:111-119 | Absent feedback, and any feedback whose lower-cased text does not contain `approve` (empty feedback included), give `is_approved = false`. |
| `Coach.ChangeRequestRejects` | src/nodes.py:115-116 | The change request "More projects" gives `is_approved = false`. |
| `Coach.HumanReviewChangesOnlyApproval` | src/nodes.py:113-119 | Merging the review step's update changes no key but `is_approved`. |
| `Coach.LlmStepsAppendOneMessage` | src/nodes.py:44-149 | Each merged model-calling step appends exactly one message after the old log. That message's text is the value the step writes to `raw_summary`, `gap_analysis` or `learning_plan`. |
| `Coach.RefinementsCountRevisions` | src/nodes.py:144-149 | Start from a plan and revision count k. N rounds of feedback injection plus a merged refiner step all succeed. They leave the count at k + N and the feedback at "", and append exactly N messages after the unchanged old log. |
| `Coach.GenerateThenRefine` | src/nodes.py:93-149 | One plan generation from an absent or zero count, followed by N refinements, leaves `revision_count` at N. |
| `Graph.WeatherRoute` | src/graph.py:58-62 | Raises `KeyError` when `weather` is absent. Otherwise it returns `bad_weather` whatever the weather is. |
| `Graph.ReviewRoute` | src/graph.py:64-69 | Returns `approved` exactly when `human_feedback` is the whole, case-sensitive string "APPROVE", and `rejected` otherwise. This includes an absent key. |
| `Graph.Next` | src/graph.py:33-51 | The next target is one of the targets of the node's edge. A direct edge always gives its target. |
| `Graph.GraphBuilder.constructor` | src/graph.py:19 | A new builder has no nodes, no entry point and no edges. |
| `Graph.GraphBuilder.AddNode` | src/graph.py:22-25 | Registers the node, and reports whether the node was new. |
| `Graph.GraphBuilder.SetEntryPoint` | src/graph.py:29 | Sets the entry point and changes nothing else. |
| `Graph.GraphBuilder.AddEdge` | src/graph.py:31 | Records a fixed edge from the source node and changes nothing else. |
| `Graph.GraphBuilder.AddConditionalEdges` | src/graph.py:33-51 | Records a router and its path map for the source node and changes nothing else. |
| `Graph.GraphBuilder.Compile` | src/graph.py:53-56 | Succeeds exactly when the entry point, every edge endpoint and every interrupt name are registered nodes. The result carries the builder's graph and the interrupt set. |
| `Graph.BuildTravelGraph` | src/graph.py:16-56 | The builder calls, in the source's order, compile to `TravelGraph`. |
| `Graph.PlannerLeadsToWeather` | src/graph.py:29-31 | Runs start at `planner`, and `weather_tool` always follows it. |
| `Graph.WeatherAlwaysLeadsToAdjuster` | src/graph.py:33-40 | For every weather value, `adjuster` follows `weather_tool`; without one, routing raises. The `good_weather` edge to `human_review` is never taken. |
| `Graph.AdjusterLeadsToReview` | src/graph.py:42 | `human_review` always follows `adjuster`. |
| `Graph.ReviewEndsOnlyOnApprove` | src/graph.py:44-51 | After `human_review`, the run ends exactly on feedback "APPROVE" and otherwise returns to `adjuster`. Lower-case "approve" also returns to `adjuster`. |
| `Workflow.RoutingChangesNothing` | src/graph.py:58-69 | Routing only reads: the state after a step is exactly the step's update merged in. |
| `Workflow.ExecuteShape` | src/graph.py:53-56 | A run stops only at the interrupt point, at the end, or at a step that raised. When it stops on an error, the pending step is the one that raised, and re-running it on the saved state raises the same error. It keeps the old log as a prefix, and executes at most three steps from the start and at most two on a resume from the review pause, so never more than three. |
| `Workflow.StartPausesBeforeReview` | src/graph.py:29-56 | When the three steps succeed on the states the run reaches and a weather value is recorded, a run from the entry point executes `planner`, `weather_tool` and `adjuster` in that order. It then stops with `human_review` pending and not run, and the state holds the three merged updates. |
| `Workflow.ResumeWithApproveEnds` | src/graph.py:44-56 | When the review step succeeds and does not write `human_feedback`, resuming a paused thread whose feedback is "APPROVE" runs `human_review` once and ends the run. Routing reads the state after the step's own update, so a review step that rewrote the feedback could change this. |
| `Workflow.ResumeWithFeedbackRevisesOnce` | src/graph.py:42-56 | When the review step succeeds without writing `human_feedback` and `adjuster` succeeds, resuming with any other feedback runs `human_review`, then exactly one `adjuster` step, and pauses again before `human_review`. |
| `Workflow.EndedRunStaysEnded` | src/graph.py:48 | Continuing a thread whose run has ended executes nothing and changes nothing. |
| `Workflow.FailedStepKeepsCheckpoint` | src/graph.py:53-55 | A step whose body or following router raises leaves the checkpoint unchanged, with the same step still pending, and reports that error. |
| `Workflow.WeatherlessStepStaysPending` | src/graph.py:58-62 | If a `weather_tool` step leaves `weather` unset, the router's `KeyError("weather")` ends the run, and `weather_tool` stays pending on the unchanged state. |
| `Workflow.TravelWorkflow.constructor` | src/graph.py:11-14 | Building the workflow compiles `TravelGraph`; no thread has a checkpoint yet. |
| `Workflow.TravelWorkflow.Snapshot` | main.py:37-40 | `get_state` returns a checkpoint exactly for the threads that have one, and it is that thread's saved state and pending step. |
| `Workflow.TravelWorkflow.Start` | main.py:21-32 | Merges the input into the thread's state (empty for a new thread) and runs from `planner` as `Execute` specifies. Other threads are unchanged, and no thread's log loses an entry. |
| `Workflow.TravelWorkflow.UpdateState` | main.py:59 | Merges the patch into a saved thread's state without moving its pending step. An unknown thread is left alone. |
| `Workflow.TravelWorkflow.Continue` | main.py:62-63 | Continues a saved thread from its pending step; the interrupt point runs when it is that step. An unknown thread reports `EmptyInput`. |
| `Workflow.TravelWorkflow.Resume` | main.py:59-63 | Injects feedback and then continues, as `UpdateState` followed by `Continue`. No thread's log loses an entry. |
| `Workflow.TravelWorkflow.RunPending` | src/graph.py:53-56 | The run loop saves a checkpoint after every step. It ends with exactly the checkpoint, step sequence and error that `Execute` gives. |

## Left out

- The travel step bodies (`TravelAgentNodes`: planner, weather lookup and classification, adjuster, travel review) are not part of this model. They are the opaque parameter `StepBody`.
- The language-model call, its prompt wording and its failures are left out. In the coach steps, `Llm` is a total function. In the travel graph, a step body reports a failed model or weather call as `ExternalCallError`; the scheduler treats it like any other `Err` from `StepBody`.
- Text.Lower: maps ASCII letters only, where Python's `str.lower` applies the full Unicode case mapping, including mappings that change a string's length. Where it is used, the `"approve" in feedback.lower()` test at src/nodes.py:113, the result is the same for every string. Only U+0130 and U+212A lower-case to ASCII letters (`i` and `k`), neither letter occurs in `approve`, and every other non-ASCII character lower-cases to non-ASCII characters.
- `Workflow.TravelWorkflow.UpdateState` always keeps the pending step. LangGraph recomputes the pending step from the edges of the last node that wrote. At the review pause, the only place the callers use it, that gives `human_review` again. On a thread whose run has ended, LangGraph could schedule `adjuster`, which this model does not capture. A thread with no checkpoint is left unchanged here.
- `Graph.GraphBuilder.AddEdge` and `Graph.GraphBuilder.AddConditionalEdges` keep one edge per source node, so a later edge replaces an earlier one. LangGraph allows fan-out, running every edge from a node; the travel graph has none.
- `Graph.GraphBuilder.Compile` checks only that the names used are registered nodes. LangGraph's further checks on a graph are not modelled.
- Checkpoint durability, stream events, the Streamlit front end (`app.py`), the CLI loop (`main.py`), the execution log (`src/logger.py`), timing and environment loading are I/O and are not modelled.
- The routing of the coach workflow is left out: the repository does not contain it.
