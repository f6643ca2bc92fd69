/**
 * The checkpointing scheduler that runs the compiled travel graph per thread:
 * `TravelWorkflow` with its in-memory checkpointer. A checkpoint is the
 * thread's state together with the step that is pending (none once the run
 * reached the end). Starting merges the input and runs from the entry point;
 * resuming merges a human patch and continues from the pending step. Both run
 * step by step, saving a checkpoint after each, until the next step is an
 * interrupt point, the run ends, or a step raises.
 */
module Workflow {
  import opened Wrappers
  import opened State
  import opened Graph

  type ThreadId = string

  /** A thread's saved state and its pending step (`None`: the run has ended). */
  datatype Checkpoint = Checkpoint(values: AgentState, next: Option<Node>)

  /**
   * The travel steps' bodies, which the model does not see: each maps the
   * state to a partial update or raises.
   */
  type StepBody = (Node, AgentState) -> Result<AgentState, Error>

  /** What a run leaves behind: the last checkpoint, the steps executed in order, and the error that stopped it. */
  datatype Run = Run(checkpoint: Checkpoint, executed: seq<Node>, failure: Option<Error>)

  /** The pending step an edge target makes. */
  function Pending(t: Target): Option<Node> {
    match t
    case To(n) => Some(n)
    case End => None
  }

  /** How far a pending step is from the interrupt: bounds the steps a run can take. */
  function Rank(p: Option<Node>): nat {
    match p
    case None => 0
    case Some(HumanReview) => 0
    case Some(Adjuster) => 1
    case Some(WeatherTool) => 2
    case Some(Planner) => 3
  }

  /** Every step of the travel graph but the interrupt point moves the run closer to it. */
  lemma StepsApproachInterrupt(n: Node, s: AgentState)
    requires Next(TravelGraph, n, s).Ok?
    ensures n != HumanReview ==> Rank(Pending(Next(TravelGraph, n, s).value)) < Rank(Some(n))
  {
    WeatherAlwaysLeadsToAdjuster(s);
  }

  /** The interrupt check: `n` is an interrupt point and this is not the step a resume asked for. */
  predicate Halts(n: Node, bypass: bool) {
    n in TravelGraph.interruptBefore && !bypass
  }

  /**
   * One step: run the body, merge its update, route on the merged state. A
   * body or router that raises leaves nothing behind.
   */
  function Step(body: StepBody, n: Node, s: AgentState): Result<(AgentState, Target), Error> {
    match body(n, s)
    case Err(e) => Err(e)
    case Ok(u) =>
      var merged := Merge(s, u);
      match Next(TravelGraph, n, merged)
      case Err(e) => Err(e)
      case Ok(t) => Ok((merged, t))
  }

  /**
   * A step's state is exactly its body's update merged in. That routing
   * cannot write to the state is already fixed by `Route`'s result type,
   * which carries an outcome and no state; this lemma records the
   * consequence for `Step`.
   */
  lemma RoutingChangesNothing(body: StepBody, n: Node, s: AgentState)
    requires Step(body, n, s).Ok?
    ensures body(n, s).Ok? && Step(body, n, s).value.0 == Merge(s, body(n, s).value)
  {
  }

  /**
   * Runs from checkpoint `cp` until the pending step is an interrupt point
   * (unless `bypass` lets the first step through), the run ends, or a step
   * raises; the checkpoint then stays at the step that raised.
   */
  function Execute(body: StepBody, cp: Checkpoint, bypass: bool): Run
    decreases (if bypass then 4 else 0) + Rank(cp.next)
  {
    match cp.next
    case None => Run(cp, [], None)
    case Some(n) =>
      if Halts(n, bypass) then Run(cp, [], None)
      else match Step(body, n, cp.values)
        case Err(e) => Run(cp, [], Some(e))
        case Ok((merged, t)) =>
          StepsApproachInterrupt(n, merged);
          var rest := Execute(body, Checkpoint(merged, Pending(t)), false);
          Run(rest.checkpoint, [n] + rest.executed, rest.failure)
  }

  /**
   * A run stops only at the interrupt point, at the end, or at a step that
   * raised, which stays pending; it never shrinks or reorders the log; and it
   * executes at most three steps from the start and two on a resume from the
   * review pause, so never more than three.
   */
  lemma {:induction false} ExecuteShape(body: StepBody, cp: Checkpoint, bypass: bool)
    ensures var r := Execute(body, cp, bypass);
      && (r.failure.None? ==> r.checkpoint.next.None? || r.checkpoint.next == Some(HumanReview))
      && (r.failure.Some? ==>
            (r.checkpoint.next.Some?
             && Step(body, r.checkpoint.next.value, r.checkpoint.values) == Err(r.failure.value)))
      && IsPrefix(cp.values.messages, r.checkpoint.values.messages)
      && |r.executed| <= (if bypass && cp.next == Some(HumanReview) then 2 else Rank(cp.next))
      && |r.executed| <= 3
    decreases (if bypass then 4 else 0) + Rank(cp.next)
  {
    if cp.next.Some? && !Halts(cp.next.value, bypass) {
      var n := cp.next.value;
      var step := Step(body, n, cp.values);
      if step.Ok? {
        var merged := step.value.0;
        StepsApproachInterrupt(n, merged);
        if n == HumanReview {
          ReviewEndsOnlyOnApprove(merged);
        }
        var next := Checkpoint(merged, Pending(step.value.1));
        ExecuteShape(body, next, false);
        MergeKeepsHistory(cp.values, body(n, cp.values).value);
        PrefixTransitive(cp.values.messages, merged.messages, Execute(body, next, false).checkpoint.values.messages);
      }
    }
  }

  /** The state a thread's next input is merged into: the saved one, or the empty state. */
  function SavedValues(checkpoints: map<ThreadId, Checkpoint>, thread: ThreadId): AgentState {
    if thread in checkpoints then checkpoints[thread].values else Empty
  }

  /** Every thread's log in `before` is a prefix of the same thread's log in `after`. */
  predicate HistoriesKept(before: map<ThreadId, Checkpoint>, after: map<ThreadId, Checkpoint>) {
    && before.Keys <= after.Keys
    && forall t :: t in before ==> IsPrefix(before[t].values.messages, after[t].values.messages)
  }

  /** Replacing one thread's checkpoint by one that extends its log keeps every history. */
  lemma ReplacingKeepsHistories(m: map<ThreadId, Checkpoint>, thread: ThreadId, c: Checkpoint)
    requires thread in m ==> IsPrefix(m[thread].values.messages, c.values.messages)
    ensures HistoriesKept(m, m[thread := c])
  {
  }

  /** Keeping histories is transitive over two updates of the saved threads. */
  lemma HistoriesKeptTransitive(a: map<ThreadId, Checkpoint>, b: map<ThreadId, Checkpoint>, c: map<ThreadId, Checkpoint>)
    requires HistoriesKept(a, b) && HistoriesKept(b, c)
    ensures HistoriesKept(a, c)
  {
    forall t | t in a ensures IsPrefix(a[t].values.messages, c[t].values.messages) {
      PrefixTransitive(a[t].values.messages, b[t].values.messages, c[t].values.messages);
    }
  }

  /** The compiled travel workflow together with its checkpointer's saved threads. */
  class TravelWorkflow {
    const body: StepBody
    const graph: CompiledGraph
    var checkpoints: map<ThreadId, Checkpoint>

    ghost predicate Valid()
      reads this
    {
      graph == TravelGraph
    }

    /** Builds the graph; no thread has been saved yet. */
    constructor (body: StepBody)
      ensures Valid()
      ensures this.body == body && checkpoints == map[]
    {
      this.body := body;
      var g := BuildTravelGraph();
      graph := g;
      checkpoints := map[];
    }

    /** `get_state`: the thread's saved checkpoint, if any. */
    function Snapshot(thread: ThreadId): (c: Option<Checkpoint>)
      reads this
      ensures c.Some? <==> thread in checkpoints
      ensures c.Some? ==> c.value == checkpoints[thread]
    {
      if thread in checkpoints then Some(checkpoints[thread]) else None
    }

    /**
     * `stream(input)`: merges `input` into the thread's state (a new thread
     * starts empty), makes the entry point pending and runs.
     */
    method Start(thread: ThreadId, input: AgentState) returns (executed: seq<Node>, failure: Option<Error>)
      requires Valid()
      modifies this
      ensures Valid()
      ensures var r := Execute(body, Checkpoint(Merge(SavedValues(old(checkpoints), thread), input), Some(Planner)), false);
        checkpoints == old(checkpoints)[thread := r.checkpoint] && executed == r.executed && failure == r.failure
      ensures HistoriesKept(old(checkpoints), checkpoints)
    {
      var base := if thread in checkpoints then checkpoints[thread].values else Empty;
      checkpoints := checkpoints[thread := Checkpoint(Merge(base, input), Some(graph.entry))];
      ghost var entered := checkpoints[thread];
      executed, failure := RunPending(thread, false);
      ExecuteShape(body, entered, false);
      MergeKeepsHistory(base, input);
      PrefixTransitive(base.messages, entered.values.messages, checkpoints[thread].values.messages);
      ReplacingKeepsHistories(old(checkpoints), thread, checkpoints[thread]);
    }

    /**
     * `update_state`: merges `patch` into a saved thread's state; the pending
     * step does not move. A thread with no checkpoint is left alone.
     */
    method UpdateState(thread: ThreadId, patch: AgentState) returns (found: bool)
      modifies this
      ensures found <==> thread in old(checkpoints)
      ensures found ==> checkpoints == old(checkpoints)[thread :=
        Checkpoint(Merge(old(checkpoints)[thread].values, patch), old(checkpoints)[thread].next)]
      ensures !found ==> checkpoints == old(checkpoints)
      ensures HistoriesKept(old(checkpoints), checkpoints)
    {
      found := thread in checkpoints;
      if found {
        var cp := checkpoints[thread];
        MergeKeepsHistory(cp.values, patch);
        ReplacingKeepsHistories(checkpoints, thread, Checkpoint(Merge(cp.values, patch), cp.next));
        checkpoints := checkpoints[thread := Checkpoint(Merge(cp.values, patch), cp.next)];
      }
    }

    /**
     * `stream(None)`: continues a saved thread from its pending step, which
     * runs even when it is the interrupt point. A thread with no checkpoint
     * has nothing to continue from.
     */
    method Continue(thread: ThreadId) returns (executed: seq<Node>, failure: Option<Error>)
      requires Valid()
      modifies this
      ensures Valid()
      ensures thread !in old(checkpoints) ==>
        checkpoints == old(checkpoints) && executed == [] && failure == Some(EmptyInput)
      ensures thread in old(checkpoints) ==>
        var r := Execute(body, old(checkpoints)[thread], true);
        checkpoints == old(checkpoints)[thread := r.checkpoint] && executed == r.executed && failure == r.failure
      ensures HistoriesKept(old(checkpoints), checkpoints)
    {
      if thread !in checkpoints {
        executed, failure := [], Some(EmptyInput);
      } else {
        ghost var saved := checkpoints[thread];
        executed, failure := RunPending(thread, true);
        ExecuteShape(body, saved, true);
        ReplacingKeepsHistories(old(checkpoints), thread, checkpoints[thread]);
      }
    }

    /** Injects human feedback and continues: `update_state` followed by `stream(None)`. */
    method Resume(thread: ThreadId, patch: AgentState) returns (executed: seq<Node>, failure: Option<Error>)
      requires Valid()
      modifies this
      ensures Valid()
      ensures thread !in old(checkpoints) ==>
        checkpoints == old(checkpoints) && executed == [] && failure == Some(EmptyInput)
      ensures thread in old(checkpoints) ==>
        var saved := old(checkpoints)[thread];
        var r := Execute(body, Checkpoint(Merge(saved.values, patch), saved.next), true);
        checkpoints == old(checkpoints)[thread := r.checkpoint] && executed == r.executed && failure == r.failure
      ensures HistoriesKept(old(checkpoints), checkpoints)
    {
      var _ := UpdateState(thread, patch);
      ghost var patched := checkpoints;
      executed, failure := Continue(thread);
      HistoriesKeptTransitive(old(checkpoints), patched, checkpoints);
    }

    /** The run loop: executes pending steps one at a time, saving the checkpoint after each. */
    method RunPending(thread: ThreadId, bypass: bool) returns (executed: seq<Node>, failure: Option<Error>)
      requires Valid() && thread in checkpoints
      modifies this
      ensures Valid()
      ensures var r := Execute(body, old(checkpoints)[thread], bypass);
        checkpoints == old(checkpoints)[thread := r.checkpoint] && executed == r.executed && failure == r.failure
    {
      var cp := checkpoints[thread];
      ghost var goal := Execute(body, cp, bypass);
      var skip := bypass;
      executed, failure := [], None;
      while failure.None? && cp.next.Some? && !(cp.next.value in graph.interruptBefore && !skip)
        invariant checkpoints == old(checkpoints)[thread := cp]
        invariant failure.None? ==> Resumes(Execute(body, cp, skip), executed, goal)
        invariant failure.Some? ==> goal == Run(cp, executed, failure)
        decreases (if failure.None? then 1 else 0), (if skip then 4 else 0) + Rank(cp.next)
      {
        var n := cp.next.value;
        var update := body(n, cp.values);
        if update.Err? {
          failure := Some(update.error);
          Advance(body, cp, skip, executed, goal);
        } else {
          var merged := Merge(cp.values, update.value);
          var target := Next(graph, n, merged);
          Advance(body, cp, skip, executed, goal);
          if target.Err? {
            failure := Some(target.error);
          } else {
            executed := executed + [n];
            cp := Checkpoint(merged, Pending(target.value));
            checkpoints := checkpoints[thread := cp];
            skip := false;
          }
        }
      }
      if failure.None? {
        ExecuteStops(body, cp, skip);
      }
    }
  }

  /** The rest of a run `rest`, after the steps `done`, completes the run `goal`. */
  predicate Resumes(rest: Run, done: seq<Node>, goal: Run) {
    rest.checkpoint == goal.checkpoint && done + rest.executed == goal.executed && rest.failure == goal.failure
  }

  /**
   * One turn of the run loop: after the steps `done`, running the pending step
   * of `cp` either raises, which ends the run `goal` there, or leads to a
   * checkpoint from which the rest of `goal` follows, closer to the interrupt.
   */
  lemma Advance(body: StepBody, cp: Checkpoint, bypass: bool, done: seq<Node>, goal: Run)
    requires cp.next.Some? && !Halts(cp.next.value, bypass)
    requires Resumes(Execute(body, cp, bypass), done, goal)
    ensures var n := cp.next.value;
      body(n, cp.values).Err? ==> goal == Run(cp, done, Some(body(n, cp.values).error))
    ensures var n := cp.next.value;
      body(n, cp.values).Ok? ==>
        var merged := Merge(cp.values, body(n, cp.values).value);
        var target := Next(TravelGraph, n, merged);
        && (target.Err? ==> goal == Run(cp, done, Some(target.error)))
        && (target.Ok? ==>
              && Resumes(Execute(body, Checkpoint(merged, Pending(target.value)), false), done + [n], goal)
              && Rank(Pending(target.value)) < (if bypass then 4 else 0) + Rank(cp.next))
  {
    var n := cp.next.value;
    if body(n, cp.values).Ok? {
      var merged := Merge(cp.values, body(n, cp.values).value);
      if Next(TravelGraph, n, merged).Ok? {
        StepsApproachInterrupt(n, merged);
        var rest := Execute(body, Checkpoint(merged, Pending(Next(TravelGraph, n, merged).value)), false);
        assert done + ([n] + rest.executed) == (done + [n]) + rest.executed;
      }
    }
  }

  /** Where the run loop stops, `Execute` has nothing left to do. */
  lemma ExecuteStops(body: StepBody, cp: Checkpoint, bypass: bool)
    requires cp.next.None? || Halts(cp.next.value, bypass)
    ensures Execute(body, cp, bypass) == Run(cp, [], None)
  {
  }

  /** The state after step `n` on `s`: the step's update merged in. */
  function After(body: StepBody, n: Node, s: AgentState): AgentState
    requires body(n, s).Ok?
  {
    Merge(s, body(n, s).value)
  }

  /**
   * A run from the entry point executes `planner`, `weather_tool` and
   * `adjuster` in that order and stops with `human_review` pending, not run,
   * provided those three steps succeed on the states the run reaches and a
   * weather value is recorded by the time `weather_tool` has run.
   */
  lemma StartPausesBeforeReview(body: StepBody, s: AgentState)
    requires body(Planner, s).Ok?
    requires body(WeatherTool, After(body, Planner, s)).Ok?
    requires After(body, WeatherTool, After(body, Planner, s)).weather.Some?
    requires body(Adjuster, After(body, WeatherTool, After(body, Planner, s))).Ok?
    ensures var r := Execute(body, Checkpoint(s, Some(Planner)), false);
      && r.executed == [Planner, WeatherTool, Adjuster]
      && r.checkpoint.next == Some(HumanReview)
      && r.failure.None?
      && r.checkpoint.values == MergeAll(s, [
           body(Planner, s).value,
           body(WeatherTool, After(body, Planner, s)).value,
           body(Adjuster, After(body, WeatherTool, After(body, Planner, s))).value])
  {
    var s1 := Merge(s, body(Planner, s).value);
    var s2 := Merge(s1, body(WeatherTool, s1).value);
    var s3 := Merge(s2, body(Adjuster, s2).value);
    PlannerLeadsToWeather(s1);
    WeatherAlwaysLeadsToAdjuster(s2);
    AdjusterLeadsToReview(s3);
    var run3 := Execute(body, Checkpoint(s3, Some(HumanReview)), false);
    assert run3 == Run(Checkpoint(s3, Some(HumanReview)), [], None);
    var run2 := Execute(body, Checkpoint(s2, Some(Adjuster)), false);
    assert run2 == Run(run3.checkpoint, [Adjuster], None);
    var run1 := Execute(body, Checkpoint(s1, Some(WeatherTool)), false);
    assert run1 == Run(run3.checkpoint, [WeatherTool, Adjuster], None);
    var us := [body(Planner, s).value, body(WeatherTool, s1).value, body(Adjuster, s2).value];
    assert MergeAll(s, us) == MergeAll(s1, us[1..]);
    assert MergeAll(s1, us[1..]) == MergeAll(s2, us[1..][1..]);
    assert MergeAll(s2, us[1..][1..]) == MergeAll(s3, []);
  }

  /**
   * Resuming a paused thread whose feedback is "APPROVE" runs `human_review`
   * once and ends the run, with that step's update merged and nothing else,
   * provided the review step succeeds and does not write `human_feedback`
   * (routing reads the state after the step's own update).
   */
  lemma ResumeWithApproveEnds(body: StepBody, v: AgentState)
    requires body(HumanReview, v).Ok? && body(HumanReview, v).value.humanFeedback.None?
    requires v.humanFeedback == Some("APPROVE")
    ensures Execute(body, Checkpoint(v, Some(HumanReview)), true)
      == Run(Checkpoint(Merge(v, body(HumanReview, v).value), None), [HumanReview], None)
  {
    ReviewEndsOnlyOnApprove(Merge(v, body(HumanReview, v).value));
  }

  /**
   * Resuming with any other feedback runs `human_review` and then exactly one
   * `adjuster` step, and pauses again before `human_review`, provided the
   * review step succeeds without writing `human_feedback` and `adjuster`
   * succeeds.
   */
  lemma ResumeWithFeedbackRevisesOnce(body: StepBody, v: AgentState)
    requires body(HumanReview, v).Ok? && body(HumanReview, v).value.humanFeedback.None?
    requires v.humanFeedback != Some("APPROVE")
    requires body(Adjuster, Merge(v, body(HumanReview, v).value)).Ok?
    ensures var reviewed := Merge(v, body(HumanReview, v).value);
      Execute(body, Checkpoint(v, Some(HumanReview)), true)
      == Run(Checkpoint(Merge(reviewed, body(Adjuster, reviewed).value), Some(HumanReview)),
             [HumanReview, Adjuster], None)
  {
    var reviewed := Merge(v, body(HumanReview, v).value);
    var adjusted := Merge(reviewed, body(Adjuster, reviewed).value);
    ReviewEndsOnlyOnApprove(reviewed);
    AdjusterLeadsToReview(adjusted);
    var last := Execute(body, Checkpoint(adjusted, Some(HumanReview)), false);
    assert last == Run(Checkpoint(adjusted, Some(HumanReview)), [], None);
    assert Execute(body, Checkpoint(reviewed, Some(Adjuster)), false) == Run(last.checkpoint, [Adjuster], None);
  }

  /** Continuing a thread whose run has ended executes nothing and changes nothing. */
  lemma EndedRunStaysEnded(body: StepBody, v: AgentState, bypass: bool)
    ensures Execute(body, Checkpoint(v, None), bypass) == Run(Checkpoint(v, None), [], None)
  {
  }

  /**
   * A step that raises, in its body or in the router that follows it, leaves
   * the checkpoint unchanged with the same step pending.
   */
  lemma FailedStepKeepsCheckpoint(body: StepBody, cp: Checkpoint, bypass: bool)
    requires cp.next.Some? && !Halts(cp.next.value, bypass)
    requires Step(body, cp.next.value, cp.values).Err?
    ensures Execute(body, cp, bypass) == Run(cp, [], Some(Step(body, cp.next.value, cp.values).error))
  {
  }

  /**
   * A `weather_tool` step that records no weather value on a state without
   * one makes the router raise `KeyError("weather")`; the step stays pending.
   */
  lemma WeatherlessStepStaysPending(body: StepBody, v: AgentState)
    requires v.weather.None?
    requires body(WeatherTool, v).Ok? && body(WeatherTool, v).value.weather.None?
    ensures Execute(body, Checkpoint(v, Some(WeatherTool)), false)
      == Run(Checkpoint(v, Some(WeatherTool)), [], Some(KeyError("weather")))
  {
    WeatherAlwaysLeadsToAdjuster(Merge(v, body(WeatherTool, v).value));
  }
}
