/** With the planner of this program, a budget of six planner calls is enough for every session, with any
    crashes and lost writes (internal/agent/planner.go, internal/agent/hybrid_planner.go,
    internal/agent/runtime.go). */
module DefaultBudget {
  import opened Base
  import opened Json
  import opened Types
  import opened Approvals
  import Policy
  import opened RunStates
  import opened Machine
  import opened Planner
  import Conformance
  import Lifecycle
  import Projections

  const CALLS: nat := 6

  /** The planner follows the table after a tool result and has its first answer compiled by the first-pass
      engine; executors that succeed return a result; and no result sends a runbook back to itself. */
  ghost predicate Hybrid(env: Env, reader: Reader, ids: nat -> string)
  {
    && (forall n: nat, input: PlanInput :: input.lastResult.Some? ==> env.plan(n, input) == Some(PlanAfter(reader, ids(n), input)))
    && (forall n: nat, input: PlanInput :: input.lastResult.None? && env.plan(n, input).Some? ==>
          exists compiled :: env.plan(n, input).value == ToPlan(compiled))
    && (forall n: nat, tool: string, input: GoMap :: Sensible(env.execute(n, tool, input)))
  }

  predicate Sensible(outcome: ExecOutcome)
  {
    && (!outcome.failed ==> outcome.result.Some?)
    && (outcome.result.Some? ==> NoSelfReference(outcome.result.value))
  }

  predicate Useful(result: Option<ToolResult>) { result.Some? && NoSelfReference(result.value) }

  /** A state that may be stored: when it is a pause, the calls its tool can lead to still fit. */
  predicate Fits(st: RunState)
  {
    && st.stepCount <= CALLS <= st.maxSteps
    && (st.status == PausedForApproval ==> st.stepCount + CallsLeft(st.proposal) <= CALLS)
  }

  /** The failure that a larger budget would have avoided. */
  predicate Overrun(act: Act)
  {
    (act.Logged? || act.Lost?) && act.event.kind == RunFailed && act.event.cause == MaxStepsExceeded
  }

  ghost predicate InBudget(w: World)
  {
    && (w.run.Some? ==> Fits(w.run.value))
    && (forall act :: act in w.trace ==> !Overrun(act))
  }

  /** At the head of the loop: everything that can still be asked fits. */
  predicate Room(st: RunState, last: Option<ToolResult>)
  {
    && st.status != PausedForApproval && CALLS <= st.maxSteps
    && (last.Some? ==> NoSelfReference(last.value))
    && st.stepCount + (if last.Some? then CallsLeft(st.proposal) else CALLS) <= CALLS
  }

  // ---------- single effects ----------

  lemma NoteInBudget(w: World, act: Act)
    requires InBudget(w) && !Overrun(act)
    ensures InBudget(Note(w, act))
  {}

  lemma LogInBudget(env: Env, w: World, e: Event)
    requires InBudget(w) && !(e.kind == RunFailed && e.cause == MaxStepsExceeded)
    ensures InBudget(Log(env, w, e)) && Log(env, w, e).run == w.run
  {
    hide InBudget;
    TickInBudget(env, w);
    NoteInBudget(Tick(env, w), Written(env, w.clock, e));
  }

  lemma SaveInBudget(env: Env, w: World, st: RunState)
    requires InBudget(w) && Fits(st)
    ensures InBudget(SaveState(env, w, st).w)
  {
    StoredStateKeepsControl(env.red, st);
    hide StoredState;
  }

  lemma RecordInBudget(env: Env, w: World, st: RunState, kind: StepKind, status: StepStatus, body: Body)
    requires InBudget(w) && Fits(st)
    ensures var r := RecordStep(env, w, st, kind, status, body);
      && InBudget(r.w) && Fits(r.st) && r.st.status == st.status && r.st.proposal == st.proposal
  {
    var step := Step(w.clock, st.runID, st.stepIndex + 1, kind, status, body.proposal, body.approval, body.result, body.error);
    var st' := st.(currentStep := kind, stepIndex := step.index, updatedAt := w.clock);
    hide Upsert, StoredStep, CallsLeft;
    SaveInBudget(env, SaveStep(env, w, step).w, st');
  }

  lemma TransitionInBudget(env: Env, w: World, st: RunState, status: RunStatus, step: Step)
    requires InBudget(w) && Fits(st.(status := status))
    ensures var t := Transition(env, w, st, status, step);
      && InBudget(t.w) && Fits(t.st) && t.st.status == status && t.st.proposal == st.proposal
  {
    var st' := st.(status := status, currentStep := step.kind, stepIndex := step.index, updatedAt := w.clock);
    SaveInBudget(env, w, st');
    LogInBudget(env, SaveState(env, w, st').w, OfApproval(RunStateChanged, st'.approvalID));
  }

  lemma StageInBudget(env: Env, w: World, st: RunState, kind: StepKind, status: StepStatus, body: Body, next: RunStatus)
    requires InBudget(w) && Fits(st) && next != PausedForApproval
    ensures var r := RecordStep(env, w, st, kind, status, body); var t := Transition(env, r.w, r.st, next, r.step);
      && InBudget(r.w) && InBudget(t.w) && Fits(t.st) && t.st.status == next && t.st.proposal == st.proposal && t.st.stepCount == st.stepCount
      && t.st.maxSteps == st.maxSteps && InBudget(Abort(env, r.w, r.st, StoreFailed).w)
  {
    RecordInBudget(env, w, st, kind, status, body);
    var r := RecordStep(env, w, st, kind, status, body);
    TransitionInBudget(env, r.w, r.st, next, r.step);
    AbortInBudget(env, r.w, r.st, StoreFailed);
    hide RecordStep, Transition, CallsLeft, Abort;
  }

  lemma AbortInBudget(env: Env, w: World, st: RunState, cause: Cause)
    requires InBudget(w) && Fits(st) && cause != MaxStepsExceeded
    ensures InBudget(Abort(env, w, st, cause).w)
  {
    var st1, body := st.(error := cause), EMPTY.(error := cause);
    RecordInBudget(env, w, st1, Finalize, StepFailed, body);
    var r := RecordStep(env, w, st1, Finalize, StepFailed, body);
    TransitionInBudget(env, r.w, r.st, Failed, r.step);
    hide RecordStep, Transition, CallsLeft, InBudget;
    var t := if r.ok then Transition(env, r.w, r.st, Failed, r.step) else At(r.w, r.st);
    LogInBudget(env, t.w, Plain(RunFailed).(cause := cause));
  }

  lemma AssistantInBudget(env: Env, w: World, st: RunState)
    requires InBudget(w) && Fits(st)
    ensures var m := PersistAssistant(env, w); InBudget(m.w) && InBudget(Abort(env, m.w, st, MessageFailed).w)
  {
    LogInBudget(env, Tick(env, w), Plain(AssistantMessage));
    AbortInBudget(env, PersistAssistant(env, w).w, st, MessageFailed);
    hide Abort;
  }

  lemma CompleteInBudget(env: Env, w: World, st: RunState)
    requires InBudget(w) && Fits(st)
    ensures InBudget(Complete(env, w, st).w)
  {
    hide RecordStep, Transition, Abort, PersistAssistant, InBudget, Fits;
    StageInBudget(env, w, st, Summarize, StepCompleted, EMPTY, Summarizing);
    var r := RecordStep(env, w, st, Summarize, StepCompleted, EMPTY);
    if r.ok {
      var t := Transition(env, r.w, r.st, Summarizing, r.step);
      AssistantInBudget(env, t.w, t.st);
      var m := PersistAssistant(env, t.w);
      StageInBudget(env, m.w, t.st, Finalize, StepCompleted, EMPTY, Completed);
      var f := RecordStep(env, m.w, t.st, Finalize, StepCompleted, EMPTY);
      LogInBudget(env, Transition(env, f.w, f.st, Completed, f.step).w, Plain(RunCompleted));
    }
  }

  // ---------- the router ----------

  lemma ExecuteInBudget(env: Env, reader: Reader, ids: nat -> string, w: World, p: Proposal, id: Id)
    requires Hybrid(env, reader, ids) && InBudget(w)
    ensures var e := Execute(env, w, p, id); InBudget(e.w) && e.w.run == w.run && (e.ok ==> Useful(e.result))
  {
    hide CloneMap, InBudget, Log, NoSelfReference;
    if env.registered(p.tool) {
      var started := Log(env, w, OfTool(EventToolStarted, p));
      LogInBudget(env, w, OfTool(EventToolStarted, p));
      TickInBudget(env, started);
      var t := Tick(env, started);
      if !t.dead {
        var input := CloneMap(p.input);
        NoteInBudget(t, Executed(p.id, p.tool, input, id));
        var ran := Note(t, Executed(p.id, p.tool, input, id));
        var outcome := env.execute(started.clock, p.tool, input);
        assert Sensible(outcome);
        LogInBudget(env, ran, OfTool(EventToolOutput, p));
        var shown := if outcome.result.Some? then Log(env, ran, OfTool(EventToolOutput, p)) else ran;
        LogInBudget(env, shown, OfTool(if outcome.failed then EventToolFailed else EventToolCompleted, p));
        if outcome.result.Some? { SameSteps(outcome.result.value, p.id); }
      }
    }
  }

  /** Filling in the call id does not change what the result says. */
  lemma SameSteps(result: ToolResult, callID: string)
    ensures NoSelfReference(result.(callID := callID)) == NoSelfReference(result)
  {}

  lemma DenialIsUseful(p: Proposal, d: Decision)
    ensures Useful(Some(Denial(p, d)))
  {}

  lemma DispatchInBudget(env: Env, reader: Reader, ids: nat -> string, w: World, rid: Id, p: Proposal, inference: Inference, d: Decision)
    requires Hybrid(env, reader, ids) && InBudget(w)
    ensures var r := Dispatch(env, w, rid, p, inference, d);
      InBudget(r.w) && r.w.run == w.run && (r.ok && r.approval.None? ==> Useful(r.result))
  {
    hide CloneMap, Fits, Execute, Draft, NoSelfReference, Hybrid, Log;
    if d.requiresApproval {
      var draft := Draft(w.clock, rid, p, inference, d);
      var t := Tick(env, w);
      if !t.dead && draft.Some? {
        var filed := t.(approvals := t.approvals[w.clock := draft.value]);
        NoteInBudget(filed, Created(CloneRecord(draft.value)));
        LogInBudget(env, Note(filed, Created(CloneRecord(draft.value))), OfApproval(EventApprovalRequested, draft.value.id));
      }
    } else if !d.allowed {
      DenialIsUseful(p, d);
      LogInBudget(env, w, OfTool(EventPolicyDenied, p).(decision := Some(d)));
    } else {
      ExecuteInBudget(env, reader, ids, w, p, NO_ID);
    }
  }

  lemma ProposeInBudget(env: Env, reader: Reader, ids: nat -> string, w: World, rid: Id, p: Proposal)
    requires Hybrid(env, reader, ids) && InBudget(w)
    ensures var r := Propose(env, w, rid, p);
      InBudget(r.w) && r.w.run == w.run && (r.ok && r.approval.None? ==> Useful(r.result))
  {
    hide CloneMap, InBudget, Dispatch, Policy.Decide, Hybrid, Useful, Log;
    var first := OfTool(EventToolProposed, p).(input := CloneMap(p.input));
    LogInBudget(env, w, first);
    var proposed := Log(env, w, first);
    TickInBudget(env, proposed);
    var t := Tick(env, proposed);
    var inferred := env.infer(proposed.clock, p);
    if !t.dead && inferred.Some? {
      var d := Policy.Decide(env.policy, p, inferred.value);
      var second, third := OfTool(EventEffectInferred, p), OfTool(EventPolicyDecided, p).(decision := Some(d));
      LogInBudget(env, t, second);
      var told := Log(env, t, second);
      NoteInBudget(told, DecidedOn(p, d));
      LogInBudget(env, Note(told, DecidedOn(p, d)), third);
      DispatchInBudget(env, reader, ids, Log(env, Note(told, DecidedOn(p, d)), third), rid, p, inferred.value, d);
    }
  }

  // ---------- the planning loop ----------

  ghost predicate TurnInBudget(t: Turn)
  {
    match t
    case Halt(out) => InBudget(out.w)
    case Again(w, st, last) => InBudget(w) && last.Some? && Room(st, last)
  }

  lemma PauseInBudget(env: Env, w: World, st: RunState, record: Record)
    requires InBudget(w) && Fits(st.(status := PausedForApproval)) && st.status != PausedForApproval
    ensures TurnInBudget(Pause(env, w, st, record))
  {
    hide RecordStep, Transition, Abort, PersistAssistant, InBudget, CallsLeft, CloneRecord;
    var st1 := st.(approvalID := record.id);
    var body := Body(st.proposal, Some(CloneRecord(record)), None, NoError);
    StageInBudget(env, w, st1, RequestApproval, StepPaused, body, ApprovalRequested);
    var r := RecordStep(env, w, st1, RequestApproval, StepPaused, body);
    if r.ok {
      var t := Transition(env, r.w, r.st, ApprovalRequested, r.step);
      var act := Streamed(OfApproval(EventApprovalRequested, record.id));
      NoteInBudget(t.w, act);
      TransitionInBudget(env, Note(t.w, act), t.st, PausedForApproval, r.step);
      var q := Transition(env, Note(t.w, act), t.st, PausedForApproval, r.step);
      AssistantInBudget(env, q.w, q.st);
      LogInBudget(env, PersistAssistant(env, q.w).w, OfApproval(RunPaused, record.id));
    }
  }

  lemma FinishInBudget(env: Env, w: World, st: RunState, p: Proposal, result: Option<ToolResult>)
    requires InBudget(w) && Fits(st.(status := PausedForApproval)) && Fits(st) && Useful(result)
    ensures TurnInBudget(Finish(env, w, st, p, result))
  {
    hide RecordStep, Transition, Abort, InBudget, CallsLeft, NoSelfReference;
    var failed := result.Some? && result.value.error != "";
    var cause := if failed then ToolError(result.value.error) else NoError;
    var status := if failed then StepFailed else StepCompleted;
    var body := Body(Some(p), None, result, cause);
    StageInBudget(env, w, st, ExecuteTool, status, body, ToolExecuting);
    var r := RecordStep(env, w, st, ExecuteTool, status, body);
    if r.ok {
      var t := Transition(env, r.w, r.st, ToolExecuting, r.step);
      var st1 := if failed then t.st.(toolResult := result, error := cause) else t.st.(toolResult := result);
      var next := if failed then ToolFailed else ToolCompleted;
      TransitionInBudget(env, t.w, st1, next, r.step);
      NoteInBudget(Transition(env, t.w, st1, next, r.step).w, Streamed(Plain(EventToolOutput)));
    }
  }

  lemma AfterRoutingInBudget(env: Env, routed: Routed, st: RunState, p: Proposal)
    requires InBudget(routed.w) && Fits(st.(status := PausedForApproval)) && Fits(st)
    requires routed.approval.None? ==> Useful(routed.result)
    ensures TurnInBudget(AfterRouting(env, routed, st, p))
  {
    hide RecordStep, Transition, Abort, InBudget, CallsLeft, Useful, Pause, Finish;
    var body := EMPTY.(proposal := Some(p));
    StageInBudget(env, routed.w, st, InferEffect, StepCompleted, body, EffectInferred);
    var r := RecordStep(env, routed.w, st, InferEffect, StepCompleted, body);
    if r.ok {
      var t := Transition(env, r.w, r.st, EffectInferred, r.step);
      StageInBudget(env, t.w, t.st, DecidePolicy, StepCompleted, body, PolicyDecided);
      var d := RecordStep(env, t.w, t.st, DecidePolicy, StepCompleted, body);
      if d.ok {
        var u := Transition(env, d.w, d.st, PolicyDecided, d.step);
        if routed.approval.Some? {
          PauseInBudget(env, u.w, u.st, routed.approval.value);
        } else {
          FinishInBudget(env, u.w, u.st, p, routed.result);
        }
      }
    }
  }

  lemma UseToolInBudget(env: Env, reader: Reader, ids: nat -> string, w: World, st: RunState, p: Proposal)
    requires Hybrid(env, reader, ids) && InBudget(w) && Fits(st) && st.status != PausedForApproval
    requires st.stepCount + CallsAfter(p.tool) <= CALLS
    ensures TurnInBudget(UseTool(env, w, st, p))
  {
    hide RecordStep, Transition, Abort, InBudget, CallsAfter, Useful, Hybrid, Propose, AfterRouting, CloneMap;
    var proposal := CloneProposal(p);
    var st1, body := st.(proposal := Some(proposal)), EMPTY.(proposal := Some(proposal));
    StageInBudget(env, w, st1, ProposeTool, StepCompleted, body, ToolProposed);
    var r := RecordStep(env, w, st1, ProposeTool, StepCompleted, body);
    if r.ok {
      var t := Transition(env, r.w, r.st, ToolProposed, r.step);
      ProposeInBudget(env, reader, ids, t.w, st.runID, p);
      var routed := Propose(env, t.w, st.runID, p);
      if routed.ok {
        AfterRoutingInBudget(env, routed, t.st, proposal);
      } else {
        AbortInBudget(env, routed.w, t.st, RouterFailed);
      }
    }
  }

  lemma FollowInBudget(env: Env, reader: Reader, ids: nat -> string, w: World, st: RunState, last: Option<ToolResult>, plan: Plan)
    requires Hybrid(env, reader, ids) && InBudget(w) && Fits(st) && st.status != PausedForApproval
    requires plan.decision in {DecideTool, DecideAnswer, DecideStop}
    requires plan.decision == DecideTool && plan.proposal.Some? ==> st.stepCount + CallsAfter(plan.proposal.value.tool) <= CALLS
    ensures TurnInBudget(Follow(env, w, st, last, plan))
  {
    hide Abort, CallsAfter, Hybrid, UseTool, Complete;
    match plan.decision
    case DecideAnswer =>
      AbortInBudget(env, Tick(env, w), st, RunnerFailed);
      CompleteInBudget(env, Tick(env, w), st);
      CompleteInBudget(env, w, st);
    case DecideStop => CompleteInBudget(env, w, st);
    case DecideTool =>
      if plan.proposal.None? {
        AbortInBudget(env, w, st, MissingProposal);
      } else {
        UseToolInBudget(env, reader, ids, w, st, plan.proposal.value);
      }
    case _ =>
  }

  /** What the planner may answer at this point of the budget. */
  lemma AnswerFits(env: Env, reader: Reader, ids: nat -> string, st0: RunState, last: Option<ToolResult>, n: nat)
    requires Hybrid(env, reader, ids) && Room(st0, last)
    requires env.plan(n, PlanInputOf(st0.(stepCount := st0.stepCount + 1), last)).Some?
    ensures st0.stepCount < CALLS
    ensures var plan := NormalizePlan(env.plan(n, PlanInputOf(st0.(stepCount := st0.stepCount + 1), last)).value, last);
      && plan.decision in {DecideTool, DecideAnswer, DecideStop}
      && (plan.decision == DecideTool && plan.proposal.Some? ==> st0.stepCount + 1 + CallsAfter(plan.proposal.value.tool) <= CALLS)
  {
    hide NoSelfReference, PlanAfter, CloneMap;
    var input := PlanInputOf(st0.(stepCount := st0.stepCount + 1), last);
    if last.Some? {
      RankFalls(reader, ids(n), input);
    }
  }

  lemma TurnoverInBudget(env: Env, reader: Reader, ids: nat -> string, w: World, st0: RunState, last: Option<ToolResult>)
    requires Hybrid(env, reader, ids) && InBudget(w) && Room(st0, last) && st0.stepCount < CALLS
    ensures TurnInBudget(Turnover(env, w, st0, last))
  {
    hide RecordStep, Transition, Abort, InBudget, CallsAfter, CallsLeft, Hybrid, Follow, NormalizePlan, NoSelfReference, TurnInBudget;
    var st := st0.(stepCount := st0.stepCount + 1);
    var input := PlanInputOf(st, last);
    var t := Tick(env, w);
    TickInBudget(env, w);
    NoteInBudget(t, PlannerCalled(input));
    var called := Note(t, PlannerCalled(input));
    var answer := env.plan(w.clock, input);
    if t.dead || answer.None? {
      AbortInBudget(env, called, st, PlannerFailed);
      HaltInBudget(Abort(env, called, st, PlannerFailed));
    } else {
      AnswerFits(env, reader, ids, st0, last, w.clock);
      var plan := NormalizePlan(answer.value, last);
      StageInBudget(env, called, st, PlanStep, StepCompleted, PlanBody(plan), PlanMade);
      var r := RecordStep(env, called, st, PlanStep, StepCompleted, PlanBody(plan));
      HaltInBudget(Abort(env, r.w, r.st, StoreFailed));
      if r.ok {
        var u := Transition(env, r.w, r.st, PlanMade, r.step);
        LogInBudget(env, u.w, Plain(AssistantDelta));
        FollowInBudget(env, reader, ids, if plan.preamble then Log(env, u.w, Plain(AssistantDelta)) else u.w, u.st, last, plan);
      }
    }
  }

  lemma TickInBudget(env: Env, w: World)
    requires InBudget(w)
    ensures InBudget(Tick(env, w))
  {}

  lemma HaltInBudget(out: Out)
    requires InBudget(out.w)
    ensures TurnInBudget(Halt(out))
  {}

  lemma {:induction false} ContinueInBudget(env: Env, reader: Reader, ids: nat -> string, w: World, st: RunState, last: Option<ToolResult>)
    requires Hybrid(env, reader, ids) && InBudget(w) && Room(st, last)
    ensures InBudget(ContinueRun(env, w, st, last).w)
    decreases st.maxSteps - st.stepCount
  {
    hide Turnover, Abort, InBudget, CallsLeft, Hybrid, NoSelfReference;
    assert st.stepCount < CALLS by { SomeLeft(st.proposal); }
    TurnoverInBudget(env, reader, ids, w, st, last);
    match Turnover(env, w, st, last)
    case Halt(_) =>
    case Again(w', st', last') => ContinueInBudget(env, reader, ids, w', st', last');
  }

  lemma SomeLeft(proposal: Option<Proposal>)
    ensures CallsLeft(proposal) >= 1
  {}

  // ---------- the calls ----------

  lemma GenesisInBudget(setup: Setup, st: RunState)
    requires st == InitialState(setup.rid, setup.message, Budget(setup.configured), setup.clock) && CALLS <= Budget(setup.configured)
    ensures InBudget(Genesis(setup)) && Fits(st) && Genesis(setup).clock == setup.clock
  {}

  lemma StartInBudget(env: Env, reader: Reader, ids: nat -> string, setup: Setup)
    requires Hybrid(env, reader, ids) && CALLS <= Budget(setup.configured)
    ensures InBudget(StartRun(env, Genesis(setup), setup.rid, setup.message, setup.configured).w)
  {
    hide RecordStep, Transition, Abort, ContinueRun, CallsLeft, Hybrid, InBudget, SaveState, Log, Genesis, Budget;
    var w := Genesis(setup);
    var st := InitialState(setup.rid, setup.message, Budget(setup.configured), setup.clock);
    GenesisInBudget(setup, st);
    SaveInBudget(env, w, st);
    var s := SaveState(env, w, st);
    LogInBudget(env, s.w, Plain(RunStarted));
    var started := Log(env, s.w, Plain(RunStarted));
    TickInBudget(env, started);
    var m := Tick(env, started);
    TickInBudget(env, m);
    var t := Tick(env, m);
    AbortInBudget(env, t, st, ContextFailed);
    var built := env.context(m.clock);
    if built.Some? {
      OpenInBudget(env, reader, ids, t, st.(context := built.value));
    }
  }

  /** The first step, and the loop after it. */
  lemma OpenInBudget(env: Env, reader: Reader, ids: nat -> string, w: World, st: RunState)
    requires Hybrid(env, reader, ids) && InBudget(w) && Fits(st) && st.stepCount == 0 && st.status != PausedForApproval
    ensures var r := RecordStep(env, w, st, BuildContext, StepCompleted, EMPTY);
      if r.ok then
        var c := Transition(env, r.w, r.st, ContextBuilt, r.step); InBudget(ContinueRun(env, c.w, c.st, None).w)
      else InBudget(Abort(env, r.w, r.st, StoreFailed).w)
  {
    hide RecordStep, Transition, Abort, ContinueRun, CallsLeft, Hybrid, InBudget;
    StageInBudget(env, w, st, BuildContext, StepCompleted, EMPTY, ContextBuilt);
    var r := RecordStep(env, w, st, BuildContext, StepCompleted, EMPTY);
    if r.ok {
      var c := Transition(env, r.w, r.st, ContextBuilt, r.step);
      RecordKeepsCount(env, w, st, BuildContext, StepCompleted, EMPTY, ContextBuilt);
      ContinueInBudget(env, reader, ids, c.w, c.st, None);
    }
  }

  lemma RecordKeepsCount(env: Env, w: World, st: RunState, kind: StepKind, status: StepStatus, body: Body, next: RunStatus)
    ensures var r := RecordStep(env, w, st, kind, status, body); Transition(env, r.w, r.st, next, r.step).st.stepCount == st.stepCount
  {
    hide SaveStep, SaveState;
  }

  lemma AfterSuccessInBudget(env: Env, reader: Reader, ids: nat -> string, w: World, st: RunState, body: Body, result: Option<ToolResult>)
    requires Hybrid(env, reader, ids) && InBudget(w) && Fits(st) && Fits(st.(status := PausedForApproval)) && Useful(result)
    ensures InBudget(AfterSuccess(env, w, st, body, result).w)
  {
    hide RecordStep, Transition, Abort, ContinueRun, CallsLeft, Hybrid, InBudget, NoSelfReference;
    StageInBudget(env, w, st, ExecuteTool, StepCompleted, body, ToolCompleted);
    var x := RecordStep(env, w, st, ExecuteTool, StepCompleted, body);
    if x.ok {
      var y := Transition(env, x.w, x.st, ToolCompleted, x.step);
      var act := Streamed(OfApproval(EventToolOutput, st.approvalID));
      NoteInBudget(y.w, act);
      var shown := if result.Some? then Note(y.w, act) else y.w;
      var cleared := y.st.(approvalID := NO_ID);
      SaveInBudget(env, shown, cleared);
      ContinueInBudget(env, reader, ids, SaveState(env, shown, cleared).w, cleared, result);
    }
  }

  lemma ResolveInBudget(w: World, id: Id, approve: bool, reason: string)
    requires InBudget(w)
    ensures InBudget(ResolveApproval(w, id, approve, reason).0)
  {
    NoteInBudget(w.(approvals := Settle(w.approvals, id, approve, reason)), ResolvedAs(id, approve));
    hide Settle, Resolution;
  }

  lemma ApprovePausedInBudget(env: Env, reader: Reader, ids: nat -> string, w: World, st: RunState, approval: Record)
    requires Hybrid(env, reader, ids) && InBudget(w) && Fits(st) && st.status == PausedForApproval
    ensures InBudget(ApprovePaused(env, w, st, approval).w)
  {
    hide RecordStep, Transition, Abort, RunApproved, CallsLeft, Hybrid, ApprovalBody, InBudget, ResolveApproval, Log;
    ResolveInBudget(w, approval.id, true, "");
    var (w1, approved) := ResolveApproval(w, approval.id, true, "");
    if approved.None? {
      AbortInBudget(env, w1, st, ResolveFailed);
    } else {
      var body := ApprovalBody(approved.value);
      StageInBudget(env, w1, st, RequestApproval, StepCompleted, body, ApprovalApproved);
      var r := RecordStep(env, w1, st, RequestApproval, StepCompleted, body);
      if r.ok {
        var t := Transition(env, r.w, r.st, ApprovalApproved, r.step);
        var e := OfApproval(EventApprovalApproved, approval.id);
        LogInBudget(env, t.w, e);
        var said := Log(env, t.w, e);
        TransitionInBudget(env, said, t.st, ToolExecuting, r.step);
        TransitionKeepsCount(env, said, t.st, ToolExecuting, r.step);
        var u := Transition(env, said, t.st, ToolExecuting, r.step);
        RunApprovedInBudget(env, reader, ids, u.w, u.st, approval, approved.value);
      }
    }
  }

  lemma TransitionKeepsCount(env: Env, w: World, st: RunState, status: RunStatus, step: Step)
    ensures Transition(env, w, st, status, step).st.stepCount == st.stepCount
  {
    hide SaveState;
  }

  lemma RunApprovedInBudget(env: Env, reader: Reader, ids: nat -> string, w: World, st: RunState, approval: Record, approved: Record)
    requires Hybrid(env, reader, ids) && InBudget(w) && Fits(st) && Fits(st.(status := PausedForApproval)) && st.status != PausedForApproval
    ensures InBudget(RunApproved(env, w, st, approval, approved).w)
  {
    hide AfterFailure, AfterSuccess, CallsLeft, Hybrid, Useful;
    ExecuteApprovedInBudget(env, reader, ids, w, approval.id);
    var e := ExecuteApproved(env, w, approval.id);
    hide ExecuteApproved, InBudget;
    if e.ok {
      AfterSuccessInBudget(env, reader, ids, e.w, st.(toolResult := e.result), ExecuteBody(approval, approved, e.result, NoError), e.result);
    } else {
      AfterFailureInBudget(env, e.w, st.(error := RouterFailed), ExecuteBody(approval, approved, None, RouterFailed));
    }
  }

  lemma ExecuteApprovedInBudget(env: Env, reader: Reader, ids: nat -> string, w: World, id: Id)
    requires Hybrid(env, reader, ids) && InBudget(w)
    ensures var e := ExecuteApproved(env, w, id); InBudget(e.w) && (e.ok ==> Useful(e.result))
  {
    hide Execute, InBudget, Hybrid, Useful, CloneMap, HashVerifies;
    if !w.dead && id in w.approvals {
      var record := CloneRecord(w.approvals[id]);
      ExecuteInBudget(env, reader, ids, w, record.proposal.(input := CloneMap(record.snapshot)), id);
    }
  }

  lemma AfterFailureInBudget(env: Env, w: World, st: RunState, body: Body)
    requires InBudget(w) && Fits(st)
    ensures InBudget(AfterFailure(env, w, st, body).w)
  {
    hide RecordStep, Transition, Abort, CallsLeft, InBudget;
    StageInBudget(env, w, st, ExecuteTool, StepFailed, body, ToolFailed);
    RecordInBudget(env, w, st, ExecuteTool, StepFailed, body);
    var x := RecordStep(env, w, st, ExecuteTool, StepFailed, body);
    var y := if x.ok then Transition(env, x.w, x.st, ToolFailed, x.step) else At(x.w, x.st);
    AbortInBudget(env, y.w, y.st, RouterFailed);
  }

  lemma CloseRejectedInBudget(env: Env, w: World, st: RunState)
    requires InBudget(w) && Fits(st)
    ensures InBudget(CloseRejected(env, w, st).w)
  {
    hide RecordStep, Transition, Abort, PersistAssistant, InBudget, Fits;
    StageInBudget(env, w, st, Summarize, StepCompleted, EMPTY, Summarizing);
    var r := RecordStep(env, w, st, Summarize, StepCompleted, EMPTY);
    if r.ok {
      var t := Transition(env, r.w, r.st, Summarizing, r.step);
      AssistantInBudget(env, t.w, t.st);
      var m := PersistAssistant(env, t.w);
      StageInBudget(env, m.w, t.st, Finalize, StepCompleted, EMPTY, ApprovalRejected);
      var f := RecordStep(env, m.w, t.st, Finalize, StepCompleted, EMPTY);
      LogInBudget(env, Transition(env, f.w, f.st, ApprovalRejected, f.step).w, Plain(RunCompleted));
    }
  }

  lemma RejectPausedInBudget(env: Env, w: World, st: RunState, id: Id)
    requires InBudget(w) && Fits(st)
    ensures InBudget(RejectPaused(env, w, st, id).w)
  {
    hide RecordStep, Transition, Abort, CloseRejected, CallsLeft, ApprovalBody, InBudget, ResolveApproval, Log;
    ResolveInBudget(w, id, false, "rejected from workflow");
    var (w1, rejected) := ResolveApproval(w, id, false, "rejected from workflow");
    if rejected.None? {
      AbortInBudget(env, w1, st, ResolveFailed);
    } else {
      var body := ApprovalBody(rejected.value);
      StageInBudget(env, w1, st, RequestApproval, StepCancelled, body, ApprovalRejected);
      var r := RecordStep(env, w1, st, RequestApproval, StepCancelled, body);
      if r.ok {
        var t := Transition(env, r.w, r.st, ApprovalRejected, r.step);
        var e := OfApproval(EventApprovalRejected, id);
        LogInBudget(env, t.w, e);
        CloseRejectedInBudget(env, Log(env, t.w, e), t.st);
      }
    }
  }

  lemma ResumeInBudget(env: Env, reader: Reader, ids: nat -> string, w: World, rid: Id, id: Id, approve: bool)
    requires Hybrid(env, reader, ids) && InBudget(w)
    ensures InBudget(ResumeRun(env, w, rid, id, approve).w)
  {
    hide Hybrid, ApprovePaused, RejectPaused, CallsLeft, LatestApproval, CloneRecord;
    if !w.dead && w.run.Some? {
      var st := w.run.value;
      var (h, approval) := HydrateApproval(w, id);
      assert InBudget(h);
      if st.status == PausedForApproval && approval.Some? {
        ApprovePausedInBudget(env, reader, ids, h, st, approval.value);
        RejectPausedInBudget(env, h, st, id);
      }
    }
  }

  lemma CancelInBudget(env: Env, w: World)
    requires InBudget(w)
    ensures InBudget(CancelRun(env, w).w)
  {
    hide RecordStep, Transition, CallsLeft, Abort, ResolveApproval, Log;
    if !w.dead && w.run.Some? && !Terminal(w.run.value.status) {
      var st := w.run.value;
      ResolveInBudget(w, st.approvalID, false, "run cancelled");
      var (w1, _) := if st.approvalID != NO_ID then ResolveApproval(w, st.approvalID, false, "run cancelled") else (w, None);
      assert Fits(st);
      hide InBudget;
      StageInBudget(env, w1, st, CancelStep, StepCancelled, EMPTY, Cancelled);
      var r := RecordStep(env, w1, st, CancelStep, StepCancelled, EMPTY);
      LogInBudget(env, Transition(env, r.w, r.st, Cancelled, r.step).w, Plain(RunCancelled));
    }
  }

  lemma {:induction false} CallsInBudget(env: Env, reader: Reader, ids: nat -> string, w: World, rid: Id, calls: seq<Call>)
    requires Hybrid(env, reader, ids) && InBudget(w)
    ensures InBudget(ApplyAll(env, rid, w, calls))
  {
    hide Hybrid, InBudget, ResumeRun, CancelRun;
    if calls != [] {
      var front := calls[..|calls| - 1];
      CallsInBudget(env, reader, ids, w, rid, front);
      var before := ApplyAll(env, rid, w, front);
      match calls[|calls| - 1]
      case Resume(id, approve) => ResumeInBudget(env, reader, ids, before, rid, id, approve);
      case Cancel => CancelInBudget(env, before);
      case Reboot => RestartInBudget(before);
    }
  }

  lemma RestartInBudget(w: World)
    requires InBudget(w)
    ensures InBudget(Restart(w))
  {}

  /** No session ever fails for lack of planner calls when the budget is the default or larger, and none
      counts more than six of them. */
  lemma DefaultBudgetSuffices(env: Env, reader: Reader, ids: nat -> string, setup: Setup, calls: seq<Call>)
    requires Hybrid(env, reader, ids) && CALLS <= Budget(setup.configured)
    ensures var w := Session(env, setup, calls);
      && (forall act :: act in w.trace ==> !Overrun(act))
      && (w.run.Some? ==> w.run.value.stepCount <= CALLS)
  {
    hide Hybrid, StartRun, ApplyAll, CallsLeft;
    StartInBudget(env, reader, ids, setup);
    CallsInBudget(env, reader, ids, StartRun(env, Genesis(setup), setup.rid, setup.message, setup.configured).w, setup.rid, calls);
  }

  /** When nothing crashes and no write is lost, six is also how often the planner is really called. */
  lemma AtMostSixPlannerCalls(env: Env, reader: Reader, ids: nat -> string, setup: Setup, calls: seq<Call>)
    requires Hybrid(env, reader, ids) && CALLS <= Budget(setup.configured)
    requires Conformance.Reliable(env) && Fresh(setup)
    ensures Projections.PlannerCalls(Session(env, setup, calls).trace) <= CALLS
  {
    hide Hybrid, Session;
    DefaultBudgetSuffices(env, reader, ids, setup, calls);
    Lifecycle.BudgetAcrossPauses(env, setup, calls);
  }
}
