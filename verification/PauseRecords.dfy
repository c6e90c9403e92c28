/** In every session, whatever crashes or is lost, a stored pause can be resumed: the durable log holds the
    record of the approval that the durable state waits for (internal/agent/runtime.go). */
module PauseRecords {
  import opened Base
  import opened Json
  import opened Types
  import opened Approvals
  import opened Policy
  import opened RunStates
  import opened Machine
  import Safety
  import RestartTransparency

  ghost predicate Mentioned(steps: seq<Step>, id: Id)
  {
    exists s :: s in steps && s.approval.Some? && s.approval.value.id == id
  }

  /** What the state waits for is in the log. */
  ghost predicate Held(steps: seq<Step>, st: RunState)
  {
    st.status == PausedForApproval ==> Mentioned(steps, st.approvalID)
  }

  /** Step ids are times, a stored pause is in the log, and the steps of `base` still are. */
  ghost predicate Resumable(base: seq<Step>, w: World)
  {
    && (forall s :: s in w.steps ==> s.stepID < w.clock)
    && (forall s :: s in base ==> s in w.steps)
    && (w.run.Some? ==> Held(w.steps, w.run.value))
  }

  ghost predicate Grows(a: World, b: World) { forall s :: s in a.steps ==> s in b.steps }

  lemma HeldLater(a: World, b: World, st: RunState)
    requires Held(a.steps, st) && Grows(a, b)
    ensures Held(b.steps, st)
  {}

  lemma {:induction false} MentionedMeansFound(steps: seq<Step>, id: Id)
    ensures Mentioned(steps, id) <==> LatestApproval(steps, id).Some?
  {
    if steps != [] {
      var front, last := steps[..|steps| - 1], steps[|steps| - 1];
      MentionedMeansFound(front, id);
      assert steps == front + [last];
      assert last in steps;
    }
  }

  // ---------- single effects ----------

  lemma NoteResumable(base: seq<Step>, w: World, act: Act)
    requires Resumable(base, w)
    ensures Resumable(base, Note(w, act)) && Note(w, act).steps == w.steps
  {}

  lemma TickResumable(base: seq<Step>, env: Env, w: World)
    requires Resumable(base, w)
    ensures Resumable(base, Tick(env, w)) && Tick(env, w).steps == w.steps
  {}

  lemma LogResumable(base: seq<Step>, env: Env, w: World, e: Event)
    requires Resumable(base, w)
    ensures Resumable(base, Log(env, w, e)) && Log(env, w, e).steps == w.steps
  {
    hide Resumable;
    TickResumable(base, env, w);
    NoteResumable(base, Tick(env, w), Written(env, w.clock, e));
  }

  lemma SaveStepResumable(base: seq<Step>, env: Env, w: World, step: Step)
    requires Resumable(base, w) && step.stepID == w.clock
    ensures var a := SaveStep(env, w, step);
      && Resumable(base, a.w) && Grows(w, a.w) && (a.ok && step.approval.Some? ==> Mentioned(a.w.steps, step.approval.value.id))
  {
    var a := SaveStep(env, w, step);
    if !Tick(env, w).dead && env.storeOk(w.clock) {
      var stored := StoredStep(env.red, step);
      UpsertFresh(w.steps, stored);
      assert stored in a.w.steps;
      hide Upsert;
      if w.run.Some? { HeldLater(w, a.w, w.run.value); }
    }
  }

  lemma SaveStateResumable(base: seq<Step>, env: Env, w: World, st: RunState)
    requires Resumable(base, w) && Held(w.steps, st)
    ensures Resumable(base, SaveState(env, w, st).w) && SaveState(env, w, st).w.steps == w.steps
  {
    StoredStateKeepsControl(env.red, st);
    hide StoredState;
  }

  lemma RecordResumable(base: seq<Step>, env: Env, w: World, st: RunState, kind: StepKind, status: StepStatus, body: Body)
    requires Resumable(base, w) && Held(w.steps, st)
    ensures var r := RecordStep(env, w, st, kind, status, body);
      && Resumable(base, r.w) && Held(r.w.steps, r.st) && Grows(w, r.w) && r.st.status == st.status && r.st.approvalID == st.approvalID
      && (r.ok && body.approval.Some? ==> Mentioned(r.w.steps, body.approval.value.id))
  {
    hide Mentioned, SaveStep, SaveState;
    var step := Step(w.clock, st.runID, st.stepIndex + 1, kind, status, body.proposal, body.approval, body.result, body.error);
    var st' := st.(currentStep := kind, stepIndex := step.index, updatedAt := w.clock);
    SaveStepResumable(base, env, w, step);
    var a := SaveStep(env, w, step);
    HeldLater(w, a.w, st);
    SaveStateResumable(base, env, a.w, st');
  }

  lemma TransitionResumable(base: seq<Step>, env: Env, w: World, st: RunState, status: RunStatus, step: Step)
    requires Resumable(base, w) && Held(w.steps, st.(status := status))
    ensures var t := Transition(env, w, st, status, step);
      && Resumable(base, t.w) && t.w.steps == w.steps && Held(t.w.steps, t.st) && t.st.status == status && t.st.approvalID == st.approvalID
  {
    hide Mentioned, SaveState;
    var st' := st.(status := status, currentStep := step.kind, stepIndex := step.index, updatedAt := w.clock);
    SaveStateResumable(base, env, w, st');
    LogResumable(base, env, SaveState(env, w, st').w, OfApproval(RunStateChanged, st'.approvalID));
  }

  lemma AbortResumable(base: seq<Step>, env: Env, w: World, st: RunState, cause: Cause)
    requires Resumable(base, w) && Held(w.steps, st)
    ensures Resumable(base, Abort(env, w, st, cause).w)
  {
    hide Mentioned, RecordStep, Transition, Resumable;
    var st1, body := st.(error := cause), EMPTY.(error := cause);
    RecordResumable(base, env, w, st1, Finalize, StepFailed, body);
    var r := RecordStep(env, w, st1, Finalize, StepFailed, body);
    TransitionResumable(base, env, r.w, r.st, Failed, r.step);
    var t := if r.ok then Transition(env, r.w, r.st, Failed, r.step) else At(r.w, r.st);
    LogResumable(base, env, t.w, Plain(RunFailed).(cause := cause));
  }

  /** A recorded step and its transition to a status other than paused. */
  lemma StageResumable(base: seq<Step>, env: Env, w: World, st: RunState, kind: StepKind, status: StepStatus, body: Body, next: RunStatus)
    requires Resumable(base, w) && Held(w.steps, st) && next != PausedForApproval
    ensures var r := RecordStep(env, w, st, kind, status, body); var t := Transition(env, r.w, r.st, next, r.step);
      && Resumable(base, r.w) && Resumable(base, t.w) && t.st.status == next && t.st.approvalID == st.approvalID
      && (r.ok && body.approval.Some? ==> Mentioned(t.w.steps, body.approval.value.id))
      && Resumable(base, Abort(env, r.w, r.st, StoreFailed).w) && Held(r.w.steps, r.st)
  {
    hide Mentioned, RecordStep, Transition, Abort, Resumable;
    RecordResumable(base, env, w, st, kind, status, body);
    var r := RecordStep(env, w, st, kind, status, body);
    TransitionResumable(base, env, r.w, r.st, next, r.step);
    AbortResumable(base, env, r.w, r.st, StoreFailed);
  }

  lemma AssistantResumable(base: seq<Step>, env: Env, w: World, st: RunState)
    requires Resumable(base, w) && Held(w.steps, st)
    ensures var m := PersistAssistant(env, w); Resumable(base, m.w) && Resumable(base, Abort(env, m.w, st, MessageFailed).w)
  {
    TickResumable(base, env, w);
    LogResumable(base, env, Tick(env, w), Plain(AssistantMessage));
    hide Abort, Resumable, Mentioned;
    AbortResumable(base, env, PersistAssistant(env, w).w, st, MessageFailed);
  }

  lemma CompleteResumable(base: seq<Step>, env: Env, w: World, st: RunState)
    requires Resumable(base, w) && st.status != PausedForApproval
    ensures Resumable(base, Complete(env, w, st).w)
  {
    hide RecordStep, Transition, Abort, PersistAssistant, Resumable;
    StageResumable(base, env, w, st, Summarize, StepCompleted, EMPTY, Summarizing);
    var r := RecordStep(env, w, st, Summarize, StepCompleted, EMPTY);
    if r.ok {
      var t := Transition(env, r.w, r.st, Summarizing, r.step);
      AssistantResumable(base, env, t.w, t.st);
      var m := PersistAssistant(env, t.w);
      StageResumable(base, env, m.w, t.st, Finalize, StepCompleted, EMPTY, Completed);
      var f := RecordStep(env, m.w, t.st, Finalize, StepCompleted, EMPTY);
      LogResumable(base, env, Transition(env, f.w, f.st, Completed, f.step).w, Plain(RunCompleted));
    }
  }

  // ---------- the router: the log and the state are not touched ----------

  lemma ExecuteResumable(base: seq<Step>, env: Env, w: World, p: Proposal, id: Id)
    requires Resumable(base, w)
    ensures var e := Execute(env, w, p, id); Resumable(base, e.w) && e.w.steps == w.steps
  {
    hide CloneMap, Resumable, Log;
    if env.registered(p.tool) {
      var started := Log(env, w, OfTool(EventToolStarted, p));
      LogResumable(base, env, w, OfTool(EventToolStarted, p));
      TickResumable(base, env, started);
      var t := Tick(env, started);
      var act := Executed(p.id, p.tool, CloneMap(p.input), id);
      NoteResumable(base, t, act);
      var ran := Note(t, act);
      var outcome := env.execute(started.clock, p.tool, CloneMap(p.input));
      LogResumable(base, env, ran, OfTool(EventToolOutput, p));
      var shown := if outcome.result.Some? then Log(env, ran, OfTool(EventToolOutput, p)) else ran;
      LogResumable(base, env, shown, OfTool(if outcome.failed then EventToolFailed else EventToolCompleted, p));
    }
  }

  lemma ProposeResumable(base: seq<Step>, env: Env, w: World, rid: Id, p: Proposal)
    requires Resumable(base, w)
    ensures Resumable(base, Propose(env, w, rid, p).w)
  {
    hide CloneMap, Resumable, Decide, Dispatch, Log;
    var first := OfTool(EventToolProposed, p).(input := CloneMap(p.input));
    LogResumable(base, env, w, first);
    var proposed := Log(env, w, first);
    TickResumable(base, env, proposed);
    var t := Tick(env, proposed);
    var inferred := env.infer(proposed.clock, p);
    if !t.dead && inferred.Some? {
      var d := Decide(env.policy, p, inferred.value);
      LogResumable(base, env, t, OfTool(EventEffectInferred, p));
      var told := Log(env, t, OfTool(EventEffectInferred, p));
      NoteResumable(base, told, DecidedOn(p, d));
      var e := OfTool(EventPolicyDecided, p).(decision := Some(d));
      LogResumable(base, env, Note(told, DecidedOn(p, d)), e);
      DispatchResumable(base, env, Log(env, Note(told, DecidedOn(p, d)), e), rid, p, inferred.value, d);
    }
  }

  lemma DispatchResumable(base: seq<Step>, env: Env, w: World, rid: Id, p: Proposal, inference: Inference, d: Decision)
    requires Resumable(base, w)
    ensures Resumable(base, Dispatch(env, w, rid, p, inference, d).w)
  {
    hide CloneMap, Mentioned, Draft, Execute, Log;
    ExecuteResumable(base, env, w, p, NO_ID);
    LogResumable(base, env, w, OfTool(EventPolicyDenied, p).(decision := Some(d)));
    var (created, record) := CreateApproval(env, w, rid, p, inference, d);
    assert Resumable(base, created);
    if record.Some? { LogResumable(base, env, created, OfApproval(EventApprovalRequested, record.value.id)); }
  }

  // ---------- the planning loop ----------

  ghost predicate TurnResumable(base: seq<Step>, t: Turn)
  {
    match t
    case Halt(out) => Resumable(base, out.w)
    case Again(w, st, _) => Resumable(base, w) && st.status != PausedForApproval
  }

  lemma PauseResumable(base: seq<Step>, env: Env, w: World, st: RunState, record: Record)
    requires Resumable(base, w) && st.status != PausedForApproval
    ensures TurnResumable(base, Pause(env, w, st, record))
  {
    hide RecordStep, Transition, Abort, PersistAssistant, Resumable, Mentioned, CloneMap;
    var st1 := st.(approvalID := record.id);
    var body := Body(st.proposal, Some(CloneRecord(record)), None, NoError);
    StageResumable(base, env, w, st1, RequestApproval, StepPaused, body, ApprovalRequested);
    var r := RecordStep(env, w, st1, RequestApproval, StepPaused, body);
    if r.ok {
      var t := Transition(env, r.w, r.st, ApprovalRequested, r.step);
      var act := Streamed(OfApproval(EventApprovalRequested, record.id));
      NoteResumable(base, t.w, act);
      TransitionResumable(base, env, Note(t.w, act), t.st, PausedForApproval, r.step);
      var q := Transition(env, Note(t.w, act), t.st, PausedForApproval, r.step);
      AssistantResumable(base, env, q.w, q.st);
      LogResumable(base, env, PersistAssistant(env, q.w).w, OfApproval(RunPaused, record.id));
    }
  }

  lemma FinishResumable(base: seq<Step>, env: Env, w: World, st: RunState, p: Proposal, result: Option<ToolResult>)
    requires Resumable(base, w) && st.status != PausedForApproval
    ensures TurnResumable(base, Finish(env, w, st, p, result))
  {
    hide RecordStep, Transition, Abort, Resumable, Mentioned;
    var failed := result.Some? && result.value.error != "";
    var cause := if failed then ToolError(result.value.error) else NoError;
    var status := if failed then StepFailed else StepCompleted;
    var body := Body(Some(p), None, result, cause);
    StageResumable(base, env, w, st, ExecuteTool, status, body, ToolExecuting);
    var r := RecordStep(env, w, st, ExecuteTool, status, body);
    if r.ok {
      var t := Transition(env, r.w, r.st, ToolExecuting, r.step);
      var st1 := if failed then t.st.(toolResult := result, error := cause) else t.st.(toolResult := result);
      var next := if failed then ToolFailed else ToolCompleted;
      TransitionResumable(base, env, t.w, st1, next, r.step);
      NoteResumable(base, Transition(env, t.w, st1, next, r.step).w, Streamed(Plain(EventToolOutput)));
    }
  }

  lemma AfterRoutingResumable(base: seq<Step>, env: Env, routed: Routed, st: RunState, p: Proposal)
    requires Resumable(base, routed.w) && st.status != PausedForApproval
    ensures TurnResumable(base, AfterRouting(env, routed, st, p))
  {
    hide RecordStep, Transition, Abort, Resumable, Mentioned, Pause, Finish;
    var body := EMPTY.(proposal := Some(p));
    StageResumable(base, env, routed.w, st, InferEffect, StepCompleted, body, EffectInferred);
    var r := RecordStep(env, routed.w, st, InferEffect, StepCompleted, body);
    if r.ok {
      var t := Transition(env, r.w, r.st, EffectInferred, r.step);
      StageResumable(base, env, t.w, t.st, DecidePolicy, StepCompleted, body, PolicyDecided);
      var d := RecordStep(env, t.w, t.st, DecidePolicy, StepCompleted, body);
      if d.ok {
        var u := Transition(env, d.w, d.st, PolicyDecided, d.step);
        if routed.approval.Some? {
          PauseResumable(base, env, u.w, u.st, routed.approval.value);
        } else {
          FinishResumable(base, env, u.w, u.st, p, routed.result);
        }
      }
    }
  }

  lemma UseToolResumable(base: seq<Step>, env: Env, w: World, st: RunState, p: Proposal)
    requires Resumable(base, w) && st.status != PausedForApproval
    ensures TurnResumable(base, UseTool(env, w, st, p))
  {
    hide RecordStep, Transition, Abort, Resumable, Mentioned, Propose, AfterRouting, CloneMap;
    var proposal := CloneProposal(p);
    var st1, body := st.(proposal := Some(proposal)), EMPTY.(proposal := Some(proposal));
    StageResumable(base, env, w, st1, ProposeTool, StepCompleted, body, ToolProposed);
    var r := RecordStep(env, w, st1, ProposeTool, StepCompleted, body);
    if r.ok {
      var t := Transition(env, r.w, r.st, ToolProposed, r.step);
      ProposeResumable(base, env, t.w, st.runID, p);
      var routed := Propose(env, t.w, st.runID, p);
      AfterRoutingResumable(base, env, routed, t.st, proposal);
      AbortResumable(base, env, routed.w, t.st, RouterFailed);
    }
  }

  lemma FollowResumable(base: seq<Step>, env: Env, w: World, st: RunState, last: Option<ToolResult>, plan: Plan)
    requires Resumable(base, w) && st.status != PausedForApproval
    ensures TurnResumable(base, Follow(env, w, st, last, plan))
  {
    hide RecordStep, Transition, Abort, Resumable, Mentioned, UseTool, Complete;
    TickResumable(base, env, w);
    match plan.decision
    case DecideContinue => StageResumable(base, env, w, st, ContinueStep, StepCompleted, EMPTY, PlanMade);
    case DecideAnswer =>
      AbortResumable(base, env, Tick(env, w), st, RunnerFailed);
      CompleteResumable(base, env, Tick(env, w), st);
      CompleteResumable(base, env, w, st);
    case DecideStop => CompleteResumable(base, env, w, st);
    case DecideTool =>
      if plan.proposal.None? {
        AbortResumable(base, env, w, st, MissingProposal);
      } else {
        UseToolResumable(base, env, w, st, plan.proposal.value);
      }
    case _ => AbortResumable(base, env, w, st, UnsupportedDecision);
  }

  lemma TurnoverResumable(base: seq<Step>, env: Env, w: World, st0: RunState, last: Option<ToolResult>)
    requires Resumable(base, w) && st0.status != PausedForApproval
    ensures TurnResumable(base, Turnover(env, w, st0, last))
  {
    hide RecordStep, Transition, Abort, Resumable, Mentioned, Follow, NormalizePlan;
    var st := st0.(stepCount := st0.stepCount + 1);
    var input := PlanInputOf(st, last);
    TickResumable(base, env, w);
    var t := Tick(env, w);
    NoteResumable(base, t, PlannerCalled(input));
    var called := Note(t, PlannerCalled(input));
    var answer := env.plan(w.clock, input);
    AbortResumable(base, env, called, st, PlannerFailed);
    if !t.dead && answer.Some? {
      var plan := NormalizePlan(answer.value, last);
      StageResumable(base, env, called, st, PlanStep, StepCompleted, PlanBody(plan), PlanMade);
      var r := RecordStep(env, called, st, PlanStep, StepCompleted, PlanBody(plan));
      if r.ok {
        var u := Transition(env, r.w, r.st, PlanMade, r.step);
        LogResumable(base, env, u.w, Plain(AssistantDelta));
        FollowResumable(base, env, if plan.preamble then Log(env, u.w, Plain(AssistantDelta)) else u.w, u.st, last, plan);
      }
    }
  }

  lemma {:induction false} ContinueResumable(base: seq<Step>, env: Env, w: World, st: RunState, last: Option<ToolResult>)
    requires Resumable(base, w) && st.status != PausedForApproval
    ensures Resumable(base, ContinueRun(env, w, st, last).w)
    decreases st.maxSteps - st.stepCount
  {
    hide Turnover, Abort, Resumable, Mentioned;
    if st.stepCount >= st.maxSteps {
      AbortResumable(base, env, w, st, MaxStepsExceeded);
    } else {
      TurnoverResumable(base, env, w, st, last);
      match Turnover(env, w, st, last)
      case Halt(_) =>
      case Again(w', st', last') => ContinueResumable(base, env, w', st', last');
    }
  }

  // ---------- the calls ----------

  lemma StartResumable(base: seq<Step>, env: Env, w: World, rid: Id, message: string, configured: nat)
    requires Resumable(base, w)
    ensures Resumable(base, StartRun(env, w, rid, message, configured).w)
  {
    hide RecordStep, Transition, Abort, Resumable, Mentioned, ContinueRun, SaveState;
    var st := InitialState(rid, message, Budget(configured), w.clock);
    SaveStateResumable(base, env, w, st);
    var s := SaveState(env, w, st);
    LogResumable(base, env, s.w, Plain(RunStarted));
    var started := Log(env, s.w, Plain(RunStarted));
    TickResumable(base, env, started);
    var m := Tick(env, started);
    TickResumable(base, env, m);
    var t := Tick(env, m);
    AbortResumable(base, env, t, st, ContextFailed);
    var built := env.context(m.clock);
    if built.Some? {
      var st1 := st.(context := built.value);
      StageResumable(base, env, t, st1, BuildContext, StepCompleted, EMPTY, ContextBuilt);
      var r := RecordStep(env, t, st1, BuildContext, StepCompleted, EMPTY);
      var c := Transition(env, r.w, r.st, ContextBuilt, r.step);
      ContinueResumable(base, env, c.w, c.st, None);
    }
  }

  lemma ResolveResumable(base: seq<Step>, w: World, id: Id, approve: bool, reason: string)
    requires Resumable(base, w)
    ensures var (r, _) := ResolveApproval(w, id, approve, reason); Resumable(base, r) && r.steps == w.steps
  {
    hide Mentioned, Settle, Resolution;
  }

  lemma RejectResumable(base: seq<Step>, env: Env, w: World, st: RunState, id: Id)
    requires Resumable(base, w) && Held(w.steps, st)
    ensures Resumable(base, RejectPaused(env, w, st, id).w)
  {
    hide RecordStep, Transition, Abort, Resumable, Mentioned, ResolveApproval, CloseRejected, ApprovalBody;
    ResolveResumable(base, w, id, false, "rejected from workflow");
    var (w1, rejected) := ResolveApproval(w, id, false, "rejected from workflow");
    AbortResumable(base, env, w1, st, ResolveFailed);
    if rejected.Some? {
      var body := ApprovalBody(rejected.value);
      StageResumable(base, env, w1, st, RequestApproval, StepCancelled, body, ApprovalRejected);
      var r := RecordStep(env, w1, st, RequestApproval, StepCancelled, body);
      var t := Transition(env, r.w, r.st, ApprovalRejected, r.step);
      var e := OfApproval(EventApprovalRejected, id);
      LogResumable(base, env, t.w, e);
      CloseResumable(base, env, Log(env, t.w, e), t.st);
    }
  }

  lemma CloseResumable(base: seq<Step>, env: Env, w: World, st: RunState)
    requires Resumable(base, w) && st.status != PausedForApproval
    ensures Resumable(base, CloseRejected(env, w, st).w)
  {
    hide RecordStep, Transition, Abort, PersistAssistant, Resumable;
    StageResumable(base, env, w, st, Summarize, StepCompleted, EMPTY, Summarizing);
    var r := RecordStep(env, w, st, Summarize, StepCompleted, EMPTY);
    if r.ok {
      var t := Transition(env, r.w, r.st, Summarizing, r.step);
      AssistantResumable(base, env, t.w, t.st);
      var m := PersistAssistant(env, t.w);
      StageResumable(base, env, m.w, t.st, Finalize, StepCompleted, EMPTY, ApprovalRejected);
      var f := RecordStep(env, m.w, t.st, Finalize, StepCompleted, EMPTY);
      LogResumable(base, env, Transition(env, f.w, f.st, ApprovalRejected, f.step).w, Plain(RunCompleted));
    }
  }

  lemma ExecuteApprovedResumable(base: seq<Step>, env: Env, w: World, id: Id)
    requires Resumable(base, w)
    ensures Resumable(base, ExecuteApproved(env, w, id).w)
  {
    hide Resumable, Mentioned, Execute, CloneMap, HashMap;
    if id in w.approvals {
      var record := CloneRecord(w.approvals[id]);
      ExecuteResumable(base, env, w, record.proposal.(input := CloneMap(record.snapshot)), id);
    }
  }

  lemma AfterFailureResumable(base: seq<Step>, env: Env, w: World, st: RunState, body: Body)
    requires Resumable(base, w) && st.status != PausedForApproval
    ensures Resumable(base, AfterFailure(env, w, st, body).w)
  {
    hide RecordStep, Transition, Abort, Resumable, Mentioned;
    StageResumable(base, env, w, st, ExecuteTool, StepFailed, body, ToolFailed);
    var x := RecordStep(env, w, st, ExecuteTool, StepFailed, body);
    var y := if x.ok then Transition(env, x.w, x.st, ToolFailed, x.step) else At(x.w, x.st);
    AbortResumable(base, env, y.w, y.st, RouterFailed);
  }

  lemma AfterSuccessResumable(base: seq<Step>, env: Env, w: World, st: RunState, body: Body, result: Option<ToolResult>)
    requires Resumable(base, w) && st.status != PausedForApproval
    ensures Resumable(base, AfterSuccess(env, w, st, body, result).w)
  {
    hide RecordStep, Transition, Abort, Resumable, Mentioned, ContinueRun, SaveState;
    StageResumable(base, env, w, st, ExecuteTool, StepCompleted, body, ToolCompleted);
    var x := RecordStep(env, w, st, ExecuteTool, StepCompleted, body);
    if x.ok {
      var y := Transition(env, x.w, x.st, ToolCompleted, x.step);
      var act := Streamed(OfApproval(EventToolOutput, st.approvalID));
      NoteResumable(base, y.w, act);
      var shown := if result.Some? then Note(y.w, act) else y.w;
      var cleared := y.st.(approvalID := NO_ID);
      SaveStateResumable(base, env, shown, cleared);
      ContinueResumable(base, env, SaveState(env, shown, cleared).w, cleared, result);
    }
  }

  lemma ApproveResumable(base: seq<Step>, env: Env, w: World, st: RunState, approval: Record)
    requires Resumable(base, w) && Held(w.steps, st)
    ensures Resumable(base, ApprovePaused(env, w, st, approval).w)
  {
    hide RecordStep, Transition, Abort, Resumable, Mentioned, ResolveApproval, RunApproved, ApprovalBody;
    ResolveResumable(base, w, approval.id, true, "");
    var (w1, approved) := ResolveApproval(w, approval.id, true, "");
    AbortResumable(base, env, w1, st, ResolveFailed);
    if approved.Some? {
      var body := ApprovalBody(approved.value);
      StageResumable(base, env, w1, st, RequestApproval, StepCompleted, body, ApprovalApproved);
      var r := RecordStep(env, w1, st, RequestApproval, StepCompleted, body);
      var t := Transition(env, r.w, r.st, ApprovalApproved, r.step);
      var said := OfApproval(EventApprovalApproved, approval.id);
      LogResumable(base, env, t.w, said);
      TransitionResumable(base, env, Log(env, t.w, said), t.st, ToolExecuting, r.step);
      var u := Transition(env, Log(env, t.w, said), t.st, ToolExecuting, r.step);
      RunApprovedResumable(base, env, u.w, u.st, approval, approved.value);
    }
  }

  lemma RunApprovedResumable(base: seq<Step>, env: Env, w: World, st: RunState, approval: Record, approved: Record)
    requires Resumable(base, w) && st.status != PausedForApproval
    ensures Resumable(base, RunApproved(env, w, st, approval, approved).w)
  {
    hide ExecuteApproved, AfterFailure, AfterSuccess, ExecuteBody, Resumable, Mentioned;
    ExecuteApprovedResumable(base, env, w, approval.id);
    var e := ExecuteApproved(env, w, approval.id);
    if e.ok {
      AfterSuccessResumable(base, env, e.w, st.(toolResult := e.result), ExecuteBody(approval, approved, e.result, NoError), e.result);
    } else {
      AfterFailureResumable(base, env, e.w, st.(error := RouterFailed), ExecuteBody(approval, approved, None, RouterFailed));
    }
  }

  lemma ResumeResumable(base: seq<Step>, env: Env, rid: Id, w: World, id: Id, approve: bool)
    requires Resumable(base, w)
    ensures Resumable(base, ResumeRun(env, w, rid, id, approve).w)
  {
    hide ApprovePaused, RejectPaused, LatestApproval, CloneRecord, Mentioned;
    if !w.dead && w.run.Some? {
      var (h, approval) := HydrateApproval(w, id);
      assert Resumable(base, h) && h.steps == w.steps;
      if approval.Some? {
        ApproveResumable(base, env, h, w.run.value, approval.value);
        RejectResumable(base, env, h, w.run.value, id);
      }
    }
  }

  lemma RunHeld(base: seq<Step>, w: World)
    requires Resumable(base, w) && w.run.Some?
    ensures Held(w.steps, w.run.value)
  {}

  lemma CancelResumable(base: seq<Step>, env: Env, w: World)
    requires Resumable(base, w)
    ensures Resumable(base, CancelRun(env, w).w)
  {
    hide Resumable, Held, RecordStep, Transition, Abort, ResolveApproval, Log;
    if !w.dead && w.run.Some? {
      var st := w.run.value;
      RunHeld(base, w);
      ResolveResumable(base, w, st.approvalID, false, "run cancelled");
      var (w1, _) := if st.approvalID != NO_ID then ResolveApproval(w, st.approvalID, false, "run cancelled") else (w, None);
      StageResumable(base, env, w1, st, CancelStep, StepCancelled, EMPTY, Cancelled);
      var r := RecordStep(env, w1, st, CancelStep, StepCancelled, EMPTY);
      LogResumable(base, env, Transition(env, r.w, r.st, Cancelled, r.step).w, Plain(RunCancelled));
    }
  }

  lemma {:induction false} CallsResumable(base: seq<Step>, env: Env, rid: Id, w: World, calls: seq<Call>)
    requires Resumable(base, w)
    ensures Resumable(base, ApplyAll(env, rid, w, calls))
  {
    hide Resumable, ResumeRun, CancelRun, Restart;
    if calls != [] {
      var front := calls[..|calls| - 1];
      CallsResumable(base, env, rid, w, front);
      var before := ApplyAll(env, rid, w, front);
      match calls[|calls| - 1]
      case Resume(id, approve) => ResumeResumable(base, env, rid, before, id, approve);
      case Cancel => CancelResumable(base, env, before);
      case Reboot => RestartResumable(base, before);
    }
  }

  lemma RestartResumable(base: seq<Step>, w: World)
    requires Resumable(base, w)
    ensures Resumable(base, Restart(w))
  {}

  // ---------- the theorems ----------

  /** Whenever the durable state is paused, the durable log has a record of the approval it waits for, of
      this run and with a verifying hash, pending unless the log also holds the verdict. */
  lemma PausedHasRecord(env: Env, setup: Setup, calls: seq<Call>)
    requires Fresh(setup)
    requires var w := Session(env, setup, calls); w.run.Some? && w.run.value.status == PausedForApproval
    ensures var w := Session(env, setup, calls); var id := w.run.value.approvalID;
      && LatestApproval(w.steps, id).Some?
      && var r := LatestApproval(w.steps, id).value;
      && r.id == id != NO_ID && r.runID == setup.rid && HashVerifies(r)
      && (r.status == Pending ==> !Safety.SettledInLog(w.steps, id))
  {
    var w := Session(env, setup, calls);
    hide Session, Safety.Inv, StartRun, ApplyAll, HashVerifies, Safety.SettledInLog, LatestApproval;
    Started(env, setup);
    CallsResumable([], env, setup.rid, StartRun(env, Genesis(setup), setup.rid, setup.message, setup.configured).w, calls);
    SessionIs(env, setup, calls);
    var id := w.run.value.approvalID;
    MentionedMeansFound(w.steps, id);
    Safety.SessionKeeps(env, setup, calls);
    RestartTransparency.LogMatchesStore(setup.rid, w, id);
    LatestIsLast(setup.rid, w, id);
  }

  lemma {:induction false} ApplyAppend(env: Env, rid: Id, w: World, calls: seq<Call>, more: seq<Call>)
    ensures ApplyAll(env, rid, w, calls + more) == ApplyAll(env, rid, ApplyAll(env, rid, w, calls), more)
  {
    hide Apply;
    if more == [] {
      assert calls + more == calls;
    } else {
      var all := calls + more;
      assert all[..|all| - 1] == calls + more[..|more| - 1] && all[|all| - 1] == more[|more| - 1];
      ApplyAppend(env, rid, w, calls, more[..|more| - 1]);
    }
  }

  /** The durable log only grows: no step that was ever stored is changed or lost by any later call of the same or
      of another process, wherever processes died and whichever writes failed. */
  lemma LogOnlyGrows(env: Env, setup: Setup, calls: seq<Call>, more: seq<Call>, s: Step)
    requires s in Session(env, setup, calls).steps
    ensures s in Session(env, setup, calls + more).steps
  {
    hide StartRun, ApplyAll;
    var begun := StartRun(env, Genesis(setup), setup.rid, setup.message, setup.configured).w;
    SessionIs(env, setup, calls);
    SessionIs(env, setup, calls + more);
    hide Session, Resumable;
    ApplyAppend(env, setup.rid, begun, calls, more);
    var w := Session(env, setup, calls);
    Started(env, setup);
    CallsResumable([], env, setup.rid, begun, calls);
    Rebased([], w);
    CallsResumable(w.steps, env, setup.rid, w, more);
    Based(w.steps, Session(env, setup, calls + more));
  }

  lemma Started(env: Env, setup: Setup)
    ensures Resumable([], StartRun(env, Genesis(setup), setup.rid, setup.message, setup.configured).w)
  {
    assert Resumable([], Genesis(setup));
    hide Resumable, StartRun, Genesis;
    StartResumable([], env, Genesis(setup), setup.rid, setup.message, setup.configured);
  }

  lemma Rebased(base: seq<Step>, w: World)
    requires Resumable(base, w)
    ensures Resumable(w.steps, w)
  {}

  lemma Based(base: seq<Step>, w: World)
    requires Resumable(base, w)
    ensures forall s :: s in base ==> s in w.steps
  {}

  lemma SessionIs(env: Env, setup: Setup, calls: seq<Call>)
    ensures Session(env, setup, calls)
         == ApplyAll(env, setup.rid, StartRun(env, Genesis(setup), setup.rid, setup.message, setup.configured).w, calls)
  {
    hide StartRun, ApplyAll;
  }

  lemma LatestIsLast(rid: Id, w: World, id: Id)
    requires Safety.Inv(rid, w) && LatestApproval(w.steps, id).Some?
    ensures LatestApproval(w.steps, id).value.status == Pending ==> !Safety.SettledInLog(w.steps, id)
  {
    Safety.LatestSound(rid, w.clock, w.trace, w.steps, id);
  }

  /** Every stored pause of every session, with any crashes and lost writes: a new process resumes it exactly
      as the old one would, unless the old one had settled the approval without the log hearing of it. */
  lemma EveryPauseRestarts(env: Env, setup: Setup, calls: seq<Call>, approve: bool)
    requires Fresh(setup)
    requires var w := Session(env, setup, calls); !w.dead && w.run.Some? && w.run.value.status == PausedForApproval
    ensures var w := Session(env, setup, calls); var id := w.run.value.approvalID;
      && LatestApproval(w.steps, id).Some?
      && (RestartTransparency.TwinOut(ResumeRun(env, w, setup.rid, id, approve),
                                      ResumeRun(env, Restart(w), setup.rid, id, approve), |w.trace|, |w.trace| + 1)
          <==> !RestartTransparency.Forgotten(w, id))
  {
    hide Session, ResumeRun, Safety.Inv, LatestApproval, HashVerifies, Safety.SettledInLog;
    hide RestartTransparency.TwinOut, RestartTransparency.Forgotten;
    PausedHasRecord(env, setup, calls);
    Safety.SessionKeeps(env, setup, calls);
    RestartTransparency.RestartIsTransparentExactly(env, setup.rid, Session(env, setup, calls), approve);
  }
}
