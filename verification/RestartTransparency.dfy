/** Losing the approval store between a pause and its resumption makes no difference: the record is
    rebuilt from the durable log, and nothing else of the store is ever read (internal/agent/runtime.go). */
module RestartTransparency {
  import opened Base
  import opened Json
  import opened Types
  import opened Approvals
  import opened Policy
  import opened RunStates
  import opened Machine
  import opened History
  import opened Safety
  import Conformance

  /** The two worlds differ only in what the approval store holds and in what happened before: the acts
      since `p` here and since `q` there are the same. */
  ghost predicate Twin(x: World, y: World, p: nat, q: nat)
  {
    && x.dead == y.dead && x.clock == y.clock && x.run == y.run && x.steps == y.steps
    && p <= |x.trace| && q <= |y.trace| && x.trace[p..] == y.trace[q..]
  }

  ghost predicate TwinAt(x: At, y: At, p: nat, q: nat) { Twin(x.w, y.w, p, q) && x.st == y.st }

  ghost predicate TwinOut(x: Out, y: Out, p: nat, q: nat) { Twin(x.w, y.w, p, q) && x.st == y.st && x.ok == y.ok }

  ghost predicate TwinTurn(x: Turn, y: Turn, p: nat, q: nat)
  {
    match (x, y)
    case (Halt(a), Halt(b)) => TwinOut(a, b, p, q)
    case (Again(a, s, l), Again(b, t, m)) => Twin(a, b, p, q) && s == t && l == m
    case _ => false
  }

  // ---------- single effects ----------

  lemma NoteTwin(x: World, y: World, p: nat, q: nat, act: Act)
    requires Twin(x, y, p, q)
    ensures Twin(Note(x, act), Note(y, act), p, q)
  {
    if !x.dead {
      assert (x.trace + [act])[p..] == x.trace[p..] + [act];
      assert (y.trace + [act])[q..] == y.trace[q..] + [act];
    }
  }

  lemma LogTwin(env: Env, x: World, y: World, p: nat, q: nat, e: Event)
    requires Twin(x, y, p, q)
    ensures Twin(Log(env, x, e), Log(env, y, e), p, q)
  {
    NoteTwin(Tick(env, x), Tick(env, y), p, q, Written(env, x.clock, e));
  }

  lemma RecordTwin(env: Env, x: World, y: World, p: nat, q: nat, st: RunState, kind: StepKind, status: StepStatus, body: Body)
    requires Twin(x, y, p, q)
    ensures var r, s := RecordStep(env, x, st, kind, status, body), RecordStep(env, y, st, kind, status, body);
      Twin(r.w, s.w, p, q) && r.st == s.st && r.step == s.step && r.ok == s.ok
  {
    hide Upsert, StoredStep, StoredState;
  }

  lemma TransitionTwin(env: Env, x: World, y: World, p: nat, q: nat, st: RunState, status: RunStatus, step: Step)
    requires Twin(x, y, p, q)
    ensures TwinAt(Transition(env, x, st, status, step), Transition(env, y, st, status, step), p, q)
  {
    hide StoredState;
    var st' := st.(status := status, currentStep := step.kind, stepIndex := step.index, updatedAt := x.clock);
    LogTwin(env, SaveState(env, x, st').w, SaveState(env, y, st').w, p, q, OfApproval(RunStateChanged, st'.approvalID));
  }

  lemma AbortTwin(env: Env, x: World, y: World, p: nat, q: nat, st: RunState, cause: Cause)
    requires Twin(x, y, p, q)
    ensures TwinOut(Abort(env, x, st, cause), Abort(env, y, st, cause), p, q)
  {
    hide RecordStep, Transition, Note, Log;
    var st1, body := st.(error := cause), EMPTY.(error := cause);
    RecordTwin(env, x, y, p, q, st1, Finalize, StepFailed, body);
    var r, s := RecordStep(env, x, st1, Finalize, StepFailed, body), RecordStep(env, y, st1, Finalize, StepFailed, body);
    if r.ok { TransitionTwin(env, r.w, s.w, p, q, r.st, Failed, r.step); }
    var t := if r.ok then Transition(env, r.w, r.st, Failed, r.step) else At(r.w, r.st);
    var u := if s.ok then Transition(env, s.w, s.st, Failed, s.step) else At(s.w, s.st);
    LogTwin(env, t.w, u.w, p, q, Plain(RunFailed).(cause := cause));
  }

  /** A recorded step and its transition, or the failure to record it. */
  lemma StageTwin(env: Env, x: World, y: World, p: nat, q: nat, st: RunState, kind: StepKind, status: StepStatus, body: Body, next: RunStatus)
    requires Twin(x, y, p, q)
    ensures var r, s := RecordStep(env, x, st, kind, status, body), RecordStep(env, y, st, kind, status, body);
      && r.ok == s.ok && r.st == s.st && r.step == s.step && Twin(r.w, s.w, p, q)
      && TwinAt(Transition(env, r.w, r.st, next, r.step), Transition(env, s.w, s.st, next, s.step), p, q)
      && TwinOut(Abort(env, r.w, r.st, StoreFailed), Abort(env, s.w, s.st, StoreFailed), p, q)
  {
    hide RecordStep, Transition, Abort;
    RecordTwin(env, x, y, p, q, st, kind, status, body);
    var r, s := RecordStep(env, x, st, kind, status, body), RecordStep(env, y, st, kind, status, body);
    TransitionTwin(env, r.w, s.w, p, q, r.st, next, r.step);
    AbortTwin(env, r.w, s.w, p, q, r.st, StoreFailed);
  }

  lemma AssistantTwin(env: Env, x: World, y: World, p: nat, q: nat, st: RunState)
    requires Twin(x, y, p, q)
    ensures var m, n := PersistAssistant(env, x), PersistAssistant(env, y);
      && Twin(m.w, n.w, p, q) && m.ok == n.ok
      && TwinOut(Abort(env, m.w, st, MessageFailed), Abort(env, n.w, st, MessageFailed), p, q)
  {
    hide Abort;
    LogTwin(env, Tick(env, x), Tick(env, y), p, q, Plain(AssistantMessage));
    AbortTwin(env, PersistAssistant(env, x).w, PersistAssistant(env, y).w, p, q, st, MessageFailed);
  }

  lemma CompleteTwin(env: Env, x: World, y: World, p: nat, q: nat, st: RunState)
    requires Twin(x, y, p, q)
    ensures TwinOut(Complete(env, x, st), Complete(env, y, st), p, q)
  {
    hide Abort, RecordStep, Transition, PersistAssistant, Note, Log;
    StageTwin(env, x, y, p, q, st, Summarize, StepCompleted, EMPTY, Summarizing);
    var r, s := RecordStep(env, x, st, Summarize, StepCompleted, EMPTY), RecordStep(env, y, st, Summarize, StepCompleted, EMPTY);
    if r.ok {
      var t, u := Transition(env, r.w, r.st, Summarizing, r.step), Transition(env, s.w, s.st, Summarizing, s.step);
      AssistantTwin(env, t.w, u.w, p, q, t.st);
      var m, n := PersistAssistant(env, t.w), PersistAssistant(env, u.w);
      if m.ok {
        StageTwin(env, m.w, n.w, p, q, t.st, Finalize, StepCompleted, EMPTY, Completed);
        var f, g := RecordStep(env, m.w, t.st, Finalize, StepCompleted, EMPTY), RecordStep(env, n.w, u.st, Finalize, StepCompleted, EMPTY);
        if f.ok {
          LogTwin(env, Transition(env, f.w, f.st, Completed, f.step).w, Transition(env, g.w, g.st, Completed, g.step).w, p, q, Plain(RunCompleted));
        }
      }
    }
  }

  // ---------- the router ----------

  lemma ExecuteTwin(env: Env, x: World, y: World, p: nat, q: nat, proposal: Proposal, id: Id)
    requires Twin(x, y, p, q)
    ensures var e, f := Execute(env, x, proposal, id), Execute(env, y, proposal, id);
      Twin(e.w, f.w, p, q) && e.ok == f.ok && e.result == f.result
  {
    hide Note, Log, CloneMap;
    if env.registered(proposal.tool) {
      LogTwin(env, x, y, p, q, OfTool(EventToolStarted, proposal));
      var a, b := Log(env, x, OfTool(EventToolStarted, proposal)), Log(env, y, OfTool(EventToolStarted, proposal));
      assert Twin(Tick(env, a), Tick(env, b), p, q);
      var t, u := Tick(env, a), Tick(env, b);
      if !t.dead {
        var act := Executed(proposal.id, proposal.tool, CloneMap(proposal.input), id);
        NoteTwin(t, u, p, q, act);
        var outcome := env.execute(a.clock, proposal.tool, CloneMap(proposal.input));
        var shown := OfTool(EventToolOutput, proposal);
        LogTwin(env, Note(t, act), Note(u, act), p, q, shown);
        var c := if outcome.result.Some? then Log(env, Note(t, act), shown) else Note(t, act);
        var d := if outcome.result.Some? then Log(env, Note(u, act), shown) else Note(u, act);
        LogTwin(env, c, d, p, q, OfTool(if outcome.failed then EventToolFailed else EventToolCompleted, proposal));
      }
    }
  }

  lemma DispatchTwin(env: Env, x: World, y: World, p: nat, q: nat, rid: Id, proposal: Proposal, inference: Inference, decision: Decision)
    requires Twin(x, y, p, q)
    ensures var r, s := Dispatch(env, x, rid, proposal, inference, decision), Dispatch(env, y, rid, proposal, inference, decision);
      Twin(r.w, s.w, p, q) && r.(w := s.w) == s
  {
    hide Note, Log, Draft, CloneMap, Execute;
    if decision.requiresApproval {
      var draft := Draft(x.clock, rid, proposal, inference, decision);
      var t, u := Tick(env, x), Tick(env, y);
      if !t.dead && draft.Some? {
        var record := CloneRecord(draft.value);
        var a, b := t.(approvals := t.approvals[x.clock := draft.value]), u.(approvals := u.approvals[y.clock := draft.value]);
        NoteTwin(a, b, p, q, Created(record));
        LogTwin(env, Note(a, Created(record)), Note(b, Created(record)), p, q, OfApproval(EventApprovalRequested, record.id));
      }
    } else if !decision.allowed {
      LogTwin(env, x, y, p, q, OfTool(EventPolicyDenied, proposal).(decision := Some(decision)));
    } else {
      ExecuteTwin(env, x, y, p, q, proposal, NO_ID);
    }
  }

  lemma ProposeTwin(env: Env, x: World, y: World, p: nat, q: nat, rid: Id, proposal: Proposal)
    requires Twin(x, y, p, q)
    ensures var r, s := Propose(env, x, rid, proposal), Propose(env, y, rid, proposal);
      Twin(r.w, s.w, p, q) && r.(w := s.w) == s
  {
    hide Note, Log, CloneMap, Dispatch, Decide;
    var first := OfTool(EventToolProposed, proposal).(input := CloneMap(proposal.input));
    LogTwin(env, x, y, p, q, first);
    var a, b := Log(env, x, first), Log(env, y, first);
    var t, u := Tick(env, a), Tick(env, b);
    assert Twin(t, u, p, q);
    var inferred := env.infer(a.clock, proposal);
    if !t.dead && inferred.Some? {
      var decision := Decide(env.policy, proposal, inferred.value);
      var second, third := OfTool(EventEffectInferred, proposal), OfTool(EventPolicyDecided, proposal).(decision := Some(decision));
      LogTwin(env, t, u, p, q, second);
      var c, d := Log(env, t, second), Log(env, u, second);
      var act := DecidedOn(proposal, decision);
      NoteTwin(c, d, p, q, act);
      LogTwin(env, Note(c, act), Note(d, act), p, q, third);
      DispatchTwin(env, Log(env, Note(c, act), third), Log(env, Note(d, act), third), p, q, rid, proposal, inferred.value, decision);
    }
  }

  // ---------- the planning loop ----------

  lemma PauseTwin(env: Env, x: World, y: World, p: nat, q: nat, st: RunState, record: Record)
    requires Twin(x, y, p, q)
    ensures TwinTurn(Pause(env, x, st, record), Pause(env, y, st, record), p, q)
  {
    hide Abort, RecordStep, Transition, PersistAssistant, Note, Log, CloneRecord;
    var st1 := st.(approvalID := record.id);
    var body := Body(st.proposal, Some(CloneRecord(record)), None, NoError);
    StageTwin(env, x, y, p, q, st1, RequestApproval, StepPaused, body, ApprovalRequested);
    var r, s := RecordStep(env, x, st1, RequestApproval, StepPaused, body), RecordStep(env, y, st1, RequestApproval, StepPaused, body);
    if r.ok {
      var t, u := Transition(env, r.w, r.st, ApprovalRequested, r.step), Transition(env, s.w, s.st, ApprovalRequested, s.step);
      var act := Streamed(OfApproval(EventApprovalRequested, record.id));
      NoteTwin(t.w, u.w, p, q, act);
      TransitionTwin(env, Note(t.w, act), Note(u.w, act), p, q, t.st, PausedForApproval, r.step);
      var a, b := Transition(env, Note(t.w, act), t.st, PausedForApproval, r.step), Transition(env, Note(u.w, act), u.st, PausedForApproval, s.step);
      AssistantTwin(env, a.w, b.w, p, q, a.st);
      var m, n := PersistAssistant(env, a.w), PersistAssistant(env, b.w);
      LogTwin(env, m.w, n.w, p, q, OfApproval(RunPaused, record.id));
    }
  }

  lemma FinishTwin(env: Env, x: World, y: World, p: nat, q: nat, st: RunState, proposal: Proposal, result: Option<ToolResult>)
    requires Twin(x, y, p, q)
    ensures TwinTurn(Finish(env, x, st, proposal, result), Finish(env, y, st, proposal, result), p, q)
  {
    hide Abort, RecordStep, Transition, Note, Log;
    var failed := result.Some? && result.value.error != "";
    var cause := if failed then ToolError(result.value.error) else NoError;
    var status := if failed then StepFailed else StepCompleted;
    var body := Body(Some(proposal), None, result, cause);
    StageTwin(env, x, y, p, q, st, ExecuteTool, status, body, ToolExecuting);
    var r, s := RecordStep(env, x, st, ExecuteTool, status, body), RecordStep(env, y, st, ExecuteTool, status, body);
    if r.ok {
      var t, u := Transition(env, r.w, r.st, ToolExecuting, r.step), Transition(env, s.w, s.st, ToolExecuting, s.step);
      var st' := if failed then t.st.(toolResult := result, error := cause) else t.st.(toolResult := result);
      var next := if failed then ToolFailed else ToolCompleted;
      TransitionTwin(env, t.w, u.w, p, q, st', next, r.step);
      NoteTwin(Transition(env, t.w, st', next, r.step).w, Transition(env, u.w, st', next, s.step).w, p, q, Streamed(Plain(EventToolOutput)));
    }
  }

  lemma AfterRoutingTwin(env: Env, x: Routed, y: Routed, p: nat, q: nat, st: RunState, proposal: Proposal)
    requires Twin(x.w, y.w, p, q) && x.(w := y.w) == y
    ensures TwinTurn(AfterRouting(env, x, st, proposal), AfterRouting(env, y, st, proposal), p, q)
  {
    hide Abort, RecordStep, Transition, Pause, Finish;
    var body := EMPTY.(proposal := Some(proposal));
    StageTwin(env, x.w, y.w, p, q, st, InferEffect, StepCompleted, body, EffectInferred);
    var r, s := RecordStep(env, x.w, st, InferEffect, StepCompleted, body), RecordStep(env, y.w, st, InferEffect, StepCompleted, body);
    if r.ok {
      var t, u := Transition(env, r.w, r.st, EffectInferred, r.step), Transition(env, s.w, s.st, EffectInferred, s.step);
      StageTwin(env, t.w, u.w, p, q, t.st, DecidePolicy, StepCompleted, body, PolicyDecided);
      var d, e := RecordStep(env, t.w, t.st, DecidePolicy, StepCompleted, body), RecordStep(env, u.w, u.st, DecidePolicy, StepCompleted, body);
      if d.ok {
        var a, b := Transition(env, d.w, d.st, PolicyDecided, d.step), Transition(env, e.w, e.st, PolicyDecided, e.step);
        if x.approval.Some? {
          PauseTwin(env, a.w, b.w, p, q, a.st, x.approval.value);
        } else {
          FinishTwin(env, a.w, b.w, p, q, a.st, proposal, x.result);
        }
      }
    }
  }

  lemma UseToolTwin(env: Env, x: World, y: World, p: nat, q: nat, st: RunState, proposal: Proposal)
    requires Twin(x, y, p, q)
    ensures TwinTurn(UseTool(env, x, st, proposal), UseTool(env, y, st, proposal), p, q)
  {
    hide Abort, RecordStep, Transition, AfterRouting, Propose, CloneMap;
    var cloned := CloneProposal(proposal);
    var st1, body := st.(proposal := Some(cloned)), EMPTY.(proposal := Some(cloned));
    StageTwin(env, x, y, p, q, st1, ProposeTool, StepCompleted, body, ToolProposed);
    var r, s := RecordStep(env, x, st1, ProposeTool, StepCompleted, body), RecordStep(env, y, st1, ProposeTool, StepCompleted, body);
    if r.ok {
      var t, u := Transition(env, r.w, r.st, ToolProposed, r.step), Transition(env, s.w, s.st, ToolProposed, s.step);
      ProposeTwin(env, t.w, u.w, p, q, st.runID, proposal);
      var a, b := Propose(env, t.w, st.runID, proposal), Propose(env, u.w, st.runID, proposal);
      AbortTwin(env, a.w, b.w, p, q, t.st, RouterFailed);
      AfterRoutingTwin(env, a, b, p, q, t.st, cloned);
    }
  }

  lemma FollowTwin(env: Env, x: World, y: World, p: nat, q: nat, st: RunState, last: Option<ToolResult>, plan: Plan)
    requires Twin(x, y, p, q)
    ensures TwinTurn(Follow(env, x, st, last, plan), Follow(env, y, st, last, plan), p, q)
  {
    hide Abort, RecordStep, Transition, Complete, UseTool;
    match plan.decision
    case DecideContinue =>
      StageTwin(env, x, y, p, q, st, ContinueStep, StepCompleted, EMPTY, PlanMade);
    case DecideAnswer =>
      assert Twin(Tick(env, x), Tick(env, y), p, q);
      AbortTwin(env, Tick(env, x), Tick(env, y), p, q, st, RunnerFailed);
      CompleteTwin(env, Tick(env, x), Tick(env, y), p, q, st);
      CompleteTwin(env, x, y, p, q, st);
    case DecideStop =>
      CompleteTwin(env, x, y, p, q, st);
    case DecideTool =>
      if plan.proposal.None? {
        AbortTwin(env, x, y, p, q, st, MissingProposal);
      } else {
        UseToolTwin(env, x, y, p, q, st, plan.proposal.value);
      }
    case _ =>
      AbortTwin(env, x, y, p, q, st, UnsupportedDecision);
  }

  lemma TurnoverTwin(env: Env, x: World, y: World, p: nat, q: nat, st0: RunState, last: Option<ToolResult>)
    requires Twin(x, y, p, q)
    ensures TwinTurn(Turnover(env, x, st0, last), Turnover(env, y, st0, last), p, q)
  {
    hide Abort, RecordStep, Transition, Follow, NormalizePlan, Note, Log;
    var st := st0.(stepCount := st0.stepCount + 1);
    var input := PlanInputOf(st, last);
    var t, u := Tick(env, x), Tick(env, y);
    assert Twin(t, u, p, q);
    NoteTwin(t, u, p, q, PlannerCalled(input));
    var a, b := Note(t, PlannerCalled(input)), Note(u, PlannerCalled(input));
    var answer := env.plan(x.clock, input);
    if t.dead || answer.None? {
      AbortTwin(env, a, b, p, q, st, PlannerFailed);
    } else {
      var plan := NormalizePlan(answer.value, last);
      StageTwin(env, a, b, p, q, st, PlanStep, StepCompleted, PlanBody(plan), PlanMade);
      var r, s := RecordStep(env, a, st, PlanStep, StepCompleted, PlanBody(plan)), RecordStep(env, b, st, PlanStep, StepCompleted, PlanBody(plan));
      if r.ok {
        var c, d := Transition(env, r.w, r.st, PlanMade, r.step), Transition(env, s.w, s.st, PlanMade, s.step);
        var e := Plain(AssistantDelta);
        LogTwin(env, c.w, d.w, p, q, e);
        FollowTwin(env, if plan.preamble then Log(env, c.w, e) else c.w, if plan.preamble then Log(env, d.w, e) else d.w, p, q, c.st, last, plan);
      }
    }
  }

  lemma {:induction false} ContinueTwin(env: Env, x: World, y: World, p: nat, q: nat, st: RunState, last: Option<ToolResult>)
    requires Twin(x, y, p, q)
    ensures TwinOut(ContinueRun(env, x, st, last), ContinueRun(env, y, st, last), p, q)
    decreases st.maxSteps - st.stepCount
  {
    hide Turnover, Abort;
    if st.stepCount >= st.maxSteps {
      AbortTwin(env, x, y, p, q, st, MaxStepsExceeded);
    } else {
      TurnoverTwin(env, x, y, p, q, st, last);
      match (Turnover(env, x, st, last), Turnover(env, y, st, last))
      case (Again(a, st', last'), Again(b, _, _)) => ContinueTwin(env, a, b, p, q, st', last');
      case _ =>
    }
  }

  // ---------- resuming ----------

  /** The two stores hold the same approval, up to copying, and both copies verify. */
  ghost predicate SameRecord(x: World, y: World, id: Id)
  {
    && id in x.approvals && id in y.approvals
    && CloneRecord(x.approvals[id]) == CloneRecord(y.approvals[id])
    && HashVerifies(x.approvals[id]) && HashVerifies(y.approvals[id])
  }

  lemma ResolveTwin(x: World, y: World, p: nat, q: nat, id: Id, approve: bool, reason: string)
    requires Twin(x, y, p, q) && SameRecord(x, y, id)
    ensures var (a, r) := ResolveApproval(x, id, approve, reason); var (b, s) := ResolveApproval(y, id, approve, reason);
      Twin(a, b, p, q) && r == s && SameRecord(a, b, id)
  {
    hide CloneMap, HashMap;
    NoteTwin(x.(approvals := Settle(x.approvals, id, approve, reason)), y.(approvals := Settle(y.approvals, id, approve, reason)), p, q, ResolvedAs(id, approve));
  }

  lemma ExecuteApprovedTwin(env: Env, x: World, y: World, p: nat, q: nat, id: Id)
    requires Twin(x, y, p, q) && SameRecord(x, y, id)
    ensures var e, f := ExecuteApproved(env, x, id), ExecuteApproved(env, y, id);
      Twin(e.w, f.w, p, q) && e.ok == f.ok && e.result == f.result
  {
    hide CloneMap, HashMap, Execute;
    var record := CloneRecord(x.approvals[id]);
    ExecuteTwin(env, x, y, p, q, record.proposal.(input := CloneMap(record.snapshot)), id);
  }

  /** Nothing but time and the durable state changes while steps are saved. */
  lemma StageApprovals(env: Env, w: World, st: RunState, kind: StepKind, status: StepStatus, body: Body, next: RunStatus)
    ensures var r := RecordStep(env, w, st, kind, status, body);
      r.w.approvals == w.approvals && Transition(env, r.w, r.st, next, r.step).w.approvals == w.approvals
  {
    hide Upsert, StoredStep, StoredState;
  }

  lemma TransitionApprovals(env: Env, w: World, st: RunState, status: RunStatus, step: Step)
    ensures Transition(env, w, st, status, step).w.approvals == w.approvals
  {
    hide StoredState;
  }

  lemma CloseRejectedTwin(env: Env, x: World, y: World, p: nat, q: nat, st: RunState)
    requires Twin(x, y, p, q)
    ensures TwinOut(CloseRejected(env, x, st), CloseRejected(env, y, st), p, q)
  {
    hide Abort, RecordStep, Transition, PersistAssistant, Note, Log;
    StageTwin(env, x, y, p, q, st, Summarize, StepCompleted, EMPTY, Summarizing);
    var r, s := RecordStep(env, x, st, Summarize, StepCompleted, EMPTY), RecordStep(env, y, st, Summarize, StepCompleted, EMPTY);
    if r.ok {
      var t, u := Transition(env, r.w, r.st, Summarizing, r.step), Transition(env, s.w, s.st, Summarizing, s.step);
      AssistantTwin(env, t.w, u.w, p, q, t.st);
      var m, n := PersistAssistant(env, t.w), PersistAssistant(env, u.w);
      if m.ok {
        StageTwin(env, m.w, n.w, p, q, t.st, Finalize, StepCompleted, EMPTY, ApprovalRejected);
        var f, g := RecordStep(env, m.w, t.st, Finalize, StepCompleted, EMPTY), RecordStep(env, n.w, u.st, Finalize, StepCompleted, EMPTY);
        if f.ok {
          LogTwin(env, Transition(env, f.w, f.st, ApprovalRejected, f.step).w, Transition(env, g.w, g.st, ApprovalRejected, g.step).w, p, q, Plain(RunCompleted));
        }
      }
    }
  }

  lemma RejectPausedTwin(env: Env, x: World, y: World, p: nat, q: nat, st: RunState, id: Id)
    requires Twin(x, y, p, q) && SameRecord(x, y, id)
    ensures TwinOut(RejectPaused(env, x, st, id), RejectPaused(env, y, st, id), p, q)
  {
    hide Abort, RecordStep, Transition, Note, Log, ResolveApproval, CloseRejected, SameRecord;
    ResolveTwin(x, y, p, q, id, false, "rejected from workflow");
    var (a, rejected) := ResolveApproval(x, id, false, "rejected from workflow");
    var (b, _) := ResolveApproval(y, id, false, "rejected from workflow");
    if rejected.None? {
      AbortTwin(env, a, b, p, q, st, ResolveFailed);
    } else {
      var body := ApprovalBody(rejected.value);
      StageTwin(env, a, b, p, q, st, RequestApproval, StepCancelled, body, ApprovalRejected);
      var r, s := RecordStep(env, a, st, RequestApproval, StepCancelled, body), RecordStep(env, b, st, RequestApproval, StepCancelled, body);
      if r.ok {
        var t, u := Transition(env, r.w, r.st, ApprovalRejected, r.step), Transition(env, s.w, s.st, ApprovalRejected, s.step);
        var e := OfApproval(EventApprovalRejected, id);
        LogTwin(env, t.w, u.w, p, q, e);
        CloseRejectedTwin(env, Log(env, t.w, e), Log(env, u.w, e), p, q, t.st);
      }
    }
  }

  lemma AfterFailureTwin(env: Env, x: World, y: World, p: nat, q: nat, st: RunState, body: Body)
    requires Twin(x, y, p, q)
    ensures TwinOut(AfterFailure(env, x, st, body), AfterFailure(env, y, st, body), p, q)
  {
    hide Abort, RecordStep, Transition;
    StageTwin(env, x, y, p, q, st, ExecuteTool, StepFailed, body, ToolFailed);
    var r, s := RecordStep(env, x, st, ExecuteTool, StepFailed, body), RecordStep(env, y, st, ExecuteTool, StepFailed, body);
    var t := if r.ok then Transition(env, r.w, r.st, ToolFailed, r.step) else At(r.w, r.st);
    var u := if s.ok then Transition(env, s.w, s.st, ToolFailed, s.step) else At(s.w, s.st);
    AbortTwin(env, t.w, u.w, p, q, t.st, RouterFailed);
  }

  lemma AfterSuccessTwin(env: Env, x: World, y: World, p: nat, q: nat, st: RunState, body: Body, result: Option<ToolResult>)
    requires Twin(x, y, p, q)
    ensures TwinOut(AfterSuccess(env, x, st, body, result), AfterSuccess(env, y, st, body, result), p, q)
  {
    hide Abort, RecordStep, Transition, Note, Log, ContinueRun, StoredState;
    StageTwin(env, x, y, p, q, st, ExecuteTool, StepCompleted, body, ToolCompleted);
    var r, s := RecordStep(env, x, st, ExecuteTool, StepCompleted, body), RecordStep(env, y, st, ExecuteTool, StepCompleted, body);
    if r.ok {
      var t, u := Transition(env, r.w, r.st, ToolCompleted, r.step), Transition(env, s.w, s.st, ToolCompleted, s.step);
      var act := Streamed(OfApproval(EventToolOutput, st.approvalID));
      NoteTwin(t.w, u.w, p, q, act);
      var a, b := if result.Some? then Note(t.w, act) else t.w, if result.Some? then Note(u.w, act) else u.w;
      var cleared := t.st.(approvalID := NO_ID);
      var c, d := SaveState(env, a, cleared), SaveState(env, b, cleared);
      assert Twin(c.w, d.w, p, q) && c.ok == d.ok;
      ContinueTwin(env, c.w, d.w, p, q, cleared, result);
    }
  }

  lemma RunApprovedTwin(env: Env, x: World, y: World, p: nat, q: nat, st: RunState, approval: Record, approved: Record)
    requires Twin(x, y, p, q) && SameRecord(x, y, approval.id)
    ensures TwinOut(RunApproved(env, x, st, approval, approved), RunApproved(env, y, st, approval, approved), p, q)
  {
    hide AfterFailure, AfterSuccess, ExecuteApproved, CloneMap, SameRecord;
    ExecuteApprovedTwin(env, x, y, p, q, approval.id);
    var e, f := ExecuteApproved(env, x, approval.id), ExecuteApproved(env, y, approval.id);
    if !e.ok {
      AfterFailureTwin(env, e.w, f.w, p, q, st.(error := RouterFailed), ExecuteBody(approval, approved, None, RouterFailed));
    } else {
      AfterSuccessTwin(env, e.w, f.w, p, q, st.(toolResult := e.result), ExecuteBody(approval, approved, e.result, NoError), e.result);
    }
  }

  lemma ApprovePausedTwin(env: Env, x: World, y: World, p: nat, q: nat, st: RunState, approval: Record)
    requires Twin(x, y, p, q) && SameRecord(x, y, approval.id)
    ensures TwinOut(ApprovePaused(env, x, st, approval), ApprovePaused(env, y, st, approval), p, q)
  {
    hide Abort, RecordStep, Transition, ResolveApproval, RunApproved, CloneMap, HashMap;
    var id := approval.id;
    ResolveTwin(x, y, p, q, id, true, "");
    var (a, approved) := ResolveApproval(x, id, true, "");
    var (b, _) := ResolveApproval(y, id, true, "");
    if approved.None? {
      AbortTwin(env, a, b, p, q, st, ResolveFailed);
    } else {
      var body := ApprovalBody(approved.value);
      StageTwin(env, a, b, p, q, st, RequestApproval, StepCompleted, body, ApprovalApproved);
      StageApprovals(env, a, st, RequestApproval, StepCompleted, body, ApprovalApproved);
      StageApprovals(env, b, st, RequestApproval, StepCompleted, body, ApprovalApproved);
      var r, s := RecordStep(env, a, st, RequestApproval, StepCompleted, body), RecordStep(env, b, st, RequestApproval, StepCompleted, body);
      if r.ok {
        var t, u := Transition(env, r.w, r.st, ApprovalApproved, r.step), Transition(env, s.w, s.st, ApprovalApproved, s.step);
        var said := OfApproval(EventApprovalApproved, id);
        LogTwin(env, t.w, u.w, p, q, said);
        var c, d := Log(env, t.w, said), Log(env, u.w, said);
        TransitionTwin(env, c, d, p, q, t.st, ToolExecuting, r.step);
        TransitionApprovals(env, c, t.st, ToolExecuting, r.step);
        TransitionApprovals(env, d, u.st, ToolExecuting, s.step);
        var e, f := Transition(env, c, t.st, ToolExecuting, r.step), Transition(env, d, u.st, ToolExecuting, s.step);
        RunApprovedTwin(env, e.w, f.w, p, q, e.st, approval, approved.value);
      }
    }
  }

  /** What hydration finds in the log is a sound record of this run, equal to the store's as long as neither
      has been resolved. */
  lemma LogMatchesStore(rid: Id, w: World, id: Id)
    requires Inv(rid, w) && LatestApproval(w.steps, id).Some?
    ensures var r := LatestApproval(w.steps, id).value;
      && r.id == id != NO_ID && r.runID == rid && CloneRecord(r) == r && HashVerifies(r)
      && (id in w.approvals ==>
            && w.approvals[id].runID == rid && w.approvals[id].id == id && HashVerifies(w.approvals[id])
            && (w.approvals[id].status == Pending ==> r.status == Pending)
            && (w.approvals[id].status == Pending ==> CloneRecord(w.approvals[id]) == r))
  {
    hide CreatedIn, ApprovedIn, Executions, Mediated, CloneMap, HashMap;
    LatestSound(rid, w.clock, w.trace, w.steps, id);
    var r := LatestApproval(w.steps, id).value;
    assert r.(status := Pending, reason := "") == CreatedIn(w.trace)[id];
    assert id in w.approvals ==> RecordSound(w, id);
    if r.status != Pending {
      var k := LatestAt(w.steps, id);
      SettledBy(w.steps, w.steps[k], id);
    }
  }

  /** The store has settled the approval and the log has not heard of it. */
  predicate Forgotten(w: World, id: Id)
    requires LatestApproval(w.steps, id).Some?
  {
    id in w.approvals && w.approvals[id].status != Pending && LatestApproval(w.steps, id).value.status == Pending
  }

  /** A record the log holds is always found: the store's own copy, or else the log's. */
  lemma Hydrated(w: World, id: Id)
    requires !w.dead && LatestApproval(w.steps, id).Some? && LatestApproval(w.steps, id).value.id != NO_ID
    ensures var (x, r) := HydrateApproval(w, id);
      && id in x.approvals && x == w.(approvals := w.approvals[id := x.approvals[id]])
      && x.approvals[id] == (if id in w.approvals then w.approvals[id] else CloneRecord(LatestApproval(w.steps, id).value))
      && r == Some(if id in w.approvals then CloneRecord(w.approvals[id]) else CloneRecord(x.approvals[id]))
  {
    hide LatestApproval, CloneMap;
  }

  lemma HydrateBoth(rid: Id, w: World, id: Id)
    requires Inv(rid, w) && !w.dead && LatestApproval(w.steps, id).Some?
    ensures var (x, r) := HydrateApproval(w, id); var (y, s) := HydrateApproval(Restart(w), id);
      && Twin(x, y, |w.trace|, |w.trace| + 1) && x.trace == w.trace && y.trace == w.trace + [Restarted] && !x.dead
      && r.Some? && s.Some? && r.value.runID == s.value.runID == rid && r.value.id == s.value.id == id
      && x.approvals[id].status == (if id in w.approvals then w.approvals[id].status else LatestApproval(w.steps, id).value.status)
      && id in x.approvals && id in y.approvals && y.approvals[id].status == LatestApproval(w.steps, id).value.status
      && ((id in w.approvals ==> w.approvals[id].status == Pending) ==> SameRecord(x, y, id) && r == s)
  {
    LogMatchesStore(rid, w, id);
    hide Inv, CloneMap, HashMap, LatestApproval, HydrateApproval;
    Hydrated(w, id);
    Hydrated(Restart(w), id);
  }

  /** An event meant for the run log, written or not. */
  predicate Telling(act: Act) { act.Logged? || act.Lost? }

  /** Failing only logs. */
  lemma AbortOnlyLogs(env: Env, w: World, st: RunState, cause: Cause)
    ensures forall k :: |w.trace| <= k < |Abort(env, w, st, cause).w.trace| ==> Telling(Abort(env, w, st, cause).w.trace[k])
  {
    hide Upsert, StoredStep, StoredState;
  }

  /** What a resumption does once it has its record. */
  function Answered(env: Env, w: World, st: RunState, approval: Record, approve: bool): Out
  {
    if approve then ApprovePaused(env, w, st, approval) else RejectPaused(env, w, st, st.approvalID)
  }

  lemma ResumeIs(env: Env, rid: Id, w: World, approve: bool)
    requires !w.dead && w.run.Some? && w.run.value.status == PausedForApproval
    requires var (_, r) := HydrateApproval(w, w.run.value.approvalID); r.Some? && r.value.runID == rid
    ensures var (h, r) := HydrateApproval(w, w.run.value.approvalID);
      ResumeRun(env, w, rid, w.run.value.approvalID, approve) == Answered(env, h, w.run.value, r.value, approve)
  {
    hide HydrateApproval, ApprovePaused, RejectPaused;
  }

  /** Two stores that agree on the approval give the same answer. */
  lemma AnsweredTwin(env: Env, x: World, y: World, p: nat, q: nat, st: RunState, approval: Record, approve: bool)
    requires Twin(x, y, p, q) && SameRecord(x, y, approval.id) && st.approvalID == approval.id
    ensures TwinOut(Answered(env, x, st, approval, approve), Answered(env, y, st, approval, approve), p, q)
  {
    if approve {
      ApprovePausedTwin(env, x, y, p, q, st, approval);
    } else {
      RejectPausedTwin(env, x, y, p, q, st, approval.id);
    }
  }

  /** A settled approval cannot be resolved again: the run fails. */
  lemma SettledStore(env: Env, w: World, st: RunState, approval: Record, approve: bool)
    requires approval.id in w.approvals && w.approvals[approval.id].status != Pending && st.approvalID == approval.id
    ensures Answered(env, w, st, approval, approve) == Abort(env, w, st, ResolveFailed)
    ensures forall k :: |w.trace| <= k < |Abort(env, w, st, ResolveFailed).w.trace| ==> Telling(Abort(env, w, st, ResolveFailed).w.trace[k])
  {
    AbortOnlyLogs(env, w, st, ResolveFailed);
    hide Abort, RecordStep, Transition, RunApproved, CloseRejected;
  }

  /** Resolving a pending approval is the first thing a resumption does. */
  lemma PendingStore(env: Env, w: World, st: RunState, approval: Record, approve: bool)
    requires approval.id in w.approvals && w.approvals[approval.id].status == Pending && st.approvalID == approval.id && !w.dead
    ensures var o := Answered(env, w, st, approval, approve);
      |w.trace| < |o.w.trace| && o.w.trace[|w.trace|] == ResolvedAs(approval.id, approve)
  {
    var id := approval.id;
    var (a, _) := ResolveApproval(w, id, approve, if approve then "" else "rejected from workflow");
    assert a.trace == w.trace + [ResolvedAs(id, approve)];
    if approve {
      ApproveGrows(env, w, st, approval);
    } else {
      RejectGrows(env, w, st, id);
    }
  }

  lemma ApproveGrows(env: Env, w: World, st: RunState, approval: Record)
    ensures Grew(ResolveApproval(w, approval.id, true, "").0, ApprovePaused(env, w, st, approval).w)
  {
    hide Abort, RecordStep, Transition, RunApproved, ResolveApproval, ApprovalBody;
  }

  lemma RejectGrows(env: Env, w: World, st: RunState, id: Id)
    ensures Grew(ResolveApproval(w, id, false, "rejected from workflow").0, RejectPaused(env, w, st, id).w)
  {
    hide Abort, RecordStep, Transition, CloseRejected, ResolveApproval, ApprovalBody;
  }

  lemma FirstActsDiffer(a: World, b: World, p: nat, q: nat, approve: bool, id: Id)
    requires q < |b.trace| && b.trace[q] == ResolvedAs(id, approve)
    requires forall k :: p <= k < |a.trace| ==> Telling(a.trace[k])
    ensures !Twin(a, b, p, q)
  {
    assert b.trace[q..][0] == b.trace[q];
    assert p < |a.trace| ==> a.trace[p..][0] == a.trace[p];
  }

  /** For every reachable paused state, whatever crashed or was lost before: resuming after a restart does
      exactly what resuming without one does, the same executions with the same inputs, the same planner
      calls and events, the same steps and final state, if and only if the store has not settled an approval
      behind the log's back. */
  lemma RestartIsTransparentExactly(env: Env, rid: Id, w: World, approve: bool)
    requires Inv(rid, w) && !w.dead && w.run.Some? && w.run.value.status == PausedForApproval
    requires LatestApproval(w.steps, w.run.value.approvalID).Some?
    ensures var id := w.run.value.approvalID;
      TwinOut(ResumeRun(env, w, rid, id, approve), ResumeRun(env, Restart(w), rid, id, approve), |w.trace|, |w.trace| + 1)
      <==> !Forgotten(w, id)
  {
    var st := w.run.value;
    var id, p, q := st.approvalID, |w.trace|, |w.trace| + 1;
    HydrateBoth(rid, w, id);
    LogMatchesStore(rid, w, id);
    var (x, r) := HydrateApproval(w, id);
    var (y, s) := HydrateApproval(Restart(w), id);
    hide Inv, HydrateApproval, Answered, SameRecord, Twin, TwinOut, LatestApproval, HashVerifies, CloneRecord, ResumeRun;
    ResumeIs(env, rid, w, approve);
    ResumeIs(env, rid, Restart(w), approve);
    if id in w.approvals && w.approvals[id].status != Pending {
      SettledAnswers(env, x, y, p, q, st, r.value, s.value, approve);
    } else {
      AnsweredTwin(env, x, y, p, q, st, r.value, approve);
    }
  }

  /** With the approval settled in one store, the two agree exactly when it is settled in the other. */
  lemma SettledAnswers(env: Env, x: World, y: World, p: nat, q: nat, st: RunState, r: Record, s: Record, approve: bool)
    requires Twin(x, y, p, q) && p == |x.trace| && q == |y.trace| && !x.dead && st.approvalID == r.id == s.id
    requires r.id in x.approvals && x.approvals[r.id].status != Pending && r.id in y.approvals
    ensures TwinOut(Answered(env, x, st, r, approve), Answered(env, y, st, s, approve), p, q) <==> y.approvals[r.id].status != Pending
  {
    hide Answered;
    SettledStore(env, x, st, r, approve);
    if y.approvals[r.id].status == Pending {
      PendingStore(env, y, st, s, approve);
      FirstActsDiffer(Answered(env, x, st, r, approve).w, Answered(env, y, st, s, approve).w, p, q, approve, r.id);
    } else {
      SettledStore(env, y, st, s, approve);
      AbortTwin(env, x, y, p, q, st, ResolveFailed);
    }
  }

  /** Without crashes and lost writes no pause is ever forgotten: every pause of every session can be
      resumed by a new process with exactly the same result. */
  lemma RestartIsTransparent(env: Env, setup: Setup, calls: seq<Call>, approve: bool)
    requires Conformance.Reliable(env) && Fresh(setup)
    requires var w := Session(env, setup, calls); w.run.Some? && w.run.value.status == PausedForApproval
    ensures var w := Session(env, setup, calls); var id := w.run.value.approvalID;
      TwinOut(ResumeRun(env, w, setup.rid, id, approve), ResumeRun(env, Restart(w), setup.rid, id, approve), |w.trace|, |w.trace| + 1)
  {
    var w := Session(env, setup, calls);
    SessionKeeps(env, setup, calls);
    Conformance.SessionRests(env, setup, calls);
    hide Session, Inv, ResumeRun, TwinOut, HashVerifies, CloneMap;
    var id := w.run.value.approvalID;
    assert LatestApproval(w.steps, id) == Last(w.steps).approval;
    assert id in w.approvals ==> CloneRecord(w.approvals[id]).status == w.approvals[id].status;
    RestartIsTransparentExactly(env, setup.rid, w, approve);
  }
}
