/** Concrete sessions in which the exceptions that other modules describe exactly really arise: an approval
    executed after its run was cancelled, a pause that a restart answers differently, an approval that no event
    names, a denied call that the read-only entry point executes, a run that fills its log to the bound, and a
    message for which a budget of five planner calls is too small. In two more a process dies at the edge of a
    verdict and another one goes on. */
module Witnesses {
  import opened Base
  import opened Json
  import opened Types
  import opened Approvals
  import opened Policy
  import opened RunStates
  import opened Machine
  import opened History
  import opened Conformance
  import Safety
  import RestartTransparency
  import PauseRecords
  import CancelDurability
  import EventLog
  import Finality
  import InferencePolicy
  import Lifecycle
  import Outcomes
  import Projections
  import Routing
  import opened Planner
  import DefaultBudget

  // ---------- a planner that always asks for the same call ----------

  const CALL := Proposal("call", "tool", Obj(map[]), [])

  const NEEDS_APPROVAL := Inference([], "", false, true, 1.0, "")

  const DEFAULT_POLICY := PolicyConfig(FALLBACK_CONFIDENCE, "default", map["default" := DEFAULT_PROFILE])

  /** The ticks at which a write to the store, or to the run log, fails, and those at which the process dies. */
  datatype Losses = Losses(store: set<nat>, log: set<nat>, crashes: set<nat>)

  const NO_LOSSES := Losses({}, {}, {})

  /** Every call needs an approval and then succeeds, and nothing goes wrong but the losses. */
  function AskingEnv(lost: Losses): Env
  {
    Env(DEFAULT_POLICY, Redactor(text => text, input => input), t => t in lost.crashes,
        t => t !in lost.store, _ => true, _ => true, t => t !in lost.log,
        _ => Some([]), (_, _) => Some(Plan(DecideTool, false, false, "", Some(CALL))), (_, _) => None,
        (_, _) => Some(NEEDS_APPROVAL), _ => true, (_, _, _) => ExecOutcome(Some(ToolResult("", Obj(map[]), "")), false))
  }

  lemma CallAsks(cfg: PolicyConfig, p: Proposal)
    ensures Decide(cfg, p, NEEDS_APPROVAL).requiresApproval
  {}

  lemma CallDrafts(id: Id, rid: Id, d: Decision)
    ensures var draft := Draft(id, rid, CALL, NEEDS_APPROVAL, d);
      draft.Some? && draft.value.id == id && draft.value.runID == rid && draft.value.status == Pending && draft.value.proposal.tool == CALL.tool
  {
    assert Marshalable(NormalizedInput(CALL));
  }

  // ---------- one step, timed ----------

  lemma TransitionTimed(env: Env, w: World, st: RunState, status: RunStatus, step: Step)
    requires Steady(env, w.clock, 2) && Stands(w, st) && step.index == st.stepIndex
    ensures var t := Transition(env, w, st, status, step);
      && Stands(t.w, t.st) && t.w.clock == w.clock + 2 && t.w.run == Some(StoredState(env.red, t.st))
      && t.st == st.(status := status, currentStep := step.kind, updatedAt := w.clock)
      && t.w.approvals == w.approvals && t.w.steps == w.steps
  {
    hide StoredState;
    assert !env.crash(w.clock) && !env.crash(w.clock + 1);
  }

  lemma StageTimed(env: Env, w: World, st: RunState, kind: StepKind, status: StepStatus, body: Body, next: RunStatus)
    requires Steady(env, w.clock, 4) && Stands(w, st)
    ensures var r := RecordStep(env, w, st, kind, status, body); var t := Transition(env, r.w, r.st, next, r.step);
      && r.ok && Stands(t.w, t.st) && t.w.clock == w.clock + 4 && t.w.run == Some(StoredState(env.red, t.st))
      && t.st == st.(status := next, currentStep := kind, stepIndex := |w.steps| + 1, updatedAt := w.clock + 2)
      && t.w.approvals == w.approvals && |t.w.steps| == |w.steps| + 1
      && Last(t.w.steps).approval == (if body.approval.Some? then Some(CloneRecord(body.approval.value)) else None)
      && r.step.index == t.st.stepIndex
  {
    hide StoredState, CloneRecord, Lined, RecordStep, Transition;
    RecordStepRuns(env, w, st, kind, status, body);
    var r := RecordStep(env, w, st, kind, status, body);
    TransitionTimed(env, r.w, r.st, next, r.step);
  }

  lemma LogTimed(env: Env, w: World, st: RunState, e: Event)
    requires !env.crash(w.clock) && Stands(w, st)
    ensures var after := Log(env, w, e);
      Stands(after, st) && after.clock == w.clock + 1 && after.run == w.run && after.approvals == w.approvals && after.steps == w.steps
  {}

  lemma TickTimed(env: Env, w: World, st: RunState)
    requires !env.crash(w.clock) && Stands(w, st)
    ensures Stands(Tick(env, w), st) && Tick(env, w).clock == w.clock + 1
  {}

  lemma SaveTimed(env: Env, w: World, st: RunState)
    requires Steady(env, w.clock, 1) && Stands(w, st)
    ensures var s := SaveState(env, w, st); s.ok && Stands(s.w, st) && s.w.clock == w.clock + 1 && s.w.steps == w.steps
  {
    hide StoredState;
  }

  // ---------- one turn of the loop that ends in a pause ----------

  /** The store holds this record as pending under its own id. */
  ghost predicate Offered(rid: Id, w: World, id: Id)
  {
    && id != NO_ID && id in w.approvals
    && var r := w.approvals[id];
    r.id == id && r.runID == rid && r.status == Pending && HashVerifies(r)
  }

  lemma ProposeTimed(lost: Losses, w: World, st: RunState, rid: Id)
    requires Steady(AskingEnv(lost), w.clock, 6) && Stands(w, st)
    ensures var r := Propose(AskingEnv(lost), w, rid, CALL); var id := w.clock + 4;
      && r.ok && r.approval.Some? && Stands(r.w, st) && r.w.clock == w.clock + 6 && r.w.steps == w.steps
      && Offered(rid, r.w, id) && r.approval.value == CloneRecord(r.w.approvals[id])
  {
    var env := AskingEnv(lost);
    hide Decide, Draft, CloneMap, HashMap, Lined, AskingEnv, CALL, Log;
    var first := OfTool(EventToolProposed, CALL).(input := CloneMap(CALL.input));
    LogTimed(env, w, st, first);
    var proposed := Log(env, w, first);
    var t := Tick(env, proposed);
    TickTimed(env, proposed, st);
    var d := Decide(env.policy, CALL, NEEDS_APPROVAL);
    AsksThen(lost, proposed.clock);
    LogTimed(env, t, st, OfTool(EventEffectInferred, CALL));
    var told := Log(env, t, OfTool(EventEffectInferred, CALL));
    var answered := Note(told, DecidedOn(CALL, d));
    var e := OfTool(EventPolicyDecided, CALL).(decision := Some(d));
    LogTimed(env, answered, st, e);
    var decided := Log(env, answered, e);
    CreateTimed(env, decided, st, rid, d);
    var (created, record) := CreateApproval(env, decided, rid, CALL, NEEDS_APPROVAL, d);
    LogTimed(env, created, st, OfApproval(EventApprovalRequested, record.value.id));
  }

  lemma AsksThen(lost: Losses, now: nat)
    ensures var env := AskingEnv(lost);
      env.infer(now, CALL) == Some(NEEDS_APPROVAL) && Decide(env.policy, CALL, NEEDS_APPROVAL).requiresApproval
  {
    CallAsks(AskingEnv(lost).policy, CALL);
  }

  lemma CreateTimed(env: Env, w: World, st: RunState, rid: Id, d: Decision)
    requires !env.crash(w.clock) && Stands(w, st)
    ensures var (c, record) := CreateApproval(env, w, rid, CALL, NEEDS_APPROVAL, d); var id := w.clock;
      && record.Some? && Stands(c, st) && c.clock == w.clock + 1 && c.steps == w.steps && c.run == w.run
      && Offered(rid, c, id) && record.value == CloneRecord(c.approvals[id])
  {
    CallDrafts(w.clock, rid, d);
    DraftIsSound(w.clock, rid, CALL, NEEDS_APPROVAL, d);
    hide Draft, CloneMap, HashMap;
  }

  /** The run waits for the approval `id`, which is in the store and, as pending, in the log. */
  ghost predicate Waits(rid: Id, w: World, st: RunState, id: Id)
  {
    && Stands(w, st) && st.runID == rid && st.status == PausedForApproval && st.approvalID == id
    && Offered(rid, w, id) && w.steps != [] && Last(w.steps).approval == Some(CloneRecord(w.approvals[id]))
  }

  lemma CopyOfCopy(r: Record)
    ensures CloneRecord(CloneRecord(r)) == CloneRecord(r) && CloneRecord(r).id == r.id
  {
    CloneIdempotent(r.snapshot);
    CloneIdempotent(r.proposal.input);
  }

  /** The same world with a living process. */
  function Living(w: World): World { w.(dead := false) }

  /** The process may die of the effect that is logged last. */
  lemma LogLast(env: Env, w: World, st: RunState, e: Event)
    requires Stands(w, st)
    ensures var after := Log(env, w, e);
      && Stands(Living(after), st) && after.clock == w.clock + 1 && after.dead == env.crash(w.clock)
      && after.run == w.run && after.approvals == w.approvals && after.steps == w.steps
  {}

  lemma PauseTimed(env: Env, rid: Id, w: World, st: RunState, id: Id)
    requires Steady(env, w.clock, 8) && env.messageOk(w.clock + 6) && Stands(w, st) && st.runID == rid && Offered(rid, w, id)
    ensures var t := Pause(env, w, st, CloneRecord(w.approvals[id]));
      && t.Halt? && t.out.ok && Waits(rid, Living(t.out.w), t.out.st, id)
      && t.out.w.run == Some(StoredState(env.red, t.out.st)) && t.out.w.dead == env.crash(w.clock + 8)
      && SameBudget(t.out.st, st) && t.out.w.clock == w.clock + 9 && |t.out.w.steps| == |w.steps| + 1
  {
    hide Lined, RecordStep, Transition, StoredState, Log, Abort, CloneRecord, HashVerifies, PersistAssistant;
    CopyOfCopy(w.approvals[id]);
    var record := CloneRecord(w.approvals[id]);
    var st1 := st.(approvalID := record.id);
    var body := Body(st.proposal, Some(CloneRecord(record)), None, NoError);
    StageTimed(env, w, st1, RequestApproval, StepPaused, body, ApprovalRequested);
    var r := RecordStep(env, w, st1, RequestApproval, StepPaused, body);
    var t := Transition(env, r.w, r.st, ApprovalRequested, r.step);
    var shown := Note(t.w, Streamed(OfApproval(EventApprovalRequested, record.id)));
    TransitionTimed(env, shown, t.st, PausedForApproval, r.step);
    var p := Transition(env, shown, t.st, PausedForApproval, r.step);
    AssistantTimed(env, p.w, p.st);
    LogLast(env, PersistAssistant(env, p.w).w, p.st, OfApproval(RunPaused, record.id));
  }

  lemma AssistantTimed(env: Env, w: World, st: RunState)
    requires Steady(env, w.clock, 2) && env.messageOk(w.clock) && Stands(w, st)
    ensures var m := PersistAssistant(env, w);
      && m.ok && Stands(m.w, st) && m.w.clock == w.clock + 2 && m.w.run == w.run && m.w.approvals == w.approvals && m.w.steps == w.steps
  {
    hide Lined, Log;
    assert !env.crash(w.clock) && !env.crash(w.clock + 1);
    TickTimed(env, w, st);
    LogTimed(env, Tick(env, w), st, Plain(AssistantMessage));
  }

  /** The end of a call that leaves the run waiting for `id`, `ticks` effects and `more` steps later; only the last
      of these effects may have been the process's last. */
  ghost predicate EndsWaiting(env: Env, rid: Id, w: World, st: RunState, o: Out, id: Id, ticks: nat, more: nat)
  {
    && o.ok && Waits(rid, Living(o.w), o.st, id) && o.w.clock > 0 && o.w.dead == env.crash(o.w.clock - 1)
    && o.w.run.Some? && o.w.run.value.status == PausedForApproval
    && o.w.run.value.approvalID == id && o.w.run.value.stepIndex == o.st.stepIndex && SameBudget(o.w.run.value, o.st)
    && SameBudget(o.st, st) && o.w.clock == w.clock + ticks && |o.w.steps| == |w.steps| + more
  }

  lemma AlwaysMessages(lost: Losses, now: nat) ensures AskingEnv(lost).messageOk(now) {}

  lemma AfterRoutingTimed(lost: Losses, rid: Id, routed: Routed, st: RunState, p: Proposal, id: Id)
    requires Steady(AskingEnv(lost), routed.w.clock, 16) && Stands(routed.w, st) && st.runID == rid
    requires Offered(rid, routed.w, id) && routed.approval == Some(CloneRecord(routed.w.approvals[id]))
    ensures var t := AfterRouting(AskingEnv(lost), routed, st, p); t.Halt? && EndsWaiting(AskingEnv(lost), rid, routed.w, st, t.out, id, 17, 3)
  {
    var env := AskingEnv(lost);
    hide AskingEnv, Lined, RecordStep, Transition, StoredState, CloneRecord, Pause, HashVerifies;
    var body := EMPTY.(proposal := Some(p));
    StageTimed(env, routed.w, st, InferEffect, StepCompleted, body, EffectInferred);
    var r := RecordStep(env, routed.w, st, InferEffect, StepCompleted, body);
    var t := Transition(env, r.w, r.st, EffectInferred, r.step);
    StageTimed(env, t.w, t.st, DecidePolicy, StepCompleted, body, PolicyDecided);
    var d := RecordStep(env, t.w, t.st, DecidePolicy, StepCompleted, body);
    var u := Transition(env, d.w, d.st, PolicyDecided, d.step);
    AlwaysMessages(lost, u.w.clock + 6);
    PauseTimed(env, rid, u.w, u.st, id);
    StoredStateKeepsControl(env.red, Pause(env, u.w, u.st, routed.approval.value).out.st);
  }

  lemma UseToolTimed(lost: Losses, rid: Id, w: World, st: RunState)
    requires Steady(AskingEnv(lost), w.clock, 26) && Stands(w, st) && st.runID == rid
    ensures var t := UseTool(AskingEnv(lost), w, st, CALL); t.Halt? && EndsWaiting(AskingEnv(lost), rid, w, st, t.out, w.clock + 8, 27, 4)
  {
    var env := AskingEnv(lost);
    hide AskingEnv, CALL, Lined, RecordStep, Transition, StoredState, CloneRecord, AfterRouting, Propose, HashVerifies, CloneMap;
    var proposal := CloneProposal(CALL);
    var st1, body := st.(proposal := Some(proposal)), EMPTY.(proposal := Some(proposal));
    StageTimed(env, w, st1, ProposeTool, StepCompleted, body, ToolProposed);
    var r := RecordStep(env, w, st1, ProposeTool, StepCompleted, body);
    var t := Transition(env, r.w, r.st, ToolProposed, r.step);
    ProposeTimed(lost, t.w, t.st, rid);
    var routed := Propose(env, t.w, rid, CALL);
    AfterRoutingTimed(lost, rid, routed, t.st, proposal, w.clock + 8);
  }

  lemma PlanAsks(lost: Losses, now: nat, input: PlanInput, last: Option<ToolResult>)
    ensures var answer := AskingEnv(lost).plan(now, input);
      && answer.Some? && var plan := NormalizePlan(answer.value, last);
      plan.decision == DecideTool && !plan.preamble && plan.proposal == Some(CALL)
  {
    CanonicalIsFixed(CALL.input);
  }

  /** A pass of the loop in which the planner answers, up to where its plan is followed. */
  lemma PlanTimed(env: Env, w: World, st0: RunState, last: Option<ToolResult>) returns (u: At)
    requires Steady(env, w.clock, 6) && Stands(w, st0)
    requires env.plan(w.clock, PlanInputOf(st0.(stepCount := st0.stepCount + 1), last)).Some?
    ensures var plan := NormalizePlan(env.plan(w.clock, PlanInputOf(st0.(stepCount := st0.stepCount + 1), last)).value, last);
      && Turnover(env, w, st0, last) == Follow(env, u.w, u.st, last, plan)
      && u.w.clock == w.clock + if plan.preamble then 6 else 5
    ensures Stands(u.w, u.st) && SameBudget(u.st, st0.(stepCount := st0.stepCount + 1)) && |u.w.steps| == |w.steps| + 1
  {
    hide Lined, RecordStep, Transition, StoredState, CloneRecord, Follow, NormalizePlan, Log, Abort;
    var st := st0.(stepCount := st0.stepCount + 1);
    var input := PlanInputOf(st, last);
    TickTimed(env, w, st);
    var called := Note(Tick(env, w), PlannerCalled(input));
    var plan := NormalizePlan(env.plan(w.clock, input).value, last);
    StageTimed(env, called, st, PlanStep, StepCompleted, PlanBody(plan), PlanMade);
    var r := RecordStep(env, called, st, PlanStep, StepCompleted, PlanBody(plan));
    u := Transition(env, r.w, r.st, PlanMade, r.step);
    if plan.preamble {
      LogTimed(env, u.w, u.st, Plain(AssistantDelta));
      u := At(Log(env, u.w, Plain(AssistantDelta)), u.st);
    }
  }

  lemma TurnoverTimed(lost: Losses, rid: Id, w: World, st0: RunState, last: Option<ToolResult>)
    requires Steady(AskingEnv(lost), w.clock, 31) && Stands(w, st0) && st0.runID == rid
    ensures var t := Turnover(AskingEnv(lost), w, st0, last);
      t.Halt? && EndsWaiting(AskingEnv(lost), rid, w, st0.(stepCount := st0.stepCount + 1), t.out, w.clock + 13, 32, 5)
  {
    var env := AskingEnv(lost);
    hide AskingEnv, CALL, Lined, CloneRecord, Turnover, UseTool, EndsWaiting, NormalizePlan;
    var st := st0.(stepCount := st0.stepCount + 1);
    PlanAsks(lost, w.clock, PlanInputOf(st, last), last);
    var u := PlanTimed(env, w, st0, last);
    UseToolTimed(lost, rid, u.w, u.st);
    LaterAnswers(env, rid, w, st, u.w, u.st, Turnover(env, w, st0, last).out, w.clock + 13, 27, 4, 5, 1);
  }

  // ---------- the first pause ----------

  const SETUP := Setup(7, "", 1, 1, map[])

  /** Nothing goes wrong before the loop: it begins after eight effects and one step. */
  lemma StartOpens(env: Env, setup: Setup) returns (c: At)
    requires Steady(env, 1, 8) && env.messageOk(3) && env.context(4) == Some([]) && setup.clock == 1
    ensures StartRun(env, Genesis(setup), setup.rid, setup.message, setup.configured) == ContinueRun(env, c.w, c.st, None)
    ensures Stands(c.w, c.st) && c.w.clock == 9 && |c.w.steps| == 1 && c.st.runID == setup.rid
    ensures c.st.stepCount == 0 && c.st.maxSteps == Budget(setup.configured)
  {
    hide Lined, RecordStep, Transition, ContinueRun, Log, SaveState, Genesis;
    var st := InitialState(setup.rid, setup.message, Budget(setup.configured), 1);
    FirstSave(env, setup, st);
    var s := SaveState(env, Genesis(setup), st);
    LogTimed(env, s.w, st, Plain(RunStarted));
    var started := Log(env, s.w, Plain(RunStarted));
    TickTimed(env, started, st);
    var m := Tick(env, started);
    TickTimed(env, m, st);
    var t := Tick(env, m);
    var st1 := st.(context := []);
    StageTimed(env, t, st1, BuildContext, StepCompleted, EMPTY, ContextBuilt);
    var r := RecordStep(env, t, st1, BuildContext, StepCompleted, EMPTY);
    c := Transition(env, r.w, r.st, ContextBuilt, r.step);
  }

  lemma {:induction false} LoopWaits(lost: Losses, rid: Id, w: World, st: RunState, last: Option<ToolResult>)
    requires Steady(AskingEnv(lost), w.clock, 31) && Stands(w, st) && st.runID == rid && st.stepCount < st.maxSteps
    ensures EndsWaiting(AskingEnv(lost), rid, w, st.(stepCount := st.stepCount + 1), ContinueRun(AskingEnv(lost), w, st, last), w.clock + 13, 32, 5)
  {
    hide AskingEnv, EndsWaiting, Turnover;
    TurnoverTimed(lost, rid, w, st, last);
  }

  /** The first call pauses after forty effects. */
  lemma StartWaits(lost: Losses, setup: Setup)
    requires setup.clock == 1 && (forall t :: t in lost.store ==> t > 40) && forall t :: t in lost.crashes ==> t >= 40
    ensures var o := StartRun(AskingEnv(lost), Genesis(setup), setup.rid, setup.message, setup.configured);
      EndsWaiting(AskingEnv(lost), setup.rid, Genesis(setup), InitialState(setup.rid, setup.message, Budget(setup.configured), 1).(stepCount := 1), o, 22, 40, 6)
  {
    hide AskingEnv, EndsWaiting, StartRun, ContinueRun, Lined;
    LostLater(lost);
    var env := AskingEnv(lost);
    var c := StartOpens(env, setup);
    LoopWaits(lost, setup.rid, c.w, c.st, None);
    var x := InitialState(setup.rid, setup.message, Budget(setup.configured), 1).(stepCount := 1);
    LaterAnswers(env, setup.rid, Genesis(setup), x, c.w, c.st.(stepCount := 1), ContinueRun(env, c.w, c.st, None), 22, 32, 5, 8, 1);
  }

  lemma LostLater(lost: Losses)
    requires (forall t :: t in lost.store ==> t > 40) && forall t :: t in lost.crashes ==> t >= 40
    ensures var env := AskingEnv(lost); Steady(env, 1, 8) && Steady(env, 9, 31) && env.messageOk(3) && env.context(4) == Some([])
  {
    forall t: nat | t < 40 ensures !AskingEnv(lost).crash(t) && Acked(AskingEnv(lost), t) {
      assert t !in lost.store && t !in lost.crashes;
    }
  }

  lemma FirstSave(env: Env, setup: Setup, st: RunState)
    requires setup.clock == 1 && st.stepIndex == 0 && Acked(env, 1) && !env.crash(1)
    ensures var s := SaveState(env, Genesis(setup), st);
      s.ok && Stands(s.w, st) && s.w.clock == 2 && s.w.steps == [] && Genesis(setup).clock == 1 && Genesis(setup).steps == []
  {
    hide StoredState;
  }

  /** What happened before adds to the count. */
  lemma LaterAnswers(env: Env, rid: Id, a: World, x: RunState, b: World, y: RunState, o: Out, id: Id, n: nat, k: nat, ticks: nat, more: nat)
    requires EndsWaiting(env, rid, b, y, o, id, n, k) && SameBudget(y, x) && b.clock == a.clock + ticks && |b.steps| == |a.steps| + more
    ensures EndsWaiting(env, rid, a, x, o, id, n + ticks, k + more)
  {
    hide Waits, Lined;
  }

  lemma SessionSnoc(env: Env, setup: Setup, calls: seq<Call>, call: Call)
    ensures Session(env, setup, calls + [call]) == Apply(env, setup.rid, Session(env, setup, calls), call)
    ensures Session(env, setup, []) == StartRun(env, Genesis(setup), setup.rid, setup.message, setup.configured).w
  {
    hide StartRun, Apply;
    assert (calls + [call])[..|calls|] == calls;
  }

  /** What the first pause looks like to whoever answers it, in this process or the next. */
  lemma FirstPause(lost: Losses, setup: Setup)
    requires Fresh(setup) && setup.clock == 1
    requires (forall t :: t in lost.store ==> t > 40) && forall t :: t in lost.crashes ==> t >= 40
    ensures var w := Session(AskingEnv(lost), setup, []);
      && Safety.Inv(setup.rid, w) && w.dead == (40 in lost.crashes) && w.clock == 41 && w.run.Some? && w.run.value.runID == setup.rid
      && CancelDurability.Answerable(AskingEnv(lost), Living(w), 22) && Offered(setup.rid, Living(w), 22)
      && Stands(Living(w), w.run.value)
  {
    var env := AskingEnv(lost);
    assert forall tool :: env.registered(tool);
    assert env.crash(40) == (40 in lost.crashes);
    Safety.SessionKeeps(env, setup, []);
    SessionSnoc(env, setup, [], Cancel);
    StartWaits(lost, setup);
    var w := Session(env, setup, []);
    hide AskingEnv, Session, StartRun, Safety.Inv, Lined, HashVerifies, CloneMap;
    assert LatestApproval(w.steps, 22) == Last(w.steps).approval;
  }

  // ---------- a cancelled run whose call is executed all the same ----------

  /** A session in which the run is cancelled while it waits, with success reported to the user, and a new
      process then executes the call: the write that is lost is the last one of the cancellation. */
  lemma CancelledYetExecuted()
    ensures var env := AskingEnv(Losses({43}, {}, {}));
      && Fresh(SETUP) && CancelRun(env, Session(env, SETUP, [])).ok
      && Executions(Session(env, SETUP, [Cancel, Reboot, Resume(22, true)]).trace, 22) == 1
  {
    LastSaveLost();
    hide AskingEnv, Session, CancelRun, Executions, SETUP;
    FirstPause(Losses({43}, {}, {}), SETUP);
    CancelThenExecute(AskingEnv(Losses({43}, {}, {})), SETUP, 22);
  }

  lemma LastSaveLost()
    ensures var env := AskingEnv(Losses({43}, {}, {})); CancelDurability.Healthy(env, 41, 43) && !env.storeOk(43) && Fresh(SETUP) && SETUP.clock == 1
  {}

  lemma CancelThenExecute(env: Env, setup: Setup, id: Id)
    requires var w := Session(env, setup, []);
      && Safety.Inv(setup.rid, w) && id != NO_ID && CancelDurability.Answerable(env, w, id)
      && CancelDurability.Healthy(env, w.clock, w.clock + 2) && !env.storeOk(w.clock + 2)
    ensures CancelRun(env, Session(env, setup, [])).ok
    ensures Executions(Session(env, setup, [Cancel, Reboot, Resume(id, true)]).trace, id) == 1
  {
    hide Session, Safety.Inv, CancelRun, ResumeRun, Executions, CancelDurability.Answerable, CancelDurability.Healthy;
    ThreeCalls(env, setup, Cancel, Reboot, Resume(id, true));
    CancelDurability.CancelIsDurableExactly(env, setup.rid, Session(env, setup, []), id);
  }

  lemma ThreeCalls(env: Env, setup: Setup, a: Call, b: Call, c: Call)
    ensures Session(env, setup, [a, b, c])
         == Apply(env, setup.rid, Apply(env, setup.rid, Apply(env, setup.rid, Session(env, setup, []), a), b), c)
  {
    hide Apply, Session;
    SessionSnoc(env, setup, [], a);
    SessionSnoc(env, setup, [a], b);
    SessionSnoc(env, setup, [a, b], c);
    assert [] + [a] == [a] && [a] + [b] == [a, b] && [a, b] + [c] == [a, b, c];
  }

  /** The same without a restart between the cancellation and the approval: the process had been restarted before,
      so its store does not have what the cancellation would reject. */
  lemma CancelledInProcess()
    ensures var env := AskingEnv(Losses({43}, {}, {}));
      && Fresh(SETUP) && CancelRun(env, Session(env, SETUP, [Reboot])).ok
      && Executions(Session(env, SETUP, [Reboot, Cancel, Resume(22, true)]).trace, 22) == 1
  {
    LastSaveLost();
    hide AskingEnv, Session, CancelRun, Executions, SETUP;
    FirstPause(Losses({43}, {}, {}), SETUP);
    RestartThenCancel(AskingEnv(Losses({43}, {}, {})), SETUP, 22);
  }

  lemma RestartThenCancel(env: Env, setup: Setup, id: Id)
    requires var w := Session(env, setup, []);
      && Safety.Inv(setup.rid, w) && id != NO_ID && CancelDurability.Answerable(env, Living(w), id)
      && CancelDurability.Healthy(env, w.clock, w.clock + 2) && !env.storeOk(w.clock + 2)
    ensures CancelRun(env, Session(env, setup, [Reboot])).ok
    ensures Executions(Session(env, setup, [Reboot, Cancel, Resume(id, true)]).trace, id) == 1
  {
    hide Session, Safety.Inv, CancelRun, ResumeRun, Executions, CancelDurability.Answerable, CancelDurability.Healthy, Restart;
    OneCall(env, setup, Reboot);
    ThreeCalls(env, setup, Reboot, Cancel, Resume(id, true));
    RestartedCancels(env, setup.rid, Session(env, setup, []), id);
  }

  lemma RestartedCancels(env: Env, rid: Id, w: World, id: Id)
    requires Safety.Inv(rid, w) && id != NO_ID && CancelDurability.Answerable(env, Living(w), id)
    requires CancelDurability.Healthy(env, w.clock, w.clock + 2) && !env.storeOk(w.clock + 2)
    ensures var c := CancelRun(env, Restart(w)); c.ok && Executions(ResumeRun(env, c.w, rid, id, true).w.trace, id) == 1
  {
    hide Safety.Inv, CancelRun, ResumeRun, Executions, CancelDurability.Answerable, CancelDurability.Healthy;
    RestartAnswerable(env, w, id);
    Safety.RestartKeeps(rid, w);
    CancelDurability.CancelHoldsInProcessExactly(env, rid, Restart(w), id);
  }

  /** A new process can answer what the old one left. */
  lemma RestartAnswerable(env: Env, w: World, id: Id)
    requires CancelDurability.Answerable(env, Living(w), id)
    ensures CancelDurability.Answerable(env, Restart(w), id)
  {
    hide LatestApproval;
  }

  // ---------- processes that die ----------

  /** A session whose process dies right after the pause is stored: a new process finds the approval in the log,
      and executes the call once. */
  lemma PauseSurvivesCrash()
    ensures var env := AskingEnv(Losses({}, {}, {40}));
      && Fresh(SETUP) && Session(env, SETUP, []).dead
      && Executions(Session(env, SETUP, [Reboot, Resume(22, true)]).trace, 22) == 1
  {
    var env := AskingEnv(Losses({}, {}, {40}));
    assert CancelDurability.Healthy(env, 41, 0);
    hide AskingEnv, Session, Executions, CancelDurability.Healthy;
    FirstPause(Losses({}, {}, {40}), SETUP);
    RestartThenApprove(env, SETUP, 22);
  }

  lemma RestartThenApprove(env: Env, setup: Setup, id: Id)
    requires var w := Session(env, setup, []);
      && Safety.Inv(setup.rid, w) && id != NO_ID && CancelDurability.Answerable(env, Living(w), id)
      && CancelDurability.Healthy(env, w.clock, 0) && w.clock > 0
    ensures Executions(Session(env, setup, [Reboot, Resume(id, true)]).trace, id) == 1
  {
    hide Session, Safety.Inv, ResumeRun, Executions, CancelDurability.Answerable, CancelDurability.Healthy, Restart;
    TwoCalls(env, setup, Reboot, Resume(id, true));
    RestartedApproves(env, setup.rid, Session(env, setup, []), id);
  }

  lemma RestartedApproves(env: Env, rid: Id, w: World, id: Id)
    requires Safety.Inv(rid, w) && id != NO_ID && CancelDurability.Answerable(env, Living(w), id)
    requires CancelDurability.Healthy(env, w.clock, 0) && w.clock > 0
    ensures Executions(ResumeRun(env, Restart(w), rid, id, true).w.trace, id) == 1
  {
    hide Safety.Inv, ResumeRun, Executions, CancelDurability.Answerable, CancelDurability.Healthy;
    RestartAnswerable(env, w, id);
    var back := Restart(w);
    Safety.RestartKeeps(rid, w);
    CancelDurability.ResumedExecutes(env, rid, back, id, w.clock, 0);
    Safety.ResumeKeeps(env, rid, back, id, true);
    CancelDurability.AtMostOne(rid, ResumeRun(env, back, rid, id, true).w, id);
  }

  lemma TwoCalls(env: Env, setup: Setup, a: Call, b: Call)
    ensures Session(env, setup, [a, b]) == Apply(env, setup.rid, Apply(env, setup.rid, Session(env, setup, []), a), b)
  {
    hide Apply, Session;
    OneCall(env, setup, a);
    SessionSnoc(env, setup, [a], b);
    assert [a] + [b] == [a, b];
  }

  /** A session whose process dies after the approved step is stored and before the call is executed: the run still
      says that it waits, but no later calls, with any restarts, ever execute it. */
  lemma ApprovedNeverExecuted(more: seq<Call>)
    ensures var env := AskingEnv(Losses({}, {}, {43})); var w := Session(env, SETUP, [Resume(22, true)]);
      && Fresh(SETUP) && w.dead && w.run.Some? && w.run.value.status == PausedForApproval && Safety.SettledInLog(w.steps, 22)
      && Executions(Session(env, SETUP, [Resume(22, true)] + more).trace, 22) == 0
  {
    DiesAfterVerdict();
    hide AskingEnv, Session, Executions, SETUP;
    FirstPause(Losses({}, {}, {43}), SETUP);
    DiesThenRests(AskingEnv(Losses({}, {}, {43})), SETUP, 22, more);
  }

  lemma DiesAfterVerdict()
    ensures var env := AskingEnv(Losses({}, {}, {43}));
      && !env.crash(41) && !env.crash(42) && env.crash(43) && Acked(env, 41) && Acked(env, 42) && Fresh(SETUP) && SETUP.clock == 1
  {}

  lemma DiesThenRests(env: Env, setup: Setup, id: Id, more: seq<Call>)
    requires Fresh(setup)
    requires var w := Session(env, setup, []);
      && Safety.Inv(setup.rid, w) && id != NO_ID && CancelDurability.Answerable(env, w, id) && Offered(setup.rid, w, id)
      && Stands(w, w.run.value) && !env.crash(w.clock) && !env.crash(w.clock + 1) && env.crash(w.clock + 2)
      && Acked(env, w.clock) && Acked(env, w.clock + 1)
    ensures var w := Session(env, setup, [Resume(id, true)]);
      w.dead && w.run.Some? && w.run.value.status == PausedForApproval && Safety.SettledInLog(w.steps, id)
    ensures Executions(Session(env, setup, [Resume(id, true)] + more).trace, id) == 0
  {
    hide Session, Safety.Inv, ResumeRun, HashVerifies, LatestApproval, Executions, Safety.SettledInLog, CloneMap, Lined;
    var w := Session(env, setup, []);
    OneCall(env, setup, Resume(id, true));
    CancelDurability.PendingIsUnused(setup.rid, w, id);
    ApproveDies(env, setup.rid, w, id);
    Finality.VerdictIsFinal(env, setup, [Resume(id, true)], more, id);
  }

  /** The verdict is stored, and then nothing happens any more. */
  lemma ApproveDies(env: Env, rid: Id, w: World, id: Id)
    requires w.run.Some? && w.run.value.status == PausedForApproval && w.run.value.approvalID == id
    requires Offered(rid, w, id) && Stands(w, w.run.value)
    requires !env.crash(w.clock) && !env.crash(w.clock + 1) && env.crash(w.clock + 2) && Acked(env, w.clock) && Acked(env, w.clock + 1)
    ensures var after := ResumeRun(env, w, rid, id, true).w;
      && after.dead && after.run.Some? && after.run.value.status == PausedForApproval && Safety.SettledInLog(after.steps, id)
      && Executions(after.trace, id) == Executions(w.trace, id)
  {
    hide RecordStep, Transition, RunApproved, Abort, CloneMap, HashMap, StoredState, Executions, Lined, Log;
    var st, approval := w.run.value, CloneRecord(w.approvals[id]);
    var (w1, approved) := ResolveApproval(w, id, true, "");
    var body := ApprovalBody(approved.value);
    RecordStepRuns(env, w1, st, RequestApproval, StepCompleted, body);
    var r := RecordStep(env, w1, st, RequestApproval, StepCompleted, body);
    StoredStateKeepsControl(env.red, r.st);
    var stored := StoredStep(env.red, r.step);
    assert stored in r.w.steps && Safety.Carries(stored, id, false);
    DyingTransition(env, r.w, r.st, ApprovalApproved, r.step);
    var t := Transition(env, r.w, r.st, ApprovalApproved, r.step);
    DeadRunsNothing(env, t.w, t.st, r.step, approval, approved.value);
    CancelDurability.ResolvedRunsNothing(w.trace, id);
  }

  lemma DyingTransition(env: Env, w: World, st: RunState, status: RunStatus, step: Step)
    requires env.crash(w.clock) && !w.dead
    ensures Transition(env, w, st, status, step).w == w.(dead := true, clock := w.clock + 1)
  {
    hide StoredState;
  }

  lemma DeadRunsNothing(env: Env, w: World, st: RunState, step: Step, approval: Record, approved: Record)
    requires w.dead
    ensures var said := Log(env, w, OfApproval(EventApprovalApproved, approval.id)); var u := Transition(env, said, st, ToolExecuting, step);
      RunApproved(env, u.w, u.st, approval, approved).w == w
  {
    hide StoredState, StoredStep, Upsert, CloneRecord, AfterSuccess;
  }

  // ---------- a pause that a restart answers differently ----------

  /** A session in which the store has settled the approval and the log has not heard of it: the writes that
      are lost are those of the two steps after the user's answer. The run still waits, and a new process
      resumes it otherwise than the old one would. */
  lemma PauseForgotten(approve: bool)
    ensures var env := AskingEnv(Losses({41, 42}, {}, {})); var w := Session(env, SETUP, [Resume(22, true)]);
      && Fresh(SETUP) && !w.dead && w.run.Some? && w.run.value.status == PausedForApproval && w.run.value.approvalID == 22
      && LatestApproval(w.steps, 22).Some? && RestartTransparency.Forgotten(w, 22)
      && !RestartTransparency.TwinOut(ResumeRun(env, w, SETUP.rid, 22, approve),
                                      ResumeRun(env, Restart(w), SETUP.rid, 22, approve), |w.trace|, |w.trace| + 1)
  {
    AnswersLost();
    hide AskingEnv, Session, SETUP, ResumeRun, RestartTransparency.TwinOut, RestartTransparency.Forgotten;
    FirstPause(Losses({41, 42}, {}, {}), SETUP);
    ForgetsThenDiffers(AskingEnv(Losses({41, 42}, {}, {})), SETUP, 22, approve);
  }

  lemma AnswersLost()
    ensures var env := AskingEnv(Losses({41, 42}, {}, {}));
      && !env.crash(41) && !env.crash(42) && !env.crash(43) && !env.storeOk(41) && !env.storeOk(42) && Fresh(SETUP) && SETUP.clock == 1
  {}

  lemma ForgetsThenDiffers(env: Env, setup: Setup, id: Id, approve: bool)
    requires Fresh(setup)
    requires var w := Session(env, setup, []);
      && id != NO_ID && CancelDurability.Answerable(env, w, id) && Offered(setup.rid, w, id)
      && !env.crash(w.clock) && !env.crash(w.clock + 1) && !env.crash(w.clock + 2) && !env.storeOk(w.clock) && !env.storeOk(w.clock + 1)
    ensures var w := Session(env, setup, [Resume(id, true)]);
      && !w.dead && w.run.Some? && w.run.value.status == PausedForApproval && w.run.value.approvalID == id
      && LatestApproval(w.steps, id).Some? && RestartTransparency.Forgotten(w, id)
      && !RestartTransparency.TwinOut(ResumeRun(env, w, setup.rid, id, approve),
                                      ResumeRun(env, Restart(w), setup.rid, id, approve), |w.trace|, |w.trace| + 1)
  {
    hide Session, ResumeRun, HashVerifies, LatestApproval, RestartTransparency.TwinOut;
    OneCall(env, setup, Resume(id, true));
    AnswerLost(env, setup.rid, Session(env, setup, []), id);
    ForgottenDiffers(env, setup, [Resume(id, true)], id, approve);
  }

  lemma ForgottenDiffers(env: Env, setup: Setup, calls: seq<Call>, id: Id, approve: bool)
    requires Fresh(setup)
    requires var w := Session(env, setup, calls);
      && !w.dead && w.run.Some? && w.run.value.status == PausedForApproval && w.run.value.approvalID == id
      && LatestApproval(w.steps, id).Some? && RestartTransparency.Forgotten(w, id)
    ensures var w := Session(env, setup, calls);
      !RestartTransparency.TwinOut(ResumeRun(env, w, setup.rid, id, approve),
                                   ResumeRun(env, Restart(w), setup.rid, id, approve), |w.trace|, |w.trace| + 1)
  {
    hide Session, ResumeRun, LatestApproval, RestartTransparency.TwinOut, RestartTransparency.Forgotten;
    PauseRecords.EveryPauseRestarts(env, setup, calls, approve);
  }

  lemma OneCall(env: Env, setup: Setup, a: Call)
    ensures Session(env, setup, [a]) == Apply(env, setup.rid, Session(env, setup, []), a)
  {
    hide Apply, Session;
    SessionSnoc(env, setup, [], a);
    assert [] + [a] == [a];
  }

  /** Neither the step that records the answer nor the one that records the failure can be written. */
  lemma AnswerLost(env: Env, rid: Id, w: World, id: Id)
    requires !w.dead && w.run.Some? && w.run.value.status == PausedForApproval && w.run.value.approvalID == id && Offered(rid, w, id)
    requires !env.crash(w.clock) && !env.crash(w.clock + 1) && !env.crash(w.clock + 2)
    requires !env.storeOk(w.clock) && !env.storeOk(w.clock + 1)
    ensures var after := ResumeRun(env, w, rid, id, true).w;
      !after.dead && after.run == w.run && after.steps == w.steps && id in after.approvals && after.approvals[id].status == Approved
  {
    hide CloneMap, HashMap, RunApproved, Transition, RecordStep, Abort;
    var (w1, approved) := ResolveApproval(w, id, true, "");
    assert approved.Some?;
    RecordLost(env, w1, w.run.value, RequestApproval, StepCompleted, ApprovalBody(approved.value));
    var r := RecordStep(env, w1, w.run.value, RequestApproval, StepCompleted, ApprovalBody(approved.value));
    AbortLost(env, r.w, r.st, StoreFailed);
  }

  lemma RecordLost(env: Env, w: World, st: RunState, kind: StepKind, status: StepStatus, body: Body)
    requires !w.dead && !env.crash(w.clock) && !env.storeOk(w.clock)
    ensures var r := RecordStep(env, w, st, kind, status, body); !r.ok && r.w == w.(clock := w.clock + 1)
  {}

  lemma AbortLost(env: Env, w: World, st: RunState, cause: Cause)
    requires !w.dead && !env.crash(w.clock) && !env.crash(w.clock + 1) && !env.storeOk(w.clock)
    ensures var after := Abort(env, w, st, cause).w;
      !after.dead && after.run == w.run && after.steps == w.steps && after.approvals == w.approvals
  {
    hide RecordStep, Transition;
    RecordLost(env, w, st.(error := cause), Finalize, StepFailed, EMPTY.(error := cause));
  }

  // ---------- an approval that no event names ----------

  /** A session in which an approval is created and waited for, and the run log does not name it: the write that
      is lost is the one right after the creation. */
  lemma ApprovalUnnamed()
    ensures var trace := Session(AskingEnv(Losses({}, {23}, {})), SETUP, []).trace;
      && Fresh(SETUP) && 22 in Projections.CreatedIds(trace) && 22 !in Projections.ApprovalsFromEvents(trace)
  {
    var env := AskingEnv(Losses({}, {23}, {}));
    assert !env.eventOk(23);
    hide AskingEnv, Session, HashVerifies, CloneMap, ApprovedIn, Executions, CancelDurability.Answerable;
    FirstPause(Losses({}, {23}, {}), SETUP);
    var w := Session(env, SETUP, []);
    assert Safety.RecordSound(w, 22);
    Lifecycle.CreatedOnce(w.trace);
    EventLog.EventsNameTheCreated(env, SETUP, []);
    OnlyLanded(env, Projections.CreatedIds(w.trace), 22);
  }

  lemma {:induction false} OnlyLanded(env: Env, ids: seq<Id>, id: Id)
    ensures id in EventLog.Announced(env, ids) ==> EventLog.Landed(env, id)
  {
    hide EventLog.Landed;
    if ids != [] { OnlyLanded(env, Init(ids), id); }
  }

  // ---------- a denied call that the read-only entry point executes ----------

  const POSTS := Inference(["network.post"], "", false, false, 1.0, "")

  /** The program's own profiles, with the offline one active; the call posts to the network. */
  function OfflineEnv(): Env
  {
    AskingEnv(NO_LOSSES).(policy := Normalized(PolicyConfig(0.0, "offline", map[])), infer := (_, _) => Some(POSTS))
  }

  lemma OfflineDenies()
    ensures var d := Routing.DecisionAt(OfflineEnv(), 1, CALL); d.Some? && !d.value.allowed && !d.value.requiresApproval
    ensures Routing.DecisionAt(OfflineEnv(), 2, CALL) == Routing.DecisionAt(OfflineEnv(), 1, CALL)
  {
    var cfg := PolicyConfig(0.0, "offline", map[]);
    assert OfflineEnv().policy == Normalized(cfg) && forall n: nat :: OfflineEnv().infer(n, CALL) == Some(POSTS);
    OfflineChosen(cfg);
    InferencePolicy.BuiltInInForce(cfg, CALL);
    hide OfflineEnv, Normalized, ResolveProfile, Denies;
    PostIsDenied(Threshold(Normalized(cfg), OFFLINE_PROFILE));
  }

  lemma OfflineChosen(cfg: PolicyConfig)
    requires cfg.activeProfile == "offline"
    ensures InferencePolicy.ChosenName(cfg, CALL) == "offline"
  {
    hide TrimSpace;
    TrimIdentity("offline");
    TrimIdentity("");
    assert Text(CALL.input, "policy_profile") == "";
  }

  lemma PostIsDenied(threshold: real)
    ensures var d := Judge(OFFLINE_PROFILE, threshold, POSTS); !d.allowed && !d.requiresApproval
  {
    InferencePolicy.OfflineStops();
    hide Denies;
  }

  /** Under the offline profile a call that posts to the network is denied when it is proposed, and executed
      when the read-only entry point is asked for it. */
  lemma DeniedYetExecuted()
    ensures var env, w := OfflineEnv(), Genesis(SETUP);
      && Routing.DecisionAt(env, 1, CALL).Some? && !Routing.DecisionAt(env, 1, CALL).value.allowed
      && Routing.Ran(w, Propose(env, w, SETUP.rid, CALL).w) == 0
      && Routing.Ran(w, ExecuteReadOnly(env, w, CALL).w) == 1
  {
    var env, w := OfflineEnv(), Genesis(SETUP);
    assert w.clock == 1 && !w.dead && env.registered(CALL.tool) && Routing.Lives(env, w, 6) && Routing.Lives(env, w, 3);
    hide OfflineEnv, Genesis, Propose, ExecuteReadOnly, Routing.Ran, Routing.DecisionAt, Routing.Lives;
    OfflineDenies();
    Routing.ProposeReaches(env, w, SETUP.rid, CALL);
    Routing.ReadOnlyReaches(env, w, CALL);
  }

  // ---------- a run that fills its log ----------

  /** Every write succeeds. */
  function Kind(): Env { AskingEnv(NO_LOSSES) }

  lemma KindIsReliable()
    ensures Reliable(Kind())
  {}

  lemma KindSteady(from: nat, n: nat)
    ensures Steady(Kind(), from, n) && Kind().messageOk(from) && !Kind().crash(from)
  {}

  lemma ExecuteTimed(w: World, st: RunState, p: Proposal, id: Id)
    requires Stands(w, st)
    ensures var e := Execute(Kind(), w, p, id); e.ok && e.result.Some? && Stands(e.w, st) && e.w.clock == w.clock + 4 && e.w.steps == w.steps
  {
    KindIsReliable();
    assert Kind().registered(p.tool) && Kind().execute(w.clock + 1, p.tool, CloneMap(p.input)) == ExecOutcome(Some(ToolResult("", Obj(map[]), "")), false);
    hide Kind, Lined, Log, CloneMap;
    LogTimed(Kind(), w, st, OfTool(EventToolStarted, p));
    var started := Log(Kind(), w, OfTool(EventToolStarted, p));
    TickTimed(Kind(), started, st);
    var ran := Note(Tick(Kind(), started), Executed(p.id, p.tool, CloneMap(p.input), id));
    LogTimed(Kind(), ran, st, OfTool(EventToolOutput, p));
    LogTimed(Kind(), Log(Kind(), ran, OfTool(EventToolOutput, p)), st, OfTool(EventToolCompleted, p));
  }

  lemma AfterSuccessTimed(rid: Id, w: World, st: RunState, body: Body, result: Option<ToolResult>)
    requires Stands(w, st) && st.runID == rid && st.stepCount < st.maxSteps && result.Some?
    ensures EndsWaiting(Kind(), rid, w, st.(stepCount := st.stepCount + 1), AfterSuccess(Kind(), w, st, body, result), w.clock + 18, 37, 6)
  {
    hide Kind, Lined, RecordStep, Transition, ContinueRun, StoredState, EndsWaiting, SaveState, Abort, CloneRecord;
    var c := SuccessTimed(w, st, body, result);
    KindWaits(rid, c.w, c.st, result);
    var o := ContinueRun(Kind(), c.w, c.st, result);
    LaterAnswers(Kind(), rid, w, st.(stepCount := st.stepCount + 1), c.w, c.st.(stepCount := c.st.stepCount + 1), o, w.clock + 18, 32, 5, 5, 1);
  }

  lemma KindWaits(rid: Id, w: World, st: RunState, last: Option<ToolResult>)
    requires Stands(w, st) && st.runID == rid && st.stepCount < st.maxSteps
    ensures EndsWaiting(Kind(), rid, w, st.(stepCount := st.stepCount + 1), ContinueRun(Kind(), w, st, last), w.clock + 13, 32, 5)
  {
    hide EndsWaiting, ContinueRun, Lined, AskingEnv;
    KindSteady(w.clock, 31);
    LoopWaits(NO_LOSSES, rid, w, st, last);
  }

  /** Recording the success, up to where the loop goes on. */
  lemma SuccessTimed(w: World, st: RunState, body: Body, result: Option<ToolResult>) returns (c: At)
    requires Stands(w, st) && result.Some?
    ensures AfterSuccess(Kind(), w, st, body, result) == ContinueRun(Kind(), c.w, c.st, result)
    ensures Stands(c.w, c.st) && SameBudget(c.st, st) && c.w.clock == w.clock + 5 && |c.w.steps| == |w.steps| + 1
  {
    hide Kind, Lined, RecordStep, Transition, ContinueRun, StoredState, SaveState, Abort, CloneRecord;
    KindIsReliable();
    StageTimed(Kind(), w, st, ExecuteTool, StepCompleted, body, ToolCompleted);
    var x := RecordStep(Kind(), w, st, ExecuteTool, StepCompleted, body);
    var y := Transition(Kind(), x.w, x.st, ToolCompleted, x.step);
    var shown := Note(y.w, Streamed(OfApproval(EventToolOutput, st.approvalID)));
    var cleared := y.st.(approvalID := NO_ID);
    SaveTimed(Kind(), shown, cleared);
    c := At(SaveState(Kind(), shown, cleared).w, cleared);
  }

  lemma RunApprovedTimed(rid: Id, w: World, st: RunState, approval: Record, approved: Record)
    requires Stands(w, st) && st.runID == rid && st.stepCount < st.maxSteps
    requires approval.id in w.approvals && w.approvals[approval.id].status == Approved && HashVerifies(w.approvals[approval.id])
    ensures EndsWaiting(Kind(), rid, w, st.(stepCount := st.stepCount + 1), RunApproved(Kind(), w, st, approval, approved), w.clock + 22, 41, 6)
  {
    hide Kind, Lined, Execute, AfterSuccess, EndsWaiting, HashMap, CloneMap, ExecuteBody;
    var raw := CloneRecord(w.approvals[approval.id]);
    ExecuteTimed(w, st, raw.proposal.(input := CloneMap(raw.snapshot)), approval.id);
    var e := ExecuteApproved(Kind(), w, approval.id);
    var st1, body := st.(toolResult := e.result), ExecuteBody(approval, approved, e.result, NoError);
    AfterSuccessTimed(rid, e.w, st1, body, e.result);
    LaterAnswers(Kind(), rid, w, st.(stepCount := st.stepCount + 1), e.w, st1.(stepCount := st.stepCount + 1),
                 AfterSuccess(Kind(), e.w, st1, body, e.result), w.clock + 22, 37, 6, 4, 0);
  }

  lemma ApproveTimed(rid: Id, w: World, st: RunState, approval: Record)
    requires Stands(w, st) && st.runID == rid && st.stepCount < st.maxSteps && Offered(rid, w, approval.id)
    ensures EndsWaiting(Kind(), rid, w, st.(stepCount := st.stepCount + 1), ApprovePaused(Kind(), w, st, approval), w.clock + 29, 48, 7)
  {
    hide Kind, Lined, RecordStep, Transition, RunApproved, StoredState, EndsWaiting, HashMap, CloneMap, Log, ApprovalBody;
    KindIsReliable();
    var id := approval.id;
    var (w1, approved) := ResolveApproval(w, id, true, "");
    var body := ApprovalBody(approved.value);
    StageTimed(Kind(), w1, st, RequestApproval, StepCompleted, body, ApprovalApproved);
    var r := RecordStep(Kind(), w1, st, RequestApproval, StepCompleted, body);
    var t := Transition(Kind(), r.w, r.st, ApprovalApproved, r.step);
    LogTimed(Kind(), t.w, t.st, OfApproval(EventApprovalApproved, id));
    var said := Log(Kind(), t.w, OfApproval(EventApprovalApproved, id));
    TransitionTimed(Kind(), said, t.st, ToolExecuting, r.step);
    var u := Transition(Kind(), said, t.st, ToolExecuting, r.step);
    RunApprovedTimed(rid, u.w, u.st, approval, approved.value);
    LaterAnswers(Kind(), rid, w, st.(stepCount := st.stepCount + 1), u.w, u.st.(stepCount := st.stepCount + 1),
                 RunApproved(Kind(), u.w, u.st, approval, approved.value), w.clock + 29, 41, 6, 7, 1);
  }

  /** The run waits after `n` planner calls, with as many steps as these can take. */
  ghost predicate Parked(setup: Setup, w: World, n: nat)
  {
    && w.run.Some?
    && var st := w.run.value;
    && Waits(setup.rid, w, st, st.approvalID) && st.stepCount == n && st.maxSteps == Budget(setup.configured)
    && |w.steps| + 1 == 7 * n
  }

  lemma ParkedAgain(setup: Setup, w: World, n: nat)
    requires Parked(setup, w, n) && n < Budget(setup.configured)
    ensures Parked(setup, ResumeRun(Kind(), w, setup.rid, w.run.value.approvalID, true).w, n + 1)
  {
    hide Kind, Lined, ApprovePaused, HashMap, CloneMap;
    var st := w.run.value;
    ApproveTimed(setup.rid, w, st, CloneRecord(w.approvals[st.approvalID]));
    var o := ApprovePaused(Kind(), w, st, CloneRecord(w.approvals[st.approvalID]));
    KindSteady(o.w.clock - 1, 1);
    assert Living(o.w) == o.w;
    assert Waits(setup.rid, o.w, o.w.run.value, o.w.run.value.approvalID);
  }

  lemma ParkOnce(setup: Setup)
    requires Fresh(setup) && setup.clock == 1
    ensures Parked(setup, Session(Kind(), setup, []), 1)
  {
    hide Kind, Session, StartRun, Parked, EndsWaiting;
    assert Kind() == AskingEnv(NO_LOSSES) by { KindIsAsking(); }
    StartWaits(NO_LOSSES, setup);
    SessionSnoc(Kind(), setup, [], Cancel);
    FirstParked(setup, StartRun(Kind(), Genesis(setup), setup.rid, setup.message, setup.configured));
  }

  lemma KindIsAsking()
    ensures Kind() == AskingEnv(NO_LOSSES)
  {}

  /** Any number of answered calls, up to the budget. */
  lemma {:induction false} Park(setup: Setup, n: nat) returns (calls: seq<Call>)
    requires Fresh(setup) && setup.clock == 1 && 0 < n <= Budget(setup.configured)
    ensures Parked(setup, Session(Kind(), setup, calls), n)
  {
    hide Kind, Session, ResumeRun, Waits;
    if n == 1 {
      calls := [];
      ParkOnce(setup);
    } else {
      var before := Park(setup, n - 1);
      var w := Session(Kind(), setup, before);
      var again := Resume(w.run.value.approvalID, true);
      calls := before + [again];
      SessionSnoc(Kind(), setup, before, again);
      ParkedAgain(setup, w, n - 1);
    }
  }

  lemma FirstParked(setup: Setup, o: Out)
    requires EndsWaiting(Kind(), setup.rid, Genesis(setup), InitialState(setup.rid, setup.message, Budget(setup.configured), 1).(stepCount := 1), o, 22, 40, 6)
    ensures Parked(setup, o.w, 1)
  {
    hide Lined, HashVerifies, CloneMap;
  }

  /** The closing message can be written, so a rejection ends in three more steps. */
  lemma RejectTimed(setup: Setup, w: World, n: nat)
    requires Parked(setup, w, n)
    ensures var after := ResumeRun(Kind(), w, setup.rid, w.run.value.approvalID, false).w;
      && after.run.Some? && after.run.value.status == ApprovalRejected && Stands(after, after.run.value) && |after.steps| == |w.steps| + 3
  {
    hide Kind, Lined, RecordStep, Transition, StoredState, HashMap, CloneMap, Log, CloseRejected;
    KindIsReliable();
    var st := w.run.value;
    var id := st.approvalID;
    var (w1, rejected) := ResolveApproval(w, id, false, "rejected from workflow");
    var body := ApprovalBody(rejected.value);
    StageTimed(Kind(), w1, st, RequestApproval, StepCancelled, body, ApprovalRejected);
    var r := RecordStep(Kind(), w1, st, RequestApproval, StepCancelled, body);
    var t := Transition(Kind(), r.w, r.st, ApprovalRejected, r.step);
    LogTimed(Kind(), t.w, t.st, OfApproval(EventApprovalRejected, id));
    CloseTimed(Log(Kind(), t.w, OfApproval(EventApprovalRejected, id)), t.st);
  }

  lemma CloseTimed(w: World, st: RunState)
    requires Stands(w, st)
    ensures var after := CloseRejected(Kind(), w, st).w;
      && after.run.Some? && after.run.value.status == ApprovalRejected && Stands(after, after.run.value) && |after.steps| == |w.steps| + 2
  {
    hide Kind, Lined, RecordStep, Transition, StoredState, Log;
    KindIsReliable();
    StageTimed(Kind(), w, st, Summarize, StepCompleted, EMPTY, Summarizing);
    var s := RecordStep(Kind(), w, st, Summarize, StepCompleted, EMPTY);
    var u := Transition(Kind(), s.w, s.st, Summarizing, s.step);
    KindSteady(u.w.clock, 1);
    TickTimed(Kind(), u.w, u.st);
    LogTimed(Kind(), Tick(Kind(), u.w), u.st, Plain(AssistantMessage));
    var m := PersistAssistant(Kind(), u.w);
    StageTimed(Kind(), m.w, u.st, Finalize, StepCompleted, EMPTY, ApprovalRejected);
    var f := RecordStep(Kind(), m.w, u.st, Finalize, StepCompleted, EMPTY);
    var c := Transition(Kind(), f.w, f.st, ApprovalRejected, f.step);
    LogTimed(Kind(), c.w, c.st, Plain(RunCompleted));
    StoredStateKeepsControl(Kind().red, c.st);
  }

  lemma CancelTimed(w: World)
    requires w.run.Some? && w.run.value.status == ApprovalRejected && Stands(w, w.run.value)
    ensures |CancelRun(Kind(), w).w.steps| == |w.steps| + 1
  {
    hide Kind, Lined, RecordStep, Transition, StoredState, Log, ResolveApproval;
    var st := w.run.value;
    var (w1, _) := if st.approvalID != NO_ID then ResolveApproval(w, st.approvalID, false, "run cancelled") else (w, None);
    ResolveStands(w, st, st.approvalID, false, "run cancelled");
    KindSteady(w1.clock, 4);
    StageTimed(Kind(), w1, st, CancelStep, StepCancelled, EMPTY, Cancelled);
    var r := RecordStep(Kind(), w1, st, CancelStep, StepCancelled, EMPTY);
    var t := Transition(Kind(), r.w, r.st, Cancelled, r.step);
    KindSteady(t.w.clock, 1);
    LogTimed(Kind(), t.w, t.st, Plain(RunCancelled));
  }
  /** For every budget some session in which nothing goes wrong fills its log to the very bound: every call
      but the last is approved, the last one is refused, and the refused run is cancelled. */
  lemma SomeLogIsFull(configured: nat)
    ensures Reliable(Kind()) && Fresh(SETUP.(configured := configured))
    ensures exists calls :: |Session(Kind(), SETUP.(configured := configured), calls).steps| == 7 * Budget(configured) + 3
  {
    hide Kind, Lined, Session, ResumeRun, CancelRun, Reliable;
    KindIsReliable();
    var setup := SETUP.(configured := configured);
    var calls := Park(setup, Budget(configured));
    var w := Session(Kind(), setup, calls);
    ParkedEnds(setup, calls, Budget(configured));
    var full := calls + [Resume(w.run.value.approvalID, false)] + [Cancel];
    assert |Session(Kind(), setup, full).steps| == 7 * Budget(configured) + 3;
  }

  lemma ParkedEnds(setup: Setup, calls: seq<Call>, n: nat)
    requires Parked(setup, Session(Kind(), setup, calls), n)
    ensures var refuse := Resume(Session(Kind(), setup, calls).run.value.approvalID, false);
      |Session(Kind(), setup, calls + [refuse] + [Cancel]).steps| == 7 * n + 3
  {
    hide Kind, Lined, Session, ResumeRun, CancelRun, HashVerifies;
    var w := Session(Kind(), setup, calls);
    var refuse := Resume(w.run.value.approvalID, false);
    SessionSnoc(Kind(), setup, calls, refuse);
    RejectTimed(setup, w, n);
    SessionSnoc(Kind(), setup, calls + [refuse], Cancel);
    CancelTimed(Session(Kind(), setup, calls + [refuse]));
  }

  // ---------- a message that needs six planner calls ----------

  /** The message asks for a runbook, a patch and the tests. */
  const READER := Reader(_ => Reading(".", true, true, false, true), _ => "")

  /** A result that suits every rung: its plan begins with reading a file, and no tests have passed. */
  const RESULT := ToolResult("", Obj(map["plan" := Obj(map["steps" := Arr([Obj(map["tool" := Str("code.read_file")])])])]), "")

  const HARMLESS := Inference([], "", false, false, 1.0, "")

  /** This program's planner, which first asks for a runbook; every call runs at once and succeeds. */
  function Ladder(): Env
  {
    Env(DEFAULT_POLICY, Redactor(text => text, input => input), _ => false, _ => true, _ => true, _ => true, _ => true, _ => Some([]),
        (_, input: PlanInput) =>
          Some(if input.lastResult.Some? then PlanAfter(READER, "next", input)
               else ToPlan(CompiledTool(Some(NewProposal("first", "runbook.plan", Obj(map[]), [])), false))),
        (_, _) => None, (_, _) => Some(HARMLESS), _ => true, (_, _, _) => ExecOutcome(Some(RESULT), false))
  }

  /** The tools of the longest chain, in order. */
  function Rung(k: nat): string
  {
    match k
    case 0 => "runbook.plan"
    case 1 => "code.read_file"
    case 2 => "code.apply_patch"
    case 3 => "code.run_tests"
    case _ => "code.parse_test_failure"
  }

  /** `k` rungs have been climbed, and `last` came back from the last of them. */
  ghost predicate Climbed(st: RunState, last: Option<ToolResult>, k: nat)
  {
    && k <= 5 && st.stepCount == k && st.maxSteps == 5
    && (if k == 0 then last.None?
        else last.Some? && last.value.output == RESULT.output && st.proposal.Some? && st.proposal.value.tool == Rung(k - 1))
  }

  lemma ResultReads()
    ensures FirstExecutableStep(RESULT).Some? && FirstExecutableStep(RESULT).value.tool == "code.read_file"
    ensures Field(RESULT.output, "passed") != Bool(true)
  {
    var item := Obj(map["tool" := Str("code.read_file")]);
    assert Field(RESULT.output, "plan") == Obj(map["steps" := Arr([item])]);
    assert Text(item, "tool") == "code.read_file";
    assert FirstNamed([item]).Some?;
  }

  /** The table of this program's planner leads from each rung to the next. */
  lemma RungPlan(id: string, input: PlanInput, k: nat)
    requires 0 < k < 5 && input.lastResult.Some? && input.lastResult.value.output == RESULT.output
    requires input.lastProposal.Some? && input.lastProposal.value.tool == Rung(k - 1)
    ensures var plan := PlanAfter(READER, id, input); plan.decision == DecideTool && plan.proposal.Some? && plan.proposal.value.tool == Rung(k)
  {
    ResultReads();
    hide CloneMap, FirstNamed;
    assert FirstExecutableStep(input.lastResult.value) == FirstExecutableStep(RESULT) by { hide Rung; }
  }

  /** Each rung is answered with the next one. */
  lemma NextRung(now: nat, st: RunState, last: Option<ToolResult>, k: nat)
    requires Climbed(st, last, k) && k < 5
    ensures var answer := Ladder().plan(now, PlanInputOf(st.(stepCount := st.stepCount + 1), last));
      && answer.Some? && var plan := NormalizePlan(answer.value, last);
      plan.decision == DecideTool && plan.proposal.Some? && plan.proposal.value.tool == Rung(k)
  {
    if k > 0 {
      RungPlan("next", PlanInputOf(st.(stepCount := st.stepCount + 1), last), k);
    }
    hide PlanAfter, CloneMap;
  }

  lemma HarmlessRuns(p: Proposal)
    ensures AutoExecutes(Decide(DEFAULT_POLICY, p, HARMLESS))
  {
    assert ResolveProfile(DEFAULT_POLICY, p) == DEFAULT_PROFILE;
  }

  lemma LadderIsReliable()
    ensures Reliable(Ladder())
  {}

  lemma LadderAnswers(now: nat, p: Proposal)
    ensures Ladder().policy == DEFAULT_POLICY && Ladder().infer(now, p) == Some(HARMLESS) && Ladder().registered(p.tool)
    ensures Ladder().execute(now, p.tool, CloneMap(p.input)) == ExecOutcome(Some(RESULT), false)
  {}

  lemma RungExecutes(w: World, st: RunState, p: Proposal)
    requires Stands(w, st)
    ensures var e := Execute(Ladder(), w, p, NO_ID);
      e.ok && e.result.Some? && e.result.value.output == RESULT.output && e.result.value.error == "" && Stands(e.w, st)
  {
    hide Ladder, Lined, Log, CloneMap;
    LadderIsReliable();
    LogTimed(Ladder(), w, st, OfTool(EventToolStarted, p));
    var started := Log(Ladder(), w, OfTool(EventToolStarted, p));
    LadderAnswers(started.clock, p);
    TickTimed(Ladder(), started, st);
    var ran := Note(Tick(Ladder(), started), Executed(p.id, p.tool, CloneMap(p.input), NO_ID));
    LogTimed(Ladder(), ran, st, OfTool(EventToolOutput, p));
    LogTimed(Ladder(), Log(Ladder(), ran, OfTool(EventToolOutput, p)), st, OfTool(EventToolCompleted, p));
  }

  lemma RungProposed(w: World, st: RunState, rid: Id, p: Proposal)
    requires Stands(w, st)
    ensures var r := Propose(Ladder(), w, rid, p);
      && r.ok && r.approval.None? && r.result.Some? && r.result.value.output == RESULT.output && r.result.value.error == "" && Stands(r.w, st)
  {
    HarmlessRuns(p);
    hide Ladder, DEFAULT_POLICY, HARMLESS, RESULT, Lined, Log, CloneMap, Execute, Decide;
    LadderIsReliable();
    var first := OfTool(EventToolProposed, p).(input := CloneMap(p.input));
    LogTimed(Ladder(), w, st, first);
    var proposed := Log(Ladder(), w, first);
    LadderAnswers(proposed.clock, p);
    TickTimed(Ladder(), proposed, st);
    var t := Tick(Ladder(), proposed);
    LogTimed(Ladder(), t, st, OfTool(EventEffectInferred, p));
    var told := Log(Ladder(), t, OfTool(EventEffectInferred, p));
    var d := Decide(Ladder().policy, p, HARMLESS);
    var answered := Note(told, DecidedOn(p, d));
    var e := OfTool(EventPolicyDecided, p).(decision := Some(d));
    LogTimed(Ladder(), answered, st, e);
    RungExecutes(Log(Ladder(), answered, e), st, p);
  }

  lemma RungFinished(w: World, st: RunState, p: Proposal, result: Option<ToolResult>)
    requires Stands(w, st) && result.Some? && result.value.error == ""
    ensures var t := Finish(Ladder(), w, st, p, result);
      t.Again? && Stands(t.w, t.st) && SameBudget(t.st, st) && t.st.proposal == st.proposal && t.last == result
  {
    hide Ladder, RESULT, Lined, RecordStep, Transition, StoredState;
    LadderIsReliable();
    var body := Body(Some(p), None, result, NoError);
    StageTimed(Ladder(), w, st, ExecuteTool, StepCompleted, body, ToolExecuting);
    var r := RecordStep(Ladder(), w, st, ExecuteTool, StepCompleted, body);
    var t := Transition(Ladder(), r.w, r.st, ToolExecuting, r.step);
    TransitionTimed(Ladder(), t.w, t.st.(toolResult := result), ToolCompleted, r.step);
  }

  lemma RungRouted(routed: Routed, st: RunState, p: Proposal)
    requires Stands(routed.w, st) && routed.approval.None? && routed.result.Some? && routed.result.value.error == ""
    ensures var t := AfterRouting(Ladder(), routed, st, p);
      t.Again? && Stands(t.w, t.st) && SameBudget(t.st, st) && t.st.proposal == st.proposal && t.last == routed.result
  {
    hide Ladder, RESULT, Lined, RecordStep, Transition, StoredState, Finish;
    LadderIsReliable();
    var body := EMPTY.(proposal := Some(p));
    StageTimed(Ladder(), routed.w, st, InferEffect, StepCompleted, body, EffectInferred);
    var r := RecordStep(Ladder(), routed.w, st, InferEffect, StepCompleted, body);
    var t := Transition(Ladder(), r.w, r.st, EffectInferred, r.step);
    StageTimed(Ladder(), t.w, t.st, DecidePolicy, StepCompleted, body, PolicyDecided);
    var d := RecordStep(Ladder(), t.w, t.st, DecidePolicy, StepCompleted, body);
    var u := Transition(Ladder(), d.w, d.st, PolicyDecided, d.step);
    RungFinished(u.w, u.st, p, routed.result);
  }

  lemma RungUsed(w: World, st: RunState, p: Proposal)
    requires Stands(w, st)
    ensures var t := UseTool(Ladder(), w, st, p);
      && t.Again? && Stands(t.w, t.st) && SameBudget(t.st, st) && t.st.proposal.Some? && t.st.proposal.value.tool == p.tool
      && t.last.Some? && t.last.value.output == RESULT.output
  {
    hide Ladder, RESULT, Lined, RecordStep, Transition, StoredState, Propose, AfterRouting, CloneMap;
    LadderIsReliable();
    var proposal := CloneProposal(p);
    var st1, body := st.(proposal := Some(proposal)), EMPTY.(proposal := Some(proposal));
    StageTimed(Ladder(), w, st1, ProposeTool, StepCompleted, body, ToolProposed);
    var r := RecordStep(Ladder(), w, st1, ProposeTool, StepCompleted, body);
    var t := Transition(Ladder(), r.w, r.st, ToolProposed, r.step);
    RungProposed(t.w, t.st, st.runID, p);
    RungRouted(Propose(Ladder(), t.w, st.runID, p), t.st, proposal);
  }

  lemma RungTurned(w: World, st0: RunState, last: Option<ToolResult>, k: nat)
    requires Stands(w, st0) && Climbed(st0, last, k) && k < 5
    ensures var t := Turnover(Ladder(), w, st0, last); t.Again? && Stands(t.w, t.st) && Climbed(t.st, t.last, k + 1)
  {
    assert st0.stepCount == k && st0.maxSteps == 5;
    hide Ladder, Rung, Lined, Turnover, Follow, NormalizePlan, Climbed;
    LadderSteady(w.clock, 6);
    NextRung(w.clock, st0, last, k);
    var u := PlanTimed(Ladder(), w, st0, last);
    var input := PlanInputOf(st0.(stepCount := st0.stepCount + 1), last);
    RungFollowed(u.w, u.st, last, NormalizePlan(Ladder().plan(w.clock, input).value, last), k);
  }

  lemma LadderSteady(from: nat, n: nat)
    ensures Steady(Ladder(), from, n)
  {}

  lemma RungFollowed(w: World, st: RunState, last: Option<ToolResult>, plan: Plan, k: nat)
    requires Stands(w, st) && st.stepCount == k + 1 && st.maxSteps == 5 && k < 5
    requires plan.decision == DecideTool && plan.proposal.Some? && plan.proposal.value.tool == Rung(k)
    ensures var t := Follow(Ladder(), w, st, last, plan); t.Again? && Stands(t.w, t.st) && Climbed(t.st, t.last, k + 1)
  {
    hide Ladder, RESULT, Lined, UseTool;
    RungUsed(w, st, plan.proposal.value);
  }

  /** After the fifth rung the budget is spent, and the run fails for that reason. */
  lemma {:induction false} LadderFails(w: World, st: RunState, last: Option<ToolResult>, k: nat)
    requires Stands(w, st) && Climbed(st, last, k)
    ensures var o := ContinueRun(Ladder(), w, st, last);
      o.w.run.Some? && o.w.run.value.status == Failed && exists act :: act in o.w.trace && DefaultBudget.Overrun(act)
    decreases 5 - k
  {
    hide Ladder, RESULT, Rung, Lined, Turnover, Abort;
    LadderIsReliable();
    if k == 5 {
      Outcomes.AbortStatus(Ladder(), w, st, MaxStepsExceeded);
      OverrunTold(w, st);
    } else {
      RungTurned(w, st, last, k);
      var t := Turnover(Ladder(), w, st, last);
      LadderFails(t.w, t.st, t.last, k + 1);
    }
  }

  lemma OverrunTold(w: World, st: RunState)
    requires Stands(w, st)
    ensures exists act :: act in Abort(Ladder(), w, st, MaxStepsExceeded).w.trace && DefaultBudget.Overrun(act)
  {
    hide Ladder, Lined, RecordStep, Transition, StoredState;
    LadderIsReliable();
    var cause := MaxStepsExceeded;
    var st1, body := st.(error := cause), EMPTY.(error := cause);
    StageTimed(Ladder(), w, st1, Finalize, StepFailed, body, Failed);
    var r := RecordStep(Ladder(), w, st1, Finalize, StepFailed, body);
    var t := Transition(Ladder(), r.w, r.st, Failed, r.step);
    LogIs(Ladder(), t.w, Plain(RunFailed).(cause := cause));
    var act := Logged(Plain(RunFailed).(cause := cause));
    assert Last(Abort(Ladder(), w, st, cause).w.trace) == act && DefaultBudget.Overrun(act);
  }

  lemma LadderIsHybrid()
    ensures DefaultBudget.Hybrid(Ladder(), READER, _ => "next")
  {
    ResultReads();
    hide PlanAfter, FirstExecutableStep, CloneMap;
  }

  lemma LadderOpens()
    ensures Steady(Ladder(), 1, 8) && Ladder().messageOk(3) && Ladder().context(4) == Some([])
  {}

  lemma LadderSession(setup: Setup)
    requires setup.clock == 1 && Budget(setup.configured) == 5
    ensures var w := Session(Ladder(), setup, []);
      w.run.Some? && w.run.value.status == Failed && exists act :: act in w.trace && DefaultBudget.Overrun(act)
  {
    hide Ladder, Lined, StartRun, ContinueRun, Session, DefaultBudget.Overrun;
    LadderOpens();
    var c := StartOpens(Ladder(), setup);
    LadderFails(c.w, c.st, None, 0);
    SessionSnoc(Ladder(), setup, [], Cancel);
  }

  /** Five planner calls are not enough: with this program's planner and a budget of five, a session in which
      nothing goes wrong fails because the budget is exceeded. */
  lemma FiveCallsAreTooFew()
    ensures DefaultBudget.Hybrid(Ladder(), READER, _ => "next") && Reliable(Ladder())
    ensures Fresh(SETUP.(configured := 5)) && Budget(5) == 5
    ensures var w := Session(Ladder(), SETUP.(configured := 5), []);
      w.run.Some? && w.run.value.status == Failed && exists act :: act in w.trace && DefaultBudget.Overrun(act)
  {
    hide Ladder, DefaultBudget.Hybrid, Reliable, Session, DefaultBudget.Overrun;
    LadderIsReliable();
    LadderIsHybrid();
    LadderSession(SETUP.(configured := 5));
  }
}
