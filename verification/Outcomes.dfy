/** What answering a pause leads to when nothing crashes and no write is lost: an approval executes the tool
    once, a rejection and a cancellation execute nothing, ever (internal/agent/runtime.go). */
module Outcomes {
  import opened Base
  import opened Json
  import opened Types
  import opened Approvals
  import opened RunStates
  import opened Machine
  import opened History
  import opened Projections
  import opened Conformance
  import opened EventLog
  import Safety
  import Lifecycle
  import RestartTransparency
  import CancelDurability

  lemma LastIsLatest(rid: Id, max: nat, w: World)
    requires AtRest(rid, max, w) && w.run.value.status == PausedForApproval
    ensures var id := w.run.value.approvalID; var r := LatestApproval(w.steps, id);
      !w.dead && w.clock > 0 && r.Some? && r.value.status == Pending && (id in w.approvals ==> CloneRecord(w.approvals[id]) == r.value)
  {
    hide Fair, Lined, HashVerifies, CloneMap;
    assert LatestApproval(w.steps, w.run.value.approvalID) == Last(w.steps).approval;
  }

  lemma RestAnswers(rid: Id, max: nat, w: World)
    requires AtRest(rid, max, w) && w.run.value.status == PausedForApproval && Safety.Inv(rid, w)
    ensures var id := w.run.value.approvalID; var (h, r) := HydrateApproval(w, id);
      && id != NO_ID && !w.dead && w.clock > 0 && !h.dead && h.clock == w.clock && h.trace == w.trace
      && LatestApproval(w.steps, id).Some? && LatestApproval(w.steps, id).value.status == Pending
      && r.Some? && r.value.id == id && r.value.runID == rid
      && id in h.approvals && h.approvals[id].status == Pending && HashVerifies(h.approvals[id]) && h.approvals[id].runID == rid
      && h.approvals[id].proposal.tool == LatestApproval(w.steps, id).value.proposal.tool
  {
    LastIsLatest(rid, max, w);
    RestartTransparency.LogMatchesStore(rid, w, w.run.value.approvalID);
    hide AtRest, Safety.Inv, LatestApproval, CloneMap, HashMap;
  }

  /** The paused run's approval, as any session without crashes leaves it, can be resolved. */
  lemma PauseIsAnswerable(env: Env, setup: Setup, calls: seq<Call>)
    requires Reliable(env) && Fresh(setup)
    requires var w := Session(env, setup, calls); w.run.Some? && w.run.value.status == PausedForApproval
    ensures var w := Session(env, setup, calls); var id := w.run.value.approvalID; var (h, r) := HydrateApproval(w, id);
      && id != NO_ID && !w.dead && w.clock > 0 && !h.dead && h.clock == w.clock && h.trace == w.trace
      && LatestApproval(w.steps, id).Some? && LatestApproval(w.steps, id).value.status == Pending
      && r.Some? && r.value.id == id && r.value.runID == setup.rid
      && id in h.approvals && h.approvals[id].status == Pending && HashVerifies(h.approvals[id]) && h.approvals[id].runID == setup.rid
      && h.approvals[id].proposal.tool == LatestApproval(w.steps, id).value.proposal.tool
  {
    var w := Session(env, setup, calls);
    hide Session, AtRest, Safety.Inv, HydrateApproval, LatestApproval, HashVerifies;
    SessionRests(env, setup, calls);
    Safety.SessionKeeps(env, setup, calls);
    RestAnswers(setup.rid, Budget(setup.configured), w);
  }

  /** Approving a pause executes its tool exactly once, if the tool exists. */
  lemma ApprovalExecutesOnce(env: Env, setup: Setup, calls: seq<Call>)
    requires Reliable(env) && Fresh(setup)
    requires var w := Session(env, setup, calls); w.run.Some? && w.run.value.status == PausedForApproval
    requires var w := Session(env, setup, calls); var found := LatestApproval(w.steps, w.run.value.approvalID);
      found.Some? && env.registered(found.value.proposal.tool)
    ensures var w := Session(env, setup, calls); var id := w.run.value.approvalID;
      && Executions(w.trace, id) == 0
      && Executions(ResumeRun(env, w, setup.rid, id, true).w.trace, id) == 1
  {
    PauseIsAnswerable(env, setup, calls);
    Safety.SessionKeeps(env, setup, calls);
    var w := Session(env, setup, calls);
    hide Session, Safety.Inv, LatestApproval, HydrateApproval, ResumeRun, HashVerifies, Executions, Reliable;
    var id := w.run.value.approvalID;
    CancelDurability.PendingIsUnused(setup.rid, w, id);
    ApprovedFrom(env, setup.rid, w, id);
    Safety.ResumeKeeps(env, setup.rid, w, id, true);
    CancelDurability.AtMostOne(setup.rid, ResumeRun(env, w, setup.rid, id, true).w, id);
  }

  lemma ApprovedFrom(env: Env, rid: Id, w: World, id: Id)
    requires Reliable(env) && !w.dead && w.clock > 0
    requires w.run.Some? && w.run.value.status == PausedForApproval && w.run.value.approvalID == id
    requires var (h, r) := HydrateApproval(w, id);
      && !h.dead && h.clock == w.clock && r.Some? && r.value.id == id && r.value.runID == rid
      && id in h.approvals && h.approvals[id].status == Pending && HashVerifies(h.approvals[id]) && env.registered(h.approvals[id].proposal.tool)
    ensures Executions(ResumeRun(env, w, rid, id, true).w.trace, id) > 0
  {
    hide HydrateApproval, ApprovePaused, HashVerifies, Executions;
    var (h, approval) := HydrateApproval(w, id);
    CancelDurability.ApproveExecutes(env, h, w.run.value, approval.value);
  }

  // ---------- where the run ends ----------

  lemma AbortStatus(env: Env, w: World, st: RunState, cause: Cause)
    requires Reliable(env) && Stands(w, st)
    ensures var o := Abort(env, w, st, cause); o.w.run.Some? && o.w.run.value.status == Failed
  {
    hide RecordStep, Transition, TallyOf, StoredState, Lined;
    var st1, body := st.(error := cause), EMPTY.(error := cause);
    StageRuns(env, w, st1, Finalize, StepFailed, body, Failed);
    var r := RecordStep(env, w, st1, Finalize, StepFailed, body);
    StoredStateKeepsControl(env.red, Transition(env, r.w, r.st, Failed, r.step).st);
  }

  lemma AssistantStands(env: Env, w: World, st: RunState)
    requires Reliable(env) && Stands(w, st)
    ensures Stands(PersistAssistant(env, w).w, st)
  {
    LinedLater(w.steps, w.clock, PersistAssistant(env, w).w.clock);
    hide Lined;
  }

  lemma LogStands(env: Env, w: World, st: RunState, e: Event)
    requires Reliable(env) && Stands(w, st)
    ensures Stands(Log(env, w, e), st) && Log(env, w, e).run == w.run
  {
    LinedLater(w.steps, w.clock, Log(env, w, e).clock);
    hide Lined;
  }

  lemma CloseStatus(env: Env, w: World, st: RunState)
    requires Reliable(env) && Stands(w, st)
    ensures var o := CloseRejected(env, w, st);
      o.w.run.Some? && o.w.run.value.status == if o.ok then ApprovalRejected else Failed
  {
    hide RecordStep, Transition, TallyOf, StoredState, Lined, Abort, PersistAssistant;
    StageRuns(env, w, st, Summarize, StepCompleted, EMPTY, Summarizing);
    var s := RecordStep(env, w, st, Summarize, StepCompleted, EMPTY);
    var u := Transition(env, s.w, s.st, Summarizing, s.step);
    AssistantStands(env, u.w, u.st);
    var m := PersistAssistant(env, u.w);
    AbortStatus(env, m.w, u.st, MessageFailed);
    AbortFails(env, m.w, u.st, MessageFailed);
    StageRuns(env, m.w, u.st, Finalize, StepCompleted, EMPTY, ApprovalRejected);
    var f := RecordStep(env, m.w, u.st, Finalize, StepCompleted, EMPTY);
    StoredStateKeepsControl(env.red, Transition(env, f.w, f.st, ApprovalRejected, f.step).st);
  }

  lemma AbortFails(env: Env, w: World, st: RunState, cause: Cause)
    ensures !Abort(env, w, st, cause).ok
  {
    hide Fail;
  }

  lemma RejectStatus(env: Env, w: World, st: RunState, id: Id)
    requires Reliable(env) && Stands(w, st) && id in w.approvals && w.approvals[id].status == Pending
    ensures var o := RejectPaused(env, w, st, id);
      o.w.run.Some? && o.w.run.value.status == if o.ok then ApprovalRejected else Failed
  {
    hide RecordStep, Transition, TallyOf, StoredState, Lined, Abort, CloseRejected, ApprovalBody, CloneRecord;
    var (w1, rejected) := ResolveApproval(w, id, false, "rejected from workflow");
    assert rejected.Some? && Stands(w1, st);
    var body := ApprovalBody(rejected.value);
    StageRuns(env, w1, st, RequestApproval, StepCancelled, body, ApprovalRejected);
    var r := RecordStep(env, w1, st, RequestApproval, StepCancelled, body);
    var t := Transition(env, r.w, r.st, ApprovalRejected, r.step);
    LogStands(env, t.w, t.st, OfApproval(EventApprovalRejected, id));
    CloseStatus(env, Log(env, t.w, OfApproval(EventApprovalRejected, id)), t.st);
  }

  lemma RejectedFrom(env: Env, rid: Id, w: World, id: Id)
    requires Reliable(env) && w.run.Some? && w.run.value.status == PausedForApproval && w.run.value.approvalID == id && Stands(w, w.run.value)
    requires var (h, r) := HydrateApproval(w, id);
      r.Some? && r.value.runID == rid && id in h.approvals && h.approvals[id].status == Pending
    ensures var o := ResumeRun(env, w, rid, id, false);
      && Same(w, o.w) && o.w.run.Some? && o.w.run.value.status == if o.ok then ApprovalRejected else Failed
  {
    hide LatestApproval, HydrateApproval, RejectPaused, Lined, TallyOf, LedgerOf, CloneRecord;
    HydratedStands(w, w.run.value, id);
    var (h, approval) := HydrateApproval(w, id);
    RejectStatus(env, h, w.run.value, id);
    RejectSame(env, h, w.run.value, id);
    HydrateSame(w, id);
  }

  /** Rejecting a pause executes nothing and asks the planner nothing. The run ends rejected; only when the
      closing message cannot be stored does it end failed, and the call says so. */
  lemma RejectionRunsNothing(env: Env, setup: Setup, calls: seq<Call>)
    requires Reliable(env) && Fresh(setup)
    requires var w := Session(env, setup, calls); w.run.Some? && w.run.value.status == PausedForApproval
    ensures var w := Session(env, setup, calls); var o := ResumeRun(env, w, setup.rid, w.run.value.approvalID, false);
      && ExecutorCalls(o.w.trace) == ExecutorCalls(w.trace) && PlannerCalls(o.w.trace) == PlannerCalls(w.trace)
      && o.w.run.Some? && o.w.run.value.status == if o.ok then ApprovalRejected else Failed
  {
    PauseIsAnswerable(env, setup, calls);
    SessionRests(env, setup, calls);
    var w := Session(env, setup, calls);
    hide Session, LatestApproval, HydrateApproval, ResumeRun, HashVerifies, Fair, Lined, Awaits, TallyOf, Same;
    RejectedFrom(env, setup.rid, w, w.run.value.approvalID);
    SameCalls(w, ResumeRun(env, w, setup.rid, w.run.value.approvalID, false).w);
  }

  lemma HydratedStands(w: World, st: RunState, id: Id)
    requires Stands(w, st)
    ensures Stands(HydrateApproval(w, id).0, st)
  {
    hide Lined, LatestApproval, CloneRecord;
  }

  lemma SameCalls(a: World, b: World)
    requires Same(a, b)
    ensures ExecutorCalls(b.trace) == ExecutorCalls(a.trace) && PlannerCalls(b.trace) == PlannerCalls(a.trace)
  {
    RunsSplit(a.trace);
    RunsSplit(b.trace);
  }

  /** Cancelling is final: whatever is called afterwards, the run stays cancelled, and nothing more is
      planned or executed. */
  lemma CancellationIsFinal(env: Env, setup: Setup, calls: seq<Call>, more: seq<Call>)
    requires Reliable(env) && Fresh(setup)
    requires var w := Session(env, setup, calls); w.run.Some? && !Terminal(w.run.value.status)
    ensures var w := Session(env, setup, calls); var c := CancelRun(env, w); var after := ApplyAll(env, setup.rid, c.w, more);
      && c.ok && after.run.Some? && after.run.value.status == Cancelled
      && ExecutorCalls(after.trace) == ExecutorCalls(w.trace) && PlannerCalls(after.trace) == PlannerCalls(w.trace)
  {
    SessionRests(env, setup, calls);
    var w := Session(env, setup, calls);
    hide Session, Fair, Lined, Awaits, LedgerOf, TallyOf, ApplyAll;
    CancelStatus(env, w);
    CancelSame(env, w);
    hide CancelRun;
    var c := CancelRun(env, w);
    SameCalls(w, c.w);
    Lifecycle.TerminalIsAbsorbing(env, setup.rid, c.w, more);
    TallyCalls(c.w.trace, ApplyAll(env, setup.rid, c.w, more).trace);
  }

  lemma TallyCalls(a: seq<Act>, b: seq<Act>)
    requires TallyOf(a) == TallyOf(b)
    ensures ExecutorCalls(a) == ExecutorCalls(b) && PlannerCalls(a) == PlannerCalls(b)
  {}

  lemma CancelStatus(env: Env, w: World)
    requires Reliable(env) && w.run.Some? && !Terminal(w.run.value.status) && Stands(w, w.run.value)
    ensures var c := CancelRun(env, w); c.ok && c.w.run.Some? && c.w.run.value.status == Cancelled
  {
    var st := w.run.value;
    var (w1, _) := if st.approvalID != NO_ID then ResolveApproval(w, st.approvalID, false, "run cancelled") else (w, None);
    hide Reliable, RecordStep, Transition, TallyOf, Lined, ResolveApproval, StoredState, Log;
    ResolveStands(w, st, st.approvalID, false, "run cancelled");
    StageRuns(env, w1, st, CancelStep, StepCancelled, EMPTY, Cancelled);
    StoredStateKeepsControl(env.red, CancelRun(env, w).st);
  }
}
