/** How far a cancellation reaches (internal/agent/runtime.go): CancelRun rejects the pending approval in
    the volatile store only, and ignores whether its last save succeeds. */
module CancelDurability {
  import opened Base
  import opened Json
  import opened Types
  import opened Approvals
  import opened RunStates
  import opened Machine
  import opened History
  import opened Safety
  import RestartTransparency

  // ---------- the log's latest word on an approval ----------

  lemma InsertSilent(steps: seq<Step>, step: Step, id: Id)
    requires step.approval.None?
    ensures LatestApproval(InsertByIndex(steps, step), id) == LatestApproval(steps, id)
  {
    if steps == [] || steps[|steps| - 1].index <= step.index {
      assert (steps + [step])[..|steps|] == steps;
    } else {
      var front, last := steps[..|steps| - 1], steps[|steps| - 1];
      InsertSilent(front, step, id);
      var inserted := InsertByIndex(front, step);
      assert (inserted + [last])[..|inserted|] == inserted;
    }
  }

  /** A step that says nothing about approvals changes nothing that hydration can see. */
  lemma UpsertSilent(steps: seq<Step>, step: Step, id: Id)
    requires SortedByIndex(steps) && FreshIn(step.stepID, steps) && step.approval.None?
    ensures LatestApproval(Upsert(steps, step), id) == LatestApproval(steps, id)
  {
    PutFresh(steps, step);
    SortOfSorted(steps);
    assert (steps + [step])[..|steps|] == steps;
    InsertSilent(steps, step, id);
  }

  // ---------- when the process keeps running and the later writes succeed ----------

  /** From `from` on nothing crashes, and every write to the store succeeds except possibly the one at `lost`;
      the run log may lose anything. */
  ghost predicate Healthy(env: Env, from: nat, lost: nat)
  {
    && (forall t: nat :: t >= from ==> !env.crash(t))
    && (forall t: nat :: t >= from && t != lost ==> Acked(env, t))
  }

  /** The log has the approval of the paused run as pending, and its tool exists. */
  ghost predicate Answerable(env: Env, w: World, id: Id)
  {
    && !w.dead && w.run.Some? && w.run.value.status == PausedForApproval && w.run.value.approvalID == id
    && LatestApproval(w.steps, id).Some? && LatestApproval(w.steps, id).value.status == Pending
    && env.registered(LatestApproval(w.steps, id).value.proposal.tool)
  }

  lemma CancelStepRecorded(env: Env, w: World, st: RunState)
    requires Healthy(env, w.clock, w.clock + 2) && !w.dead
    ensures var r := RecordStep(env, w, st, CancelStep, StepCancelled, EMPTY);
      var t := Transition(env, r.w, r.st, Cancelled, r.step);
      && r.ok && !t.w.dead && t.w.clock == w.clock + 4
      && t.w.steps == Upsert(w.steps, StoredStep(env.red, Step(w.clock, st.runID, st.stepIndex + 1, CancelStep, StepCancelled, None, None, None, NoError)))
      && t.w.run.Some? && t.w.run.value.approvalID == st.approvalID
      && t.w.run.value.status == (if env.storeOk(w.clock + 2) then Cancelled else st.status)
  {
    hide Upsert, StoredStep, StoredState;
    assert Acked(env, w.clock) && Acked(env, w.clock + 1);
    var r := RecordStep(env, w, st, CancelStep, StepCancelled, EMPTY);
    StoredStateKeepsControl(env.red, r.st);
    StoredStateKeepsControl(env.red, Transition(env, r.w, r.st, Cancelled, r.step).st);
  }

  lemma CancelLeaves(env: Env, rid: Id, w: World, id: Id)
    requires Inv(rid, w) && Answerable(env, w, id) && Healthy(env, w.clock, w.clock + 2)
    ensures var c := CancelRun(env, w);
      && c.ok && !c.w.dead && c.w.clock == w.clock + 5 && c.w.run.Some?
      && c.w.run.value.status == (if env.storeOk(w.clock + 2) then Cancelled else PausedForApproval)
      && c.w.run.value.approvalID == id && LatestApproval(c.w.steps, id) == LatestApproval(w.steps, id)
  {
    hide Inv, Upsert, StoredState, StoredStep, LatestApproval, RecordStep, Transition;
    var st := w.run.value;
    var (w1, _) := if st.approvalID != NO_ID then ResolveApproval(w, st.approvalID, false, "run cancelled") else (w, None);
    assert w1.clock == w.clock && w1.steps == w.steps && !w1.dead;
    var step := Step(w.clock, st.runID, st.stepIndex + 1, CancelStep, StepCancelled, None, None, None, NoError);
    var stored := StoredStep(env.red, step);
    StoredKeeps(env.red, step);
    FreshStep(rid, w, stored);
    UpsertSilent(w.steps, stored, id);
    CancelStepRecorded(env, w1, st);
  }

  lemma StoredKeeps(red: Redactor, step: Step)
    ensures StoredStep(red, step).stepID == step.stepID && (step.approval.None? ==> StoredStep(red, step).approval.None?)
  {}

  lemma FreshStep(rid: Id, w: World, step: Step)
    requires Inv(rid, w) && step.stepID == w.clock
    ensures SortedByIndex(w.steps) && FreshIn(step.stepID, w.steps)
  {
    forall s | s in w.steps ensures s.stepID != step.stepID {
      assert StepSound(rid, w.clock, w.trace, s);
    }
  }

  ghost predicate Survives(env: Env, from: nat) { forall t: nat :: t >= from ==> !env.crash(t) }

  /** What RecordStep and Transition leave, by which of their writes succeed. */
  lemma RecordEnds(env: Env, w: World, st: RunState, kind: StepKind, status: StepStatus, body: Body)
    requires Survives(env, w.clock) && !w.dead
    ensures var r := RecordStep(env, w, st, kind, status, body);
      && r.ok == (Acked(env, w.clock) && Acked(env, w.clock + 1)) && !r.w.dead && r.w.approvals == w.approvals
      && (r.ok ==> r.w.clock == w.clock + 2)
      && r.w.run == (if Acked(env, w.clock) && env.storeOk(w.clock + 1) then Some(StoredState(env.red, r.st)) else w.run)
      && r.st.status == st.status && r.st.approvalID == st.approvalID && Survives(env, r.w.clock) && r.w.trace == w.trace
  {
    hide Upsert, StoredStep, StoredState;
  }

  lemma TransitionEnds(env: Env, w: World, st: RunState, status: RunStatus, step: Step)
    requires Survives(env, w.clock) && !w.dead
    ensures var t := Transition(env, w, st, status, step);
      && !t.w.dead && t.w.approvals == w.approvals && t.st.status == status && t.st.approvalID == st.approvalID
      && t.w.run == (if env.storeOk(w.clock) then Some(StoredState(env.red, t.st)) else w.run) && Survives(env, t.w.clock)
  {
    hide StoredState;
  }

  /** An approved, verified record of a registered tool runs. */
  lemma ApprovedExecutes(env: Env, w: World, id: Id)
    requires !w.dead && id in w.approvals && w.approvals[id].status == Approved && HashVerifies(w.approvals[id])
    requires env.registered(w.approvals[id].proposal.tool) && !env.crash(w.clock) && !env.crash(w.clock + 1)
    ensures Executions(ExecuteApproved(env, w, id).w.trace, id) > 0
  {
    var p := CloneRecord(w.approvals[id]).proposal.(input := CloneMap(CloneRecord(w.approvals[id]).snapshot));
    hide CloneMap, HashMap, Executions;
    var started := Log(env, w, OfTool(EventToolStarted, p));
    var t := Tick(env, started);
    var act := Executed(p.id, p.tool, CloneMap(p.input), id);
    var ran := Note(t, act);
    Counts(t.trace, act, id);
    assert ran.trace <= Execute(env, w, p, id).w.trace;
    Later(ran.trace, Execute(env, w, p, id).w.trace, id);
  }

  lemma Counts(trace: seq<Act>, act: Act, id: Id)
    requires act.Executed? && act.approval == id
    ensures Executions(trace + [act], id) > 0
  {
    AppendUnfolds(trace, act);
  }

  lemma Later(before: seq<Act>, after: seq<Act>, id: Id)
    requires before <= after
    ensures Executions(before, id) <= Executions(after, id)
  {
    ExecutionsMonotone(after, |before|, id);
    assert after[..|before|] == before;
  }

  /** Approving a pending, verified approval of a registered tool executes it as soon as the step that carries the
      verdict and the state beside it are written. */
  lemma ApproveExecutes(env: Env, w: World, st: RunState, approval: Record)
    requires Survives(env, w.clock) && Acked(env, w.clock) && Acked(env, w.clock + 1) && !w.dead
    requires approval.id in w.approvals && w.approvals[approval.id].status == Pending && HashVerifies(w.approvals[approval.id])
    requires env.registered(w.approvals[approval.id].proposal.tool)
    ensures Executions(ApprovePaused(env, w, st, approval).w.trace, approval.id) > 0
  {
    hide RecordStep, Transition, ExecuteApproved, AfterFailure, AfterSuccess, HashMap, CloneMap, Executions, StoredState, Survives, Acked, Log;
    var id := approval.id;
    var (w1, approved) := ResolveApproval(w, id, true, "");
    var body := ApprovalBody(approved.value);
    RecordEnds(env, w1, st, RequestApproval, StepCompleted, body);
    var r := RecordStep(env, w1, st, RequestApproval, StepCompleted, body);
    TransitionEnds(env, r.w, r.st, ApprovalApproved, r.step);
    var t := Transition(env, r.w, r.st, ApprovalApproved, r.step);
    LogEnds(env, t.w, OfApproval(EventApprovalApproved, id));
    var said := Log(env, t.w, OfApproval(EventApprovalApproved, id));
    TransitionEnds(env, said, t.st, ToolExecuting, r.step);
    var u := Transition(env, said, t.st, ToolExecuting, r.step);
    SurvivesOn(env, u.w.clock);
    ApprovedExecutes(env, u.w, id);
    RunGrows(env, u.w, u.st, approval, approved.value);
    Later(ExecuteApproved(env, u.w, id).w.trace, RunApproved(env, u.w, u.st, approval, approved.value).w.trace, id);
  }

  lemma LogEnds(env: Env, w: World, e: Event)
    requires Survives(env, w.clock) && !w.dead
    ensures var after := Log(env, w, e); !after.dead && after.approvals == w.approvals && after.run == w.run && Survives(env, after.clock)
  {}

  lemma SurvivesOn(env: Env, from: nat)
    requires Survives(env, from)
    ensures !env.crash(from) && !env.crash(from + 1)
  {}

  lemma RunGrows(env: Env, w: World, st: RunState, approval: Record, approved: Record)
    ensures Grew(ExecuteApproved(env, w, approval.id).w, RunApproved(env, w, st, approval, approved).w)
  {
    hide ExecuteApproved, AfterFailure, AfterSuccess, ExecuteBody;
  }

  // ---------- the theorems ----------

  /** What was never used and is not settled in the log has not been executed. */
  lemma PendingIsUnused(rid: Id, w: World, id: Id)
    requires Inv(rid, w) && id != NO_ID && LatestApproval(w.steps, id).Some? && LatestApproval(w.steps, id).value.status == Pending
    ensures Executions(w.trace, id) == 0
  {
    LatestSound(rid, w.clock, w.trace, w.steps, id);
  }

  /** What the cancellation rejected in this process, this process will not approve. */
  lemma RejectionHolds(env: Env, rid: Id, w: World, id: Id)
    requires Inv(rid, w) && id != NO_ID && Answerable(env, w, id) && id in w.approvals
    requires var c := CancelRun(env, w).w; !c.dead && c.run.Some?
    ensures var c := CancelRun(env, w).w; Executions(ResumeRun(env, c, rid, id, true).w.trace, id) == Executions(c.trace, id)
  {
    hide Inv, LatestApproval, CancelRun, ResumeRun, Executions;
    RestartTransparency.LogMatchesStore(rid, w, id);
    CancelRejects(env, rid, w, id);
    SettledStays(env, rid, CancelRun(env, w).w, id);
  }

  lemma ExecutesOnce(env: Env, rid: Id, w: World, id: Id, from: nat, lost: nat)
    requires Inv(rid, w) && id != NO_ID && Answerable(env, w, id) && id !in w.approvals
    requires Healthy(env, from, lost) && from <= w.clock && lost < w.clock
    ensures Executions(ResumeRun(env, w, rid, id, true).w.trace, id) == 1
  {
    hide Inv, Answerable, Healthy, ResumeRun, Executions;
    ResumedExecutes(env, rid, w, id, from, lost);
    ResumeKeeps(env, rid, w, id, true);
    AtMostOne(rid, ResumeRun(env, w, rid, id, true).w, id);
  }

  /** CancelRun reports success in both cases below. A run cancelled while paused is safe from a later
      approval by a new process if and only if the last, unchecked save of the cancellation succeeded. */
  lemma CancelIsDurableExactly(env: Env, rid: Id, w: World, id: Id)
    requires Inv(rid, w) && id != NO_ID && Answerable(env, w, id) && Healthy(env, w.clock, w.clock + 2)
    ensures var c := CancelRun(env, w);
      && c.ok
      && Executions(ResumeRun(env, Restart(c.w), rid, id, true).w.trace, id) == (if env.storeOk(w.clock + 2) then 0 else 1)
  {
    hide CancelRun, ResumeRun, Executions, LatestApproval, Inv;
    var c := CancelRun(env, w);
    CancelLeaves(env, rid, w, id);
    CancelKeeps(env, rid, w);
    RestartKeeps(rid, c.w);
    var back := Restart(c.w);
    PendingIsUnused(rid, back, id);
    if env.storeOk(w.clock + 2) {
      Refused(env, rid, back, id);
    } else {
      ExecutesOnce(env, rid, back, id, w.clock, w.clock + 2);
    }
  }

  lemma AtMostOne(rid: Id, w: World, id: Id)
    requires Inv(rid, w) && id != NO_ID
    ensures Executions(w.trace, id) <= 1
  {}

  lemma Refused(env: Env, rid: Id, w: World, id: Id)
    requires w.run.Some? && w.run.value.status == Cancelled
    ensures ResumeRun(env, w, rid, id, true).w == w
  {
    hide HydrateApproval, ApprovePaused;
  }

  lemma ResumedExecutes(env: Env, rid: Id, w: World, id: Id, from: nat, lost: nat)
    requires Inv(rid, w) && Answerable(env, w, id) && id !in w.approvals
    requires Healthy(env, from, lost) && from <= w.clock && lost < w.clock
    ensures Executions(ResumeRun(env, w, rid, id, true).w.trace, id) > 0
  {
    RestartTransparency.LogMatchesStore(rid, w, id);
    var (h, approval) := HydrateApproval(w, id);
    ApproveExecutes(env, h, w.run.value, approval.value);
    hide Inv, ApprovePaused, Executions, LatestApproval, CloneMap, HashMap;
  }

  /** Without a restart in between, a later approval in the same process is refused if and only if the last save
      of the cancellation succeeded or the store had the approval when the run was cancelled: a process that has
      restarted and not yet rebuilt the approval from the log has nothing to reject. */
  lemma CancelHoldsInProcessExactly(env: Env, rid: Id, w: World, id: Id)
    requires Inv(rid, w) && id != NO_ID && Answerable(env, w, id) && Healthy(env, w.clock, w.clock + 2)
    ensures var c := CancelRun(env, w);
      && c.ok
      && Executions(ResumeRun(env, c.w, rid, id, true).w.trace, id) == (if env.storeOk(w.clock + 2) || id in w.approvals then 0 else 1)
  {
    hide CancelRun, ResumeRun, Executions, LatestApproval, Inv;
    var c := CancelRun(env, w);
    CancelLeaves(env, rid, w, id);
    CancelKeeps(env, rid, w);
    PendingIsUnused(rid, c.w, id);
    if env.storeOk(w.clock + 2) {
      Refused(env, rid, c.w, id);
    } else if id in w.approvals {
      RejectionHolds(env, rid, w, id);
    } else {
      CancelMisses(env, w, id);
      ExecutesOnce(env, rid, c.w, id, w.clock, w.clock + 2);
    }
  }

  /** What the store does not have cannot be rejected there. */
  lemma CancelMisses(env: Env, w: World, id: Id)
    requires !w.dead && w.run.Some? && !Terminal(w.run.value.status) && w.run.value.approvalID == id != NO_ID && id !in w.approvals
    ensures id !in CancelRun(env, w).w.approvals
  {
    CancelStores(env, w);
    hide CancelRun;
  }

  /** Resuming on an approval that the store has settled executes nothing. */
  lemma SettledStays(env: Env, rid: Id, w: World, id: Id)
    requires !w.dead && w.run.Some? && id in w.approvals && w.approvals[id].status != Pending && w.approvals[id].id == id
    ensures Executions(ResumeRun(env, w, rid, id, true).w.trace, id) == Executions(w.trace, id)
  {
    hide Executions, Abort, ApprovePaused;
    var approval := CloneRecord(w.approvals[id]);
    if w.run.value.approvalID == id {
      RestartTransparency.SettledStore(env, w, w.run.value, approval, true);
      var after := Abort(env, w, w.run.value, ResolveFailed).w;
      assert Grew(w, after);
      OnlyLogged(w.trace, after.trace, id);
    }
  }

  lemma {:induction false} OnlyLogged(before: seq<Act>, after: seq<Act>, id: Id)
    requires before <= after && forall k :: |before| <= k < |after| ==> RestartTransparency.Telling(after[k])
    ensures Executions(after, id) == Executions(before, id)
  {
    if |after| > |before| {
      OnlyLogged(before, Init(after), id);
    } else {
      assert after == before;
    }
  }

  lemma ResolvedRunsNothing(trace: seq<Act>, id: Id)
    ensures Executions(trace + [ResolvedAs(id, true)], id) == Executions(trace, id)
  {
    AppendUnfolds(trace, ResolvedAs(id, true));
  }

  lemma CancelRejects(env: Env, rid: Id, w: World, id: Id)
    requires Inv(rid, w) && !w.dead && id != NO_ID && w.run.Some? && w.run.value.approvalID == id && !Terminal(w.run.value.status)
    requires id in w.approvals && w.approvals[id].runID == rid
    ensures var c := CancelRun(env, w);
      id in c.w.approvals && c.w.approvals[id].status != Pending && c.w.approvals[id].runID == rid && c.w.approvals[id].id == id
  {
    CenterIs(rid, w, id);
    CancelStores(env, w);
    hide Inv, CancelRun, CloneMap;
  }

  /** All that a cancellation does to the store is to reject the approval waited for. */
  lemma CancelStores(env: Env, w: World)
    requires !w.dead && w.run.Some? && !Terminal(w.run.value.status) && w.run.value.approvalID != NO_ID
    ensures CancelRun(env, w).w.approvals == ResolveApproval(w, w.run.value.approvalID, false, "run cancelled").0.approvals
  {
    hide RecordStep, Transition, Log, ResolveApproval;
    var st := w.run.value;
    var (w1, _) := ResolveApproval(w, st.approvalID, false, "run cancelled");
    RestartTransparency.StageApprovals(env, w1, st, CancelStep, StepCancelled, EMPTY, Cancelled);
    var r := RecordStep(env, w1, st, CancelStep, StepCancelled, EMPTY);
    LogApprovals(env, Transition(env, r.w, r.st, Cancelled, r.step).w, Plain(RunCancelled));
  }

  lemma LogApprovals(env: Env, w: World, e: Event)
    ensures Log(env, w, e).approvals == w.approvals
  {}
}
