/** A verdict in the durable log is final: whatever happens afterwards, in this process or in another, the approval
    is never executed again. And what a stored pause is still good for, after any crashes
    (internal/agent/runtime.go, internal/agent/approval.go). */
module Finality {
  import opened Base
  import opened Json
  import opened Types
  import opened Approvals
  import opened RunStates
  import opened Machine
  import opened History
  import opened Projections
  import opened EventLog
  import CancelDurability
  import PauseRecords
  import RestartTransparency
  import Safety
  import SoloCallers

  /** While the log holds a verdict on an approval, hydration finds nothing that could be resolved. */
  lemma NothingToSettle(rid: Id, w: World, id: Id)
    requires Safety.Inv(rid, w) && Safety.SettledInLog(w.steps, id) && !w.dead
    requires var (_, found) := HydrateApproval(w, id); found.Some? && found.value.runID == rid
    ensures !Settleable(HydrateApproval(w, id).0, id)
  {
    hide CreatedIn, ApprovedIn, Executions, Mediated, Safety.SettledInLog, Safety.LogSays, Safety.LogSound;
    if id in w.approvals {
      assert Safety.RecordSound(w, id);
    } else {
      Safety.LatestSound(rid, w.clock, w.trace, w.steps, id);
    }
  }

  /** One call, with the verdict in the log, does not use the approval. */
  lemma CallSpares(env: Env, rid: Id, w: World, call: Call, id: Id)
    requires Safety.Inv(rid, w) && Even(env, LedgerOf(w), 0) && Safety.SettledInLog(w.steps, id)
    ensures multiset(LedgerOf(Apply(env, rid, w, call)).used)[id] == multiset(LedgerOf(w).used)[id]
  {
    hide LedgerOf, Safety.Inv, Safety.SettledInLog, Even, ResumeRun, CancelRun, Restart, HydrateApproval;
    match call
    case Cancel => CancelSame(env, w);
    case Reboot => RestartSame(w);
    case Resume(asked, approve) =>
      ResumeEnters(env, rid, w, asked, approve);
      if asked == id {
        ResumeSpares(env, rid, w, id, approve);
      }
  }

  lemma ResumeSpares(env: Env, rid: Id, w: World, id: Id, approve: bool)
    requires Safety.Inv(rid, w) && Even(env, LedgerOf(w), 0) && Safety.SettledInLog(w.steps, id)
    ensures LedgerOf(ResumeRun(env, w, rid, id, approve).w).used == LedgerOf(w).used
  {
    hide LedgerOf, Safety.Inv, Safety.SettledInLog, Even, ApprovePaused, RejectPaused, HydrateApproval;
    ResumeEnters(env, rid, w, id, approve);
    var (h, found) := HydrateApproval(w, id);
    if !w.dead && found.Some? && found.value.runID == rid {
      NothingToSettle(rid, w, id);
    } else {
      HydrateSame(w, id);
    }
  }

  lemma {:induction false} CallsSpare(env: Env, rid: Id, w: World, more: seq<Call>, id: Id)
    requires Safety.Inv(rid, w) && Even(env, LedgerOf(w), 0) && PauseRecords.Resumable(w.steps, w) && Safety.SettledInLog(w.steps, id)
    ensures multiset(LedgerOf(ApplyAll(env, rid, w, more)).used)[id] == multiset(LedgerOf(w).used)[id]
  {
    hide LedgerOf, Safety.Inv, Safety.SettledInLog, Even, Apply, PauseRecords.Resumable;
    if more != [] {
      var front := more[..|more| - 1];
      CallsSpare(env, rid, w, front, id);
      CallsEnter(env, rid, w, front);
      Safety.CallsKeep(env, rid, w, front);
      PauseRecords.CallsResumable(w.steps, env, rid, w, front);
      var before := ApplyAll(env, rid, w, front);
      PauseRecords.Based(w.steps, before);
      Safety.SettledGrows(w.steps, before.steps, id);
      CallSpares(env, rid, before, more[|more| - 1], id);
    }
  }

  /** In every session: once the durable log holds a verdict on an approval, no later calls execute it, by this
      process or after any number of crashes and restarts. So an approval is executed, if at all, by the very call
      that approved it; a process that died between storing the verdict and executing leaves it unexecuted for
      good. */
  lemma VerdictIsFinal(env: Env, setup: Setup, calls: seq<Call>, more: seq<Call>, id: Id)
    requires Fresh(setup) && id != NO_ID && Safety.SettledInLog(Session(env, setup, calls).steps, id)
    ensures Executions(Session(env, setup, calls + more).trace, id) == Executions(Session(env, setup, calls).trace, id)
  {
    var rid, w := setup.rid, Session(env, setup, calls);
    var begun := StartRun(env, Genesis(setup), rid, setup.message, setup.configured).w;
    PauseRecords.SessionIs(env, setup, calls);
    PauseRecords.SessionIs(env, setup, calls + more);
    hide Session, StartRun, ApplyAll, Safety.Inv, Even, LedgerOf, PauseRecords.Resumable, Safety.SettledInLog, Executions;
    PauseRecords.ApplyAppend(env, rid, begun, calls, more);
    Safety.SessionKeeps(env, setup, calls);
    SessionEnters(env, setup, calls);
    PauseRecords.Started(env, setup);
    PauseRecords.CallsResumable([], env, rid, begun, calls);
    PauseRecords.Rebased([], w);
    CallsSpare(env, rid, w, more, id);
    UsedCounts(w, id);
    UsedCounts(Session(env, setup, calls + more), id);
  }

  lemma UsedCounts(w: World, id: Id)
    requires id != NO_ID
    ensures Executions(w.trace, id) == multiset(LedgerOf(w).used)[id]
  {
    RunsSplit(w.trace);
  }

  // ---------- what a stored pause is still good for ----------

  /** No verdict on the approval is recorded, in the log or in the store of the living process. */
  ghost predicate Undecided(w: World, id: Id)
  {
    !Safety.SettledInLog(w.steps, id) && (id in w.approvals ==> w.approvals[id].status == Pending)
  }

  /** The last record the log lists is pending exactly when the log holds no verdict. */
  lemma LatestDecides(rid: Id, w: World, id: Id)
    requires Safety.Inv(rid, w) && LatestApproval(w.steps, id).Some?
    ensures LatestApproval(w.steps, id).value.status == Pending <==> !Safety.SettledInLog(w.steps, id)
  {
    hide CreatedIn, ApprovedIn, Executions, Mediated, CloneMap;
    Safety.LatestSound(rid, w.clock, w.trace, w.steps, id);
    var k := Safety.LatestAt(w.steps, id);
    assert w.steps[k] in w.steps;
  }

  lemma StoreMatchesLog(rid: Id, w: World, id: Id)
    requires Safety.Inv(rid, w) && id in w.approvals && w.approvals[id].runID == rid && LatestApproval(w.steps, id).Some?
    ensures w.approvals[id].status == Pending ==> !Safety.SettledInLog(w.steps, id)
    ensures w.approvals[id].proposal.tool == LatestApproval(w.steps, id).value.proposal.tool
  {
    hide CreatedIn, ApprovedIn, Executions, Mediated, CloneMap, Safety.SettledInLog, Safety.LogSays, Safety.LogSound, LatestApproval;
    Safety.LatestSound(rid, w.clock, w.trace, w.steps, id);
    assert Safety.RecordSound(w, id);
  }

  /** Hydration finds something to resolve exactly when nothing is decided. */
  lemma HydratesPending(rid: Id, w: World, id: Id)
    requires Safety.Inv(rid, w) && !w.dead && LatestApproval(w.steps, id).Some?
    ensures var (h, found) := HydrateApproval(w, id);
      && found.Some? && found.value.runID == rid && id in h.approvals
      && h.approvals[id].proposal.tool == LatestApproval(w.steps, id).value.proposal.tool
      && (SoloCallers.PendingIn(h.approvals, id) <==> Undecided(w, id))
  {
    hide Safety.Inv, Safety.SettledInLog, CloneMap, HashMap, HydrateApproval, LatestApproval;
    RestartTransparency.LogMatchesStore(rid, w, id);
    RestartTransparency.Hydrated(w, id);
    LatestDecides(rid, w, id);
    if id in w.approvals {
      StoreMatchesLog(rid, w, id);
    }
  }

  /** What approving a stored pause does, whatever crashes, restarts and lost writes led to it, if the process now
      lives: the call is executed once more, and then for the only time, exactly when no verdict is recorded
      anywhere and the two writes of the new one are reported as done. */
  lemma PauseRunsExactly(env: Env, setup: Setup, calls: seq<Call>)
    requires Fresh(setup)
    requires var w := Session(env, setup, calls);
      !w.dead && w.run.Some? && w.run.value.status == PausedForApproval && CancelDurability.Survives(env, w.clock)
    requires var w := Session(env, setup, calls); var found := LatestApproval(w.steps, w.run.value.approvalID);
      found.Some? && env.registered(found.value.proposal.tool)
    ensures var w := Session(env, setup, calls); var id := w.run.value.approvalID;
      Executions(ResumeRun(env, w, setup.rid, id, true).w.trace, id)
      == Executions(w.trace, id) + if Undecided(w, id) && Acked(env, w.clock) && Acked(env, w.clock + 1) then 1 else 0
    ensures var w := Session(env, setup, calls); var id := w.run.value.approvalID;
      Undecided(w, id) ==> Executions(w.trace, id) == 0
  {
    hide Session, Safety.Inv, ResumeRun, HydrateApproval, LatestApproval, Undecided, Executions, SoloCallers.PendingIn;
    var rid, w := setup.rid, Session(env, setup, calls);
    Safety.SessionKeeps(env, setup, calls);
    PauseRecords.PausedHasRecord(env, setup, calls);
    HydratesPending(rid, w, w.run.value.approvalID);
    SoloCallers.HydratedVerifies(rid, w, w.run.value.approvalID);
    SoloCallers.ApproveRuns(env, rid, w, w.run.value.approvalID);
  }
}
