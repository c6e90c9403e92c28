/** A caller of module Interleaving that nobody interrupts does what the call of module Machine does: to the
    approval store, to the run's status, to the verdict and to the executions, whichever writes fail or are
    reported as failed. */
module SoloCallers {
  import opened Base
  import opened Json
  import opened Types
  import opened Approvals
  import opened RunStates
  import opened Machine
  import opened History
  import I = Interleaving
  import Safety
  import RestartTransparency
  import opened CancelDurability

  // ---------- what a caller sees of a world ----------

  /** The records the step log carries, in its order. */
  function Carried(steps: seq<Step>): seq<Record>
  {
    if steps == [] then []
    else
      var last := steps[|steps| - 1];
      Carried(steps[..|steps| - 1]) + if last.approval.Some? then [last.approval.value] else []
  }

  function Seen(w: World): I.Shared
    requires w.run.Some?
  {
    I.Shared(w.run.value.status, w.run.value.approvalID, w.approvals, Carried(w.steps), [])
  }

  /** Looking an approval up in those records is looking it up in the log. */
  lemma {:induction false} SameLookup(steps: seq<Step>, id: Id)
    ensures I.LatestRecord(Carried(steps), id) == LatestApproval(steps, id)
  {
    if steps != [] {
      var front, last := steps[..|steps| - 1], steps[|steps| - 1];
      SameLookup(front, id);
      if last.approval.Some? {
        assert (Carried(front) + [last.approval.value])[..|Carried(front)|] == Carried(front);
      } else {
        assert Carried(front) + [] == Carried(front);
      }
    }
  }

  // ---------- one caller alone ----------

  function Idle(role: I.Role): I.Caller { I.Caller(role, I.Load, Received, NO_ID) }

  function Alone(w: World, role: I.Role): I.System
    requires w.run.Some?
  {
    I.System(Seen(w), [Idle(role)])
  }

  /** What becomes of a write: whether it is kept, and whether the caller is told so. */
  datatype Write = Write(kept: bool, told: bool)

  const DONE := Write(true, true)

  predicate Full(w: Write) { w.kept && w.told }

  function WriteAt(env: Env, now: nat): Write { Write(env.storeOk(now), env.ackOk(now)) }

  /** Some schedule of a single caller leads here. */
  ghost predicate Reaches(rid: Id, id: Id, sys: I.System, m: I.Moved)
  {
    exists schedule :: I.Run(rid, id, sys, schedule) == I.System(m.shared, [m.caller])
  }

  lemma ReachesStart(rid: Id, id: Id, w: World, role: I.Role)
    requires w.run.Some?
    ensures Reaches(rid, id, Alone(w, role), I.Moved(Seen(w), Idle(role)))
  {
    assert I.Run(rid, id, Alone(w, role), []) == Alone(w, role);
  }

  lemma ReachesNext(rid: Id, id: Id, sys: I.System, m: I.Moved, write: Write, status: RunStatus, waitingFor: Id)
    requires Reaches(rid, id, sys, m)
    ensures Reaches(rid, id, sys, I.Move(rid, id, m.shared, m.caller, I.Choice(0, write.kept, write.told, status, waitingFor, true)))
  {
    hide I.Move;
    var choice := I.Choice(0, write.kept, write.told, status, waitingFor, true);
    var schedule :| I.Run(rid, id, sys, schedule) == I.System(m.shared, [m.caller]);
    assert (schedule + [choice])[..|schedule|] == schedule;
    var next := I.Move(rid, id, m.shared, m.caller, choice);
    assert [m.caller][0 := next.caller] == [next.caller];
    assert I.Run(rid, id, sys, schedule + [choice]) == I.System(next.shared, [next.caller]);
  }

  // ---------- cancelling ----------

  /** Where CancelRun leaves a run, by which of its three writes succeed. */
  lemma CancelEnds(env: Env, w: World)
    requires Survives(env, w.clock) && !w.dead && w.run.Some? && !Terminal(w.run.value.status) && w.run.value.approvalID != NO_ID
    ensures var st, now := w.run.value, w.clock; var after := CancelRun(env, w).w;
      && after.run.Some? && after.run.value.approvalID == st.approvalID
      && after.run.value.status == if Acked(env, now) && Acked(env, now + 1) && env.storeOk(now + 2) then Cancelled else st.status
  {
    var st := w.run.value;
    hide ResolveApproval, RecordStep, Transition, StoredState, Log, Survives, Settle;
    ResolveSettles(w, st.approvalID, false, "run cancelled");
    var w1 := ResolveApproval(w, st.approvalID, false, "run cancelled").0;
    CancelStepEnds(env, w1, st);
    var r := RecordStep(env, w1, st, CancelStep, StepCancelled, EMPTY);
    Safety.LogStore(env, Transition(env, r.w, r.st, Cancelled, r.step).w, Plain(RunCancelled));
  }

  lemma CancelStepEnds(env: Env, w: World, st: RunState)
    requires Survives(env, w.clock) && !w.dead && w.run == Some(st)
    ensures var r := RecordStep(env, w, st, CancelStep, StepCancelled, EMPTY);
      var run := if r.ok then Transition(env, r.w, r.st, Cancelled, r.step).w.run else r.w.run; var now := w.clock;
      && run.Some? && run.value.approvalID == st.approvalID
      && run.value.status == if Acked(env, now) && Acked(env, now + 1) && env.storeOk(now + 2) then Cancelled else st.status
  {
    hide RecordStep, Transition, StoredState, Survives;
    RecordEnds(env, w, st, CancelStep, StepCancelled, EMPTY);
    var r := RecordStep(env, w, st, CancelStep, StepCancelled, EMPTY);
    StoredStateKeepsControl(env.red, r.st);
    if r.ok {
      TransitionEnds(env, r.w, r.st, Cancelled, r.step);
      StoredStateKeepsControl(env.red, Transition(env, r.w, r.st, Cancelled, r.step).st);
    }
  }

  /** The next move of a caller, whose write succeeds or fails. */
  lemma MoveAlone(rid: Id, id: Id, sys: I.System, m: I.Moved, write: Write) returns (n: I.Moved)
    requires Reaches(rid, id, sys, m)
    ensures n == I.Move(rid, id, m.shared, m.caller, I.Choice(0, write.kept, write.told, Failed, NO_ID, true)) && Reaches(rid, id, sys, n)
  {
    hide I.Move, Reaches;
    ReachesNext(rid, id, sys, m, write, Failed, NO_ID);
    n := I.Move(rid, id, m.shared, m.caller, I.Choice(0, write.kept, write.told, Failed, NO_ID, true));
  }

  ghost predicate PendingIn(center: map<Id, Record>, id: Id) { id in center && center[id].status == Pending }

  /** Up to its first write, a canceller has rejected what was pending. */
  lemma CancellerResolves(rid: Id, id: Id, w: World) returns (m: I.Moved)
    requires w.run.Some? && !Terminal(w.run.value.status) && w.run.value.approvalID == id
    ensures Reaches(rid, id, Alone(w, I.Canceller), m)
    ensures m.caller == I.Caller(I.Canceller, I.RecordVerdict(None), w.run.value.status, id)
    ensures m.shared == Seen(w).(center := Settle(w.approvals, id, false, "run cancelled"),
                                 noted := if PendingIn(w.approvals, id) then [I.Noted(0, I.Won(false))] else [])
  {
    hide Reaches, CloneMap, Carried;
    ReachesStart(rid, id, w, I.Canceller);
    var sys := Alone(w, I.Canceller);
    m := I.Moved(Seen(w), Idle(I.Canceller));
    m := MoveAlone(rid, id, sys, m, DONE);
    m := MoveAlone(rid, id, sys, m, DONE);
    if PendingIn(w.approvals, id) {
      m := MoveAlone(rid, id, sys, m, DONE);
    }
  }

  /** Its writes, as far as they succeed. */
  lemma CancellerWrites(rid: Id, id: Id, sys: I.System, before: I.Moved, a: Write, b: Write, c: Write) returns (m: I.Moved)
    requires Reaches(rid, id, sys, before) && before.caller.role == I.Canceller && before.caller.next == I.RecordVerdict(None)
    requires before.caller.seen == before.shared.status && before.caller.waits == before.shared.waitingFor
    ensures Reaches(rid, id, sys, m) && m.caller.next == I.Done
    ensures m.shared == before.shared.(status := if Full(a) && Full(b) && c.kept then Cancelled else before.shared.status)
  {
    hide Reaches;
    m := MoveAlone(rid, id, sys, before, a);
    m := MoveAlone(rid, id, sys, m, b);
    m := MoveAlone(rid, id, sys, m, c);
  }

  /** A canceller alone: the same store, the same status, and it wins the approval exactly when it was pending. */
  lemma CancelAlone(env: Env, rid: Id, w: World, id: Id) returns (m: I.Moved)
    requires Survives(env, w.clock) && !w.dead && w.run.Some? && !Terminal(w.run.value.status)
    requires w.run.value.approvalID == id != NO_ID
    ensures Reaches(rid, id, Alone(w, I.Canceller), m) && m.caller.next == I.Done
    ensures var after := CancelRun(env, w).w;
      && after.run.Some? && m.shared.status == after.run.value.status && m.shared.waitingFor == after.run.value.approvalID
      && m.shared.center == after.approvals
    ensures m.shared.noted == if PendingIn(w.approvals, id) then [I.Noted(0, I.Won(false))] else []
  {
    hide CancelRun, Reaches, ResolveApproval, Settle, Carried, Survives;
    var now := w.clock;
    m := CancellerResolves(rid, id, w);
    m := CancellerWrites(rid, id, Alone(w, I.Canceller), m, WriteAt(env, now), WriteAt(env, now + 1), WriteAt(env, now + 2));
    CancelEnds(env, w);
    CancelStores(env, w);
    ResolveSettles(w, id, false, "run cancelled");
  }

  lemma ResolveSettles(w: World, id: Id, approve: bool, reason: string)
    requires !w.dead
    ensures var r := ResolveApproval(w, id, approve, reason).0;
      r.approvals == Settle(w.approvals, id, approve, reason) && r.run == w.run && r.clock == w.clock && !r.dead
  {}

  // ---------- resuming ----------

  /** The approver and the rejecter come to the compare-and-set with the store that hydration leaves. */
  lemma ResumerFetches(rid: Id, id: Id, w: World, role: I.Role) returns (m: I.Moved)
    requires !w.dead && w.run.Some? && w.run.value.status == PausedForApproval && w.run.value.approvalID == id && role != I.Canceller
    requires var (_, found) := HydrateApproval(w, id); found.Some? && found.value.runID == rid
    ensures Reaches(rid, id, Alone(w, role), m) && m.caller == I.Caller(role, I.Resolve, PausedForApproval, id)
    ensures m.shared == Seen(w).(center := HydrateApproval(w, id).0.approvals)
  {
    hide Reaches, CloneMap, Carried, LatestApproval, I.LatestRecord;
    SameLookup(w.steps, id);
    LatestBears(w.steps, id);
    ReachesStart(rid, id, w, role);
    var sys := Alone(w, role);
    m := I.Moved(Seen(w), Idle(role));
    m := MoveAlone(rid, id, sys, m, DONE);
    m := MoveAlone(rid, id, sys, m, DONE);
    if id !in w.approvals {
      m := MoveAlone(rid, id, sys, m, DONE);
      m := MoveAlone(rid, id, sys, m, DONE);
      m := MoveAlone(rid, id, sys, m, DONE);
    }
  }

  lemma {:induction false} LatestBears(steps: seq<Step>, id: Id)
    ensures LatestApproval(steps, id).Some? ==> LatestApproval(steps, id).value.id == id
  {
    if steps != [] { LatestBears(steps[..|steps| - 1], id); }
  }

  /** The compare-and-set. */
  lemma ResumerResolves(rid: Id, id: Id, sys: I.System, before: I.Moved) returns (m: I.Moved)
    requires Reaches(rid, id, sys, before) && before.caller.next == I.Resolve && before.caller.role != I.Canceller
    ensures Reaches(rid, id, sys, m)
    ensures var approve, reason := before.caller.role == I.Approver, I.Reason(before.caller.role); var center := before.shared.center;
      && m.shared == before.shared.(center := Settle(center, id, approve, reason),
                                    noted := before.shared.noted + if PendingIn(center, id) then [I.Noted(0, I.Won(approve))] else [])
      && m.caller == before.caller.(next := if PendingIn(center, id) then I.RecordVerdict(Resolution(center, id, approve, reason)) else I.Closing)
  {
    hide Reaches, CloneMap;
    m := MoveAlone(rid, id, sys, before, DONE);
    assert before.shared.noted + [] == before.shared.noted;
  }

  // ---------- rejecting ----------

  /** The store is as it was, and the run is still there. */
  predicate Kept(a: World, b: World) { b.approvals == a.approvals && (a.run.Some? ==> b.run.Some?) }

  lemma StageKept(env: Env, w: World, st: RunState, kind: StepKind, status: StepStatus, body: Body, next: RunStatus)
    ensures var r := RecordStep(env, w, st, kind, status, body); Kept(w, r.w) && Kept(w, Transition(env, r.w, r.st, next, r.step).w)
  {
    hide Upsert, StoredStep, StoredState;
  }

  lemma LogKept(env: Env, w: World, e: Event)
    ensures Kept(w, Log(env, w, e))
  {}

  lemma AbortKept(env: Env, w: World, st: RunState, cause: Cause)
    ensures Kept(w, Abort(env, w, st, cause).w)
  {
    hide RecordStep, Transition, Log;
    var st1, body := st.(error := cause), EMPTY.(error := cause);
    StageKept(env, w, st1, Finalize, StepFailed, body, Failed);
    var r := RecordStep(env, w, st1, Finalize, StepFailed, body);
    var t := if r.ok then Transition(env, r.w, r.st, Failed, r.step) else At(r.w, r.st);
    LogKept(env, t.w, Plain(RunFailed).(cause := cause));
  }

  lemma CloseKept(env: Env, w: World, st: RunState)
    ensures Kept(w, CloseRejected(env, w, st).w)
  {
    hide RecordStep, Transition, Log, Abort;
    StageKept(env, w, st, Summarize, StepCompleted, EMPTY, Summarizing);
    var s := RecordStep(env, w, st, Summarize, StepCompleted, EMPTY);
    AbortKept(env, s.w, s.st, StoreFailed);
    var u := Transition(env, s.w, s.st, Summarizing, s.step);
    LogKept(env, Tick(env, u.w), Plain(AssistantMessage));
    var m := PersistAssistant(env, u.w);
    AbortKept(env, m.w, u.st, MessageFailed);
    StageKept(env, m.w, u.st, Finalize, StepCompleted, EMPTY, ApprovalRejected);
    var f := RecordStep(env, m.w, u.st, Finalize, StepCompleted, EMPTY);
    AbortKept(env, f.w, f.st, StoreFailed);
    LogKept(env, Transition(env, f.w, f.st, ApprovalRejected, f.step).w, Plain(RunCompleted));
  }

  /** All that a rejection does to the store is to settle the approval. */
  lemma RejectStores(env: Env, w: World, st: RunState, id: Id)
    requires !w.dead
    ensures var after := RejectPaused(env, w, st, id).w;
      after.approvals == Settle(w.approvals, id, false, "rejected from workflow") && (w.run.Some? ==> after.run.Some?)
  {
    ResolveSettles(w, id, false, "rejected from workflow");
    var (w1, rejected) := ResolveApproval(w, id, false, "rejected from workflow");
    hide RecordStep, Transition, Log, Abort, CloseRejected, ResolveApproval, Settle, ApprovalBody;
    AbortKept(env, w1, st, ResolveFailed);
    if rejected.Some? {
      var body := ApprovalBody(rejected.value);
      StageKept(env, w1, st, RequestApproval, StepCancelled, body, ApprovalRejected);
      var r := RecordStep(env, w1, st, RequestApproval, StepCancelled, body);
      AbortKept(env, r.w, r.st, StoreFailed);
      var t := Transition(env, r.w, r.st, ApprovalRejected, r.step);
      LogKept(env, t.w, OfApproval(EventApprovalRejected, id));
      CloseKept(env, Log(env, t.w, OfApproval(EventApprovalRejected, id)), t.st);
    }
  }

  /** A rejecter's writes, as far as they succeed, and what the rest of the call leaves of the run. */
  lemma RejecterWrites(rid: Id, id: Id, sys: I.System, before: I.Moved, a: Write, b: Write, c: Write, status: RunStatus, waits: Id)
    returns (m: I.Moved)
    requires Reaches(rid, id, sys, before) && before.caller.role == I.Rejecter
    requires before.caller.next == I.Closing || before.caller.next.RecordVerdict?
    ensures Reaches(rid, id, sys, m) && m.caller.next == I.Done && m.shared.status == status && m.shared.waitingFor == waits
    ensures m.shared.center == before.shared.center && m.shared.noted == before.shared.noted
  {
    hide Reaches, CloneRecord, HashVerifies, I.LatestRecord, Settle, Resolution, I.Reason, Terminal;
    m := before;
    if m.caller.next != I.Closing { m := MoveAlone(rid, id, sys, m, a); }
    if m.caller.next != I.Closing { m := MoveAlone(rid, id, sys, m, b); }
    if m.caller.next != I.Closing { m := MoveAlone(rid, id, sys, m, c); }
    ReachesNext(rid, id, sys, m, DONE, status, waits);
    m := I.Move(rid, id, m.shared, m.caller, I.Choice(0, true, true, status, waits, true));
  }

  /** A rejecter alone: the same store and the same run in the end, and it wins the approval exactly when it
      was pending. */
  lemma RejectAlone(env: Env, rid: Id, w: World, id: Id) returns (m: I.Moved)
    requires !w.dead && w.run.Some? && w.run.value.status == PausedForApproval && w.run.value.approvalID == id
    requires var (_, found) := HydrateApproval(w, id); found.Some? && found.value.runID == rid
    ensures Reaches(rid, id, Alone(w, I.Rejecter), m) && m.caller.next == I.Done
    ensures var after := ResumeRun(env, w, rid, id, false).w;
      && after.run.Some? && m.shared.status == after.run.value.status && m.shared.waitingFor == after.run.value.approvalID
      && m.shared.center == after.approvals
    ensures m.shared.noted == if PendingIn(HydrateApproval(w, id).0.approvals, id) then [I.Noted(0, I.Won(false))] else []
  {
    HydrateLives(w, id);
    hide HydrateApproval, Reaches, RejectPaused, Settle, Carried;
    var h, now := HydrateApproval(w, id).0, w.clock;
    RejectStores(env, h, w.run.value, id);
    var after := ResumeRun(env, w, rid, id, false).w;
    assert after == RejectPaused(env, h, w.run.value, id).w;
    m := ResumerFetches(rid, id, w, I.Rejecter);
    m := ResumerResolves(rid, id, Alone(w, I.Rejecter), m);
    m := RejecterWrites(rid, id, Alone(w, I.Rejecter), m, WriteAt(env, now), WriteAt(env, now + 1), WriteAt(env, now + 2),
                        after.run.value.status, after.run.value.approvalID);
  }

  lemma HydrateLives(w: World, id: Id)
    ensures var h := HydrateApproval(w, id).0; h.dead == w.dead && h.run == w.run && h.clock == w.clock && h.trace == w.trace
  {
    hide LatestApproval, CloneRecord;
  }

  // ---------- approving ----------

  lemma ApproverRuns(rid: Id, id: Id, sys: I.System, before: I.Moved, c: Write, d: Write) returns (m: I.Moved)
    requires Reaches(rid, id, sys, before) && before.caller.role == I.Approver && before.caller.next == I.Announce
    requires id in before.shared.center && before.shared.center[id].status == Approved && HashVerifies(before.shared.center[id])
    ensures Reaches(rid, id, sys, m) && m.caller.next == I.Closing && m.shared.center == before.shared.center
    ensures m.shared.noted == before.shared.noted + [I.Noted(0, I.Ran)]
  {
    hide Reaches, CloneRecord, HashVerifies, I.LatestRecord, Settle, Resolution, I.Reason, Terminal;
    m := MoveAlone(rid, id, sys, before, c);
    m := MoveAlone(rid, id, sys, m, d);
    m := MoveAlone(rid, id, sys, m, DONE);
    m := MoveAlone(rid, id, sys, m, DONE);
    m := MoveAlone(rid, id, sys, m, DONE);
  }

  /** An approver's writes up to the execution, which only the first two can prevent. */
  lemma ApproverWrites(rid: Id, id: Id, sys: I.System, before: I.Moved, a: Write, b: Write, c: Write, d: Write) returns (m: I.Moved)
    requires Reaches(rid, id, sys, before) && before.caller.role == I.Approver && before.caller.next.RecordVerdict?
    requires id in before.shared.center && before.shared.center[id].status == Approved && HashVerifies(before.shared.center[id])
    ensures Reaches(rid, id, sys, m) && m.caller.next == I.Closing && m.shared.center == before.shared.center
    ensures m.shared.noted == before.shared.noted + if Full(a) && Full(b) then [I.Noted(0, I.Ran)] else []
  {
    hide Reaches, CloneRecord, HashVerifies, I.LatestRecord, Settle, Resolution, I.Reason, Terminal;
    m := MoveAlone(rid, id, sys, before, a);
    if Full(a) { m := MoveAlone(rid, id, sys, m, b); }
    if Full(a) && Full(b) {
      m := ApproverRuns(rid, id, sys, m, c, d);
    } else {
      assert before.shared.noted + [] == before.shared.noted;
    }
  }

  /** What approving executes, by whether the approval is pending and which writes succeed. */
  lemma ApproveEnds(env: Env, rid: Id, w: World, st: RunState, approval: Record)
    requires Survives(env, w.clock) && !w.dead && st.approvalID == approval.id != NO_ID
    requires approval.id in w.approvals && HashVerifies(w.approvals[approval.id]) && env.registered(w.approvals[approval.id].proposal.tool)
    ensures var before, after := Executions(w.trace, approval.id), Executions(ApprovePaused(env, w, st, approval).w.trace, approval.id);
      if PendingIn(w.approvals, approval.id) && Acked(env, w.clock) && Acked(env, w.clock + 1) then after > 0 else after == before
  {
    var id := approval.id;
    hide Executions, HashVerifies, CloneMap;
    if !PendingIn(w.approvals, id) {
      RestartTransparency.SettledStore(env, w, st, approval, true);
      hide Abort, ApprovePaused;
      OnlyLogged(w.trace, Abort(env, w, st, ResolveFailed).w.trace, id);
    } else if Acked(env, w.clock) && Acked(env, w.clock + 1) {
      hide ApprovePaused;
      ApproveExecutes(env, w, st, approval);
    } else {
      VerdictLost(env, w, st, approval);
    }
  }

  lemma VerdictLost(env: Env, w: World, st: RunState, approval: Record)
    requires Survives(env, w.clock) && !w.dead && PendingIn(w.approvals, approval.id) && !(Acked(env, w.clock) && Acked(env, w.clock + 1))
    ensures Executions(ApprovePaused(env, w, st, approval).w.trace, approval.id) == Executions(w.trace, approval.id)
  {
    hide RecordStep, Transition, RunApproved, CloneRecord, Executions, Survives, Abort;
    var id := approval.id;
    var (w1, approved) := ResolveApproval(w, id, true, "");
    var body := ApprovalBody(approved.value);
    RecordEnds(env, w1, st, RequestApproval, StepCompleted, body);
    var r := RecordStep(env, w1, st, RequestApproval, StepCompleted, body);
    ResolvedRunsNothing(w.trace, id);
    RestartTransparency.AbortOnlyLogs(env, r.w, r.st, StoreFailed);
    var after := Abort(env, r.w, r.st, StoreFailed).w;
    assert Grew(r.w, after);
    OnlyLogged(r.w.trace, after.trace, id);
  }

  /** An approver alone: it wins the approval exactly when it was pending, and executes exactly as often as the
      call of module Machine does: once, if it won and the verdict was written, and otherwise not at all. */
  lemma ApproveAlone(env: Env, rid: Id, w: World, id: Id) returns (m: I.Moved)
    requires Safety.Inv(rid, w) && Survives(env, w.clock)
    requires !w.dead && w.run.Some? && w.run.value.status == PausedForApproval && w.run.value.approvalID == id != NO_ID
    requires var (h, found) := HydrateApproval(w, id);
      found.Some? && found.value.runID == rid && id in h.approvals && env.registered(h.approvals[id].proposal.tool)
    ensures Reaches(rid, id, Alone(w, I.Approver), m) && m.caller.next == I.Closing
    ensures var h := HydrateApproval(w, id).0;
      && m.shared.center == Settle(h.approvals, id, true, "")
      && (I.Noted(0, I.Won(true)) in m.shared.noted <==> PendingIn(h.approvals, id))
    ensures Executions(ResumeRun(env, w, rid, id, true).w.trace, id) == Executions(w.trace, id) + I.Executions(m.shared.noted)
  {
    hide HydrateApproval, Reaches, ResumeRun, Carried, HashVerifies, Safety.Inv, Executions, Settle;
    HydratedVerifies(rid, w, id);
    var h, now, sys := HydrateApproval(w, id).0, w.clock, Alone(w, I.Approver);
    ApproveRuns(env, rid, w, id);
    m := ResumerFetches(rid, id, w, I.Approver);
    m := ResumerResolves(rid, id, sys, m);
    if PendingIn(h.approvals, id) {
      SettledApproved(h.approvals, id);
      m := ApproverWrites(rid, id, sys, m, WriteAt(env, now), WriteAt(env, now + 1), WriteAt(env, now + 2), WriteAt(env, now + 5));
    }
    NotedCounts(m.shared.noted);
  }

  lemma SettledApproved(center: map<Id, Record>, id: Id)
    requires PendingIn(center, id) && HashVerifies(center[id])
    ensures var after := Settle(center, id, true, ""); id in after && after[id].status == Approved && HashVerifies(after[id])
  {
    hide CloneMap;
  }

  lemma ApproveRuns(env: Env, rid: Id, w: World, id: Id)
    requires Safety.Inv(rid, w) && Survives(env, w.clock)
    requires !w.dead && w.run.Some? && w.run.value.status == PausedForApproval && w.run.value.approvalID == id != NO_ID
    requires var (h, found) := HydrateApproval(w, id);
      found.Some? && found.value.runID == rid && id in h.approvals && env.registered(h.approvals[id].proposal.tool)
    ensures var h := HydrateApproval(w, id).0;
      Executions(ResumeRun(env, w, rid, id, true).w.trace, id)
      == Executions(w.trace, id) + if PendingIn(h.approvals, id) && Acked(env, w.clock) && Acked(env, w.clock + 1) then 1 else 0
  {
    HydrateLives(w, id);
    HydratedVerifies(rid, w, id);
    hide HydrateApproval, ApprovePaused, HashVerifies, Safety.Inv, Executions;
    var (h, found) := HydrateApproval(w, id);
    var o := ResumeRun(env, w, rid, id, true);
    assert o == ApprovePaused(env, h, w.run.value, found.value);
    ApproveEnds(env, rid, h, w.run.value, found.value);
    Safety.ResumeKeeps(env, rid, w, id, true);
    AtMostOne(rid, o.w, id);
  }

  lemma NotedCounts(noted: seq<I.Noted>)
    ensures noted == [] || noted == [I.Noted(0, I.Won(true))] ==> I.Executions(noted) == 0
    ensures noted == [I.Noted(0, I.Won(true))] + [I.Noted(0, I.Ran)] ==> I.Executions(noted) == 1
  {
    I.ExecutionsAppend([], I.Noted(0, I.Won(true)));
    I.ExecutionsAppend([I.Noted(0, I.Won(true))], I.Noted(0, I.Ran));
    assert [] + [I.Noted(0, I.Won(true))] == [I.Noted(0, I.Won(true))];
  }

  /** What hydration leaves in the store verifies, and while it is pending nothing has been executed on it. */
  lemma HydratedVerifies(rid: Id, w: World, id: Id)
    requires Safety.Inv(rid, w) && !w.dead && id != NO_ID
    requires var (_, found) := HydrateApproval(w, id); found.Some? && found.value.runID == rid
    ensures var (h, found) := HydrateApproval(w, id);
      && id in h.approvals && HashVerifies(h.approvals[id]) && found.value.id == id
      && (PendingIn(h.approvals, id) ==> Executions(w.trace, id) == 0)
  {
    hide CreatedIn, ApprovedIn, Executions, Mediated, CloneMap, HashMap, Safety.SettledInLog, Safety.LogSays, Safety.LogSound;
    if id in w.approvals {
      assert Safety.RecordSound(w, id);
    } else {
      Safety.LatestSound(rid, w.clock, w.trace, w.steps, id);
      RestartTransparency.LogMatchesStore(rid, w, id);
    }
  }
}
