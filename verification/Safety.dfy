/** What every effect of every call keeps, with arbitrary store failures and crashes. */
module Safety {
  import opened Base
  import opened Json
  import opened Types
  import opened Approvals
  import opened Policy
  import opened RunStates
  import opened Machine
  import opened History

  // ---------- the invariant ----------

  predicate Carries(s: Step, id: Id, pending: bool)
  {
    s.approval.Some? && s.approval.value.id == id && (s.approval.value.status == Pending) == pending
  }

  /** The log holds a resolved copy of the approval. */
  ghost predicate SettledInLog(steps: seq<Step>, id: Id)
  {
    exists s :: s in steps && Carries(s, id, false)
  }

  /** Whatever the log holds of a resolution of this approval says `status`. */
  ghost predicate LogSays(steps: seq<Step>, id: Id, status: ApprovalStatus)
  {
    forall s :: s in steps && Carries(s, id, false) ==> s.approval.value.status == status
  }

  /** The record descends from an approval created in this trace: only its resolution may have changed. */
  ghost predicate Genuine(trace: seq<Act>, r: Record)
  {
    && r.id in CreatedIn(trace)
    && CloneRecord(r).(status := Pending, reason := "") == CreatedIn(trace)[r.id]
    && (r.status == Approved ==> ApprovedIn(trace, r.id))
    && (r.status == Pending ==> r.reason == "")
  }

  ghost predicate CreatedSound(rid: Id, clock: nat, trace: seq<Act>)
  {
    forall id :: id in CreatedIn(trace) ==>
      var r := CreatedIn(trace)[id];
      0 < id < clock && r.id == id && r.runID == rid && r.status == Pending && CloneRecord(r) == r && HashVerifies(r)
  }

  ghost predicate StepSound(rid: Id, clock: nat, trace: seq<Act>, s: Step)
  {
    && s.stepID < clock
    && (s.approval.Some? ==>
          s.approval.value.runID == rid && CloneRecord(s.approval.value) == s.approval.value && Genuine(trace, s.approval.value))
  }

  ghost predicate LogSound(rid: Id, clock: nat, trace: seq<Act>, steps: seq<Step>)
  {
    && SortedByIndex(steps)
    && (forall s :: s in steps ==> StepSound(rid, clock, trace, s))
    && (forall id, s, t :: s in steps && t in steps && Carries(s, id, true) && Carries(t, id, false) ==> s.index < t.index)
    && (forall id, s :: s in steps && Carries(s, id, false) ==> LogSays(steps, id, s.approval.value.status))
  }

  ghost predicate CenterSound(rid: Id, w: World)
  {
    && (forall id :: id in w.approvals ==> 0 < id < w.clock)
    && (forall id :: id in w.approvals && id in CreatedIn(w.trace) ==> w.approvals[id].runID == rid)
    && (forall id :: id in w.approvals && w.approvals[id].runID == rid ==> RecordSound(w, id))
  }

  /** A record of this run in the store is the one created, and the log does not contradict it. */
  ghost predicate RecordSound(w: World, id: Id)
    requires id in w.approvals
  {
    && w.approvals[id].id == id && Genuine(w.trace, w.approvals[id]) && HashVerifies(w.approvals[id])
    && (if w.approvals[id].status == Pending then !SettledInLog(w.steps, id) else LogSays(w.steps, id, w.approvals[id].status))
  }

  /** An approval that has been used is settled in the durable log, as approved, and was used once. */
  ghost predicate Spent(w: World)
  {
    forall id :: id != NO_ID && Executions(w.trace, id) > 0 ==>
      Executions(w.trace, id) == 1 && SettledInLog(w.steps, id) && LogSays(w.steps, id, Approved)
  }

  /** The pending copies of the approval a state waits for lie at or before the state's step index. */
  ghost predicate StateSound(rid: Id, w: World, st: RunState)
  {
    && st.runID == rid && st.approvalID < w.clock
    && (forall s :: s in w.steps && Carries(s, st.approvalID, true) ==> s.index <= st.stepIndex)
  }

  ghost predicate Inv(rid: Id, w: World)
  {
    && w.clock > 0
    && CreatedSound(rid, w.clock, w.trace)
    && LogSound(rid, w.clock, w.trace, w.steps)
    && CenterSound(rid, w)
    && Spent(w)
    && Mediated(w.trace)
    && (w.run.Some? ==> StateSound(rid, w, w.run.value))
  }

  /** From `a` to `b` only time passed, steps without news about approvals were logged and silent acts
      happened: nothing was created, resolved or executed. */
  ghost predicate Calm(a: World, b: World)
  {
    && SameStory(a.trace, b.trace) && b.approvals == a.approvals && a.clock <= b.clock
    && (forall s :: s in a.steps ==> s in b.steps)
  }

  /** Between `a` and `b` no other step about this approval was logged, and the durable state did not
      come to wait for it. */
  ghost predicate Untouched(a: World, b: World, id: Id)
  {
    && (forall s :: s in b.steps && s.approval.Some? && s.approval.value.id == id ==> s in a.steps)
    && (b.run.Some? && b.run.value.approvalID == id ==> a.run.Some? && a.run.value.approvalID == id)
  }

  lemma CalmTransitive(a: World, b: World, c: World)
    requires Calm(a, b) && Calm(b, c)
    ensures Calm(a, c)
  {}

  // ---------- single effects ----------

  lemma InvMediated(rid: Id, w: World)
    requires Inv(rid, w)
    ensures Mediated(w.trace) && w.clock > 0
  {}

  /** The invariant survives time passing and acts that change no part of the story. */
  lemma InvStays(rid: Id, a: World, b: World)
    requires Inv(rid, a) && SameStory(a.trace, b.trace) && Mediated(b.trace) && a.clock <= b.clock
    requires b.approvals == a.approvals && b.steps == a.steps && b.run == a.run
    ensures Inv(rid, b)
  {
    hide CreatedIn, ApprovedIn, Executions, LastDecision, Mediated, CloneMap, HashMap, SettledInLog, LogSays;
    forall s | s in b.steps ensures StepSound(rid, b.clock, b.trace, s) {
      assert StepSound(rid, a.clock, a.trace, s);
    }
    forall id | id in b.approvals && b.approvals[id].runID == rid ensures RecordSound(b, id) {
      assert RecordSound(a, id);
    }
  }

  /** The durable snapshot may be replaced by any sound state. */
  lemma InvSaved(rid: Id, a: World, b: World)
    requires Inv(rid, a) && b == a.(run := b.run) && (b.run.Some? ==> StateSound(rid, a, b.run.value))
    ensures Inv(rid, b)
  {
    hide CreatedIn, ApprovedIn, Executions, LastDecision, Mediated, CloneMap, HashMap, SettledInLog, LogSays, LogSound, CreatedSound;
    forall id | id in b.approvals && b.approvals[id].runID == rid ensures RecordSound(b, id) {
      assert RecordSound(a, id);
    }
  }

  lemma NoteKeeps(rid: Id, w: World, act: Act)
    requires Inv(rid, w) && Silent(act)
    ensures Inv(rid, Note(w, act)) && Calm(w, Note(w, act))
  {
    hide Inv, Silent, CreatedIn, ApprovedIn, Executions, LastDecision, Mediated;
    InvMediated(rid, w);
    SilentAct(w.trace, act);
    InvStays(rid, w, Note(w, act));
  }

  /** Writing any event to the run log but the start of an execution, or failing to. */
  lemma LogKeeps(env: Env, rid: Id, w: World, e: Event)
    requires Inv(rid, w) && e.kind != EventToolStarted
    ensures var after := Log(env, w, e); Inv(rid, after) && Calm(w, after) && after.steps == w.steps
  {
    hide Inv;
    TickKeeps(env, rid, w);
    NoteKeeps(rid, Tick(env, w), Written(env, w.clock, e));
  }

  lemma TickKeeps(env: Env, rid: Id, w: World)
    requires Inv(rid, w)
    ensures Inv(rid, Tick(env, w)) && Calm(w, Tick(env, w)) && Tick(env, w).trace == w.trace
  {
    hide Inv;
    InvMediated(rid, w);
    InvStays(rid, w, Tick(env, w));
  }

  lemma SaveStateKeeps(env: Env, rid: Id, w: World, st: RunState)
    requires Inv(rid, w) && StateSound(rid, w, st)
    ensures var a := SaveState(env, w, st);
      && Inv(rid, a.w) && Calm(w, a.w) && a.w.trace == w.trace && a.w.steps == w.steps && w.clock <= a.w.clock
      && (forall id :: id != st.approvalID ==> Untouched(w, a.w, id))
  {
    hide Inv, Calm;
    TickKeeps(env, rid, w);
    StoredStateKeepsControl(env.red, st);
    var t, a := Tick(env, w), SaveState(env, w, st);
    if !Tick(env, w).dead && env.storeOk(w.clock) {
      StateSoundStays(rid, w, t, st);
      StateSoundSame(rid, t, st, StoredState(env.red, st));
      InvSaved(rid, t, a.w);
      CalmSame(w, t, a.w);
    }
  }

  lemma CalmSame(a: World, b: World, c: World)
    requires Calm(a, b) && c.trace == b.trace && c.approvals == b.approvals && c.clock == b.clock && c.steps == b.steps
    ensures Calm(a, c)
  {}

  /** What a step may say about an approval, given the state that records it. */
  ghost predicate BodySound(rid: Id, w: World, st: RunState, body: Body)
  {
    body.approval.Some? ==>
      var r := body.approval.value;
      && r.runID == rid && r.id == st.approvalID && CloneRecord(r) == r && Genuine(w.trace, r)
      && (if r.status == Pending then
            !SettledInLog(w.steps, r.id) && (w.run.Some? ==> w.run.value.approvalID != r.id)
          else
            r.id in w.approvals && w.approvals[r.id].runID == rid && w.approvals[r.id].status == r.status)
  }

  /** A step that joins the log behind every pending copy of what it settles, or that announces an
      approval the log has not settled, keeps the log sound. */
  lemma LogGrows(rid: Id, clock: nat, trace: seq<Act>, steps: seq<Step>, step: Step, grown: seq<Step>)
    requires LogSound(rid, clock, trace, steps) && StepSound(rid, clock + 1, trace, step)
    requires SortedByIndex(grown) && forall s :: s in grown <==> s in steps || s == step
    requires forall id, s :: s in steps && Carries(s, id, true) && Carries(step, id, false) ==> s.index < step.index
    requires forall id :: Carries(step, id, true) ==> !SettledInLog(steps, id)
    requires forall id :: Carries(step, id, false) ==> LogSays(steps, id, step.approval.value.status)
    ensures LogSound(rid, clock + 1, trace, grown)
  {
    hide Genuine, CloneMap;
    forall s | s in grown ensures StepSound(rid, clock + 1, trace, s) {
      if s != step { assert StepSound(rid, clock, trace, s); }
    }
    assert forall id, t :: t in steps && Carries(step, id, true) ==> !Carries(t, id, false);
    assert forall id, s, t :: s in grown && t in grown && Carries(s, id, true) && Carries(t, id, false) ==> s.index < t.index;
    forall id, s | s in grown && Carries(s, id, false) ensures LogSays(grown, id, s.approval.value.status) {
      forall t | t in grown && Carries(t, id, false) ensures t.approval.value.status == s.approval.value.status {
        if s != step && t != step {
          assert LogSays(steps, id, s.approval.value.status);
        }
      }
    }
  }

  lemma Unsettled(steps: seq<Step>, id: Id, status: ApprovalStatus)
    requires !SettledInLog(steps, id)
    ensures LogSays(steps, id, status)
  {}

  lemma SettledGrows(steps: seq<Step>, grown: seq<Step>, id: Id)
    requires forall s :: s in steps ==> s in grown
    ensures SettledInLog(steps, id) ==> SettledInLog(grown, id)
  {}

  lemma InvLogged(rid: Id, w: World)
    requires Inv(rid, w)
    ensures LogSound(rid, w.clock, w.trace, w.steps)
  {}

  lemma ClockIsFresh(rid: Id, w: World)
    requires Inv(rid, w)
    ensures FreshIn(w.clock, w.steps)
  {
    forall s | s in w.steps ensures s.stepID != w.clock {
      assert StepSound(rid, w.clock, w.trace, s);
    }
  }

  /** The log with the new step in it. */
  lemma StepJoins(rid: Id, w: World, st: RunState, body: Body, stored: Step, after: World)
    requires Inv(rid, w) && StateSound(rid, w, st) && BodySound(rid, w, st, body)
    requires stored.stepID == w.clock && stored.index == st.stepIndex + 1 && stored.approval == body.approval
    requires after == w.(clock := w.clock + 1, steps := Upsert(w.steps, stored))
    ensures Inv(rid, after) && StateSound(rid, after, st.(stepIndex := stored.index)) && stored in after.steps
    ensures forall s :: s in w.steps ==> s in after.steps
  {
    hide Inv, BodySound, StepSound, LogSound, Upsert, SettledInLog, LogSays;
    ClockIsFresh(rid, w);
    InvLogged(rid, w);
    UpsertFresh(w.steps, stored);
    BodyFits(rid, w, st, body, stored);
    LogGrows(rid, w.clock, w.trace, w.steps, stored, after.steps);
    StoredJoins(rid, w, after, stored);
  }

  lemma StoredApprovalSame(red: Redactor, rid: Id, w: World, st: RunState, body: Body, step: Step)
    requires BodySound(rid, w, st, body) && step.approval == body.approval
    ensures StoredStep(red, step).approval == body.approval
  {
    hide Genuine, SettledInLog;
  }

  lemma SaveStepKeeps(env: Env, rid: Id, w: World, st: RunState, step: Step, body: Body)
    requires Inv(rid, w) && StateSound(rid, w, st) && BodySound(rid, w, st, body)
    requires step.stepID == w.clock && step.index == st.stepIndex + 1 && step.approval == body.approval
    ensures var a := SaveStep(env, w, step);
      && Inv(rid, a.w) && Calm(w, a.w) && a.w.trace == w.trace && a.w.run == w.run
      && StateSound(rid, a.w, st.(stepIndex := step.index))
      && (a.ok ==> StoredStep(env.red, step) in a.w.steps)
  {
    hide Inv, BodySound, Upsert;
    var a := SaveStep(env, w, step);
    TickKeeps(env, rid, w);
    if !Tick(env, w).dead && env.storeOk(w.clock) {
      StoredApprovalSame(env.red, rid, w, st, body, step);
      StepJoins(rid, w, st, body, StoredStep(env.red, step), a.w);
    }
  }

  /** What LogGrows and StoredJoins ask of the new step. */
  lemma BodyFits(rid: Id, w: World, st: RunState, body: Body, step: Step)
    requires Inv(rid, w) && StateSound(rid, w, st) && BodySound(rid, w, st, body)
    requires step.stepID == w.clock && step.index == st.stepIndex + 1 && step.approval == body.approval
    ensures StepSound(rid, w.clock + 1, w.trace, step)
    ensures forall id, s :: s in w.steps && Carries(s, id, true) && Carries(step, id, false) ==> s.index < step.index
    ensures forall id :: Carries(step, id, true) ==> !SettledInLog(w.steps, id)
    ensures forall id :: Carries(step, id, false) ==> LogSays(w.steps, id, step.approval.value.status)
    ensures step.approval.Some? ==>
      var r := step.approval.value;
      if r.status == Pending then w.run.Some? ==> w.run.value.approvalID != r.id
      else r.id in w.approvals && w.approvals[r.id].runID == rid && w.approvals[r.id].status == r.status
  {
    hide Genuine, Mediated, LogSound, CreatedSound;
  }

  lemma SaveStepUntouched(env: Env, rid: Id, w: World, step: Step, id: Id)
    requires Inv(rid, w) && step.stepID == w.clock
    requires step.approval.Some? ==> step.approval.value.id != id
    ensures Untouched(w, SaveStep(env, w, step).w, id)
  {
    var a := SaveStep(env, w, step);
    if !Tick(env, w).dead && env.storeOk(w.clock) {
      var stored := StoredStep(env.red, step);
      forall s | s in w.steps ensures s.stepID != stored.stepID {
        assert StepSound(rid, w.clock, w.trace, s);
      }
      UpsertFresh(w.steps, stored);
    }
  }

  lemma UntouchedTransitive(a: World, b: World, c: World, id: Id)
    requires Untouched(a, b, id) && Untouched(b, c, id)
    ensures Untouched(a, c, id)
  {}

  /** A new step in the log, wherever it is listed; a verdict in it is the one the approval store holds, and
      a request in it is not the one the stored state waits for. */
  ghost predicate Joins(rid: Id, w: World, after: World, stored: Step)
  {
    && after == w.(clock := w.clock + 1, steps := after.steps)
    && (forall s :: s in after.steps <==> s in w.steps || s == stored)
    && (stored.approval.Some? ==>
          var r := stored.approval.value;
          if r.status == Pending then w.run.Some? ==> w.run.value.approvalID != r.id
          else r.id in w.approvals && w.approvals[r.id].runID == rid && w.approvals[r.id].status == r.status)
  }

  lemma RecordJoins(rid: Id, w: World, after: World, stored: Step, id: Id)
    requires Joins(rid, w, after, stored) && id in w.approvals && RecordSound(w, id)
    ensures RecordSound(after, id)
  {
    hide Genuine, HashVerifies;
    if w.approvals[id].status == Pending {
      forall s | s in after.steps ensures !Carries(s, id, false) {
        if s != stored {
          assert s in w.steps;
        }
      }
    }
  }

  lemma CenterJoins(rid: Id, w: World, after: World, stored: Step)
    requires Joins(rid, w, after, stored) && CenterSound(rid, w)
    ensures CenterSound(rid, after)
  {
    hide RecordSound;
    forall id | id in after.approvals && after.approvals[id].runID == rid ensures RecordSound(after, id) {
      RecordJoins(rid, w, after, stored, id);
    }
  }

  lemma SpentJoins(rid: Id, w: World, after: World, stored: Step)
    requires Joins(rid, w, after, stored) && Spent(w) && LogSound(rid, after.clock, after.trace, after.steps)
    ensures Spent(after)
  {
    hide Executions, StepSound, SortedByIndex;
    forall id | id != NO_ID && Executions(w.trace, id) > 0
      ensures SettledInLog(after.steps, id) && LogSays(after.steps, id, Approved)
    {
      var s :| s in w.steps && Carries(s, id, false);
      assert s in after.steps && LogSays(after.steps, id, s.approval.value.status);
    }
  }

  /** The rest of the invariant survives a new step. */
  lemma StoredJoins(rid: Id, w: World, after: World, stored: Step)
    requires Inv(rid, w) && Joins(rid, w, after, stored) && LogSound(rid, after.clock, after.trace, after.steps)
    ensures Inv(rid, after)
  {
    CenterJoins(rid, w, after, stored);
    SpentJoins(rid, w, after, stored);
    hide LogSound, CenterSound, Spent, Mediated;
  }

  // ---------- steps, transitions, failures ----------

  lemma RecordStepKeeps(env: Env, rid: Id, w: World, st: RunState, kind: StepKind, status: StepStatus, body: Body)
    requires Inv(rid, w) && StateSound(rid, w, st) && BodySound(rid, w, st, body)
    ensures var r := RecordStep(env, w, st, kind, status, body);
      && Inv(rid, r.w) && StateSound(rid, r.w, r.st) && Calm(w, r.w) && r.w.trace == w.trace
      && r.step.index == r.st.stepIndex == st.stepIndex + 1 && r.st.approvalID == st.approvalID
      && (forall id :: id != st.approvalID ==> Untouched(w, r.w, id))
      && (r.ok && body.approval.Some? && body.approval.value.status != Pending ==> SettledInLog(r.w.steps, st.approvalID))
  {
    hide Inv, StateSound, LogSound, BodySound, Calm, Untouched, Upsert, SettledInLog;
    var step := Step(w.clock, st.runID, st.stepIndex + 1, kind, status, body.proposal, body.approval, body.result, body.error);
    var st' := st.(currentStep := kind, stepIndex := step.index, updatedAt := w.clock);
    SaveStepKeeps(env, rid, w, st, step, body);
    BodySoundIs(rid, w, st, body);
    var a := SaveStep(env, w, step);
    forall id | id != st.approvalID ensures Untouched(w, a.w, id) {
      SaveStepUntouched(env, rid, w, step, id);
    }
    StateSoundSame(rid, a.w, st.(stepIndex := step.index), st');
    if a.ok {
      SaveStateKeeps(env, rid, a.w, st');
      var b := SaveState(env, a.w, st');
      StateSoundStays(rid, a.w, b.w, st');
      CalmTransitive(w, a.w, b.w);
      forall id | id != st.approvalID ensures Untouched(w, b.w, id) {
        UntouchedTransitive(w, a.w, b.w, id);
      }
      if body.approval.Some? && body.approval.value.status != Pending {
        assert Carries(StoredStep(env.red, step), st.approvalID, false);
        SettledBy(b.w.steps, StoredStep(env.red, step), st.approvalID);
      }
    }
  }

  lemma BodySoundIs(rid: Id, w: World, st: RunState, body: Body)
    requires BodySound(rid, w, st, body)
    ensures body.approval.Some? ==> body.approval.value.id == st.approvalID && CloneRecord(body.approval.value) == body.approval.value
  {}

  lemma SettledBy(steps: seq<Step>, s: Step, id: Id)
    requires s in steps && Carries(s, id, false)
    ensures SettledInLog(steps, id)
  {}

  lemma StateSoundSame(rid: Id, w: World, a: RunState, b: RunState)
    requires StateSound(rid, w, a) && b.runID == a.runID && b.approvalID == a.approvalID && b.stepIndex == a.stepIndex
    ensures StateSound(rid, w, b)
  {}

  lemma StateSoundStays(rid: Id, a: World, b: World, st: RunState)
    requires StateSound(rid, a, st) && b.steps == a.steps && a.clock <= b.clock
    ensures StateSound(rid, b, st)
  {}

  lemma TransitionKeeps(env: Env, rid: Id, w: World, st: RunState, status: RunStatus, step: Step)
    requires Inv(rid, w) && StateSound(rid, w, st) && step.index == st.stepIndex
    ensures var t := Transition(env, w, st, status, step);
      && Inv(rid, t.w) && StateSound(rid, t.w, t.st) && Calm(w, t.w) && t.w.steps == w.steps
      && t.st.stepIndex == st.stepIndex && t.st.approvalID == st.approvalID
      && (forall id :: id != st.approvalID ==> Untouched(w, t.w, id))
  {
    hide Inv, Calm, SaveState, Log, StateSound, Untouched;
    var st' := st.(status := status, currentStep := step.kind, stepIndex := step.index, updatedAt := w.clock);
    StateSoundSame(rid, w, st, st');
    SaveStateKeeps(env, rid, w, st');
    var a := SaveState(env, w, st');
    var e := OfApproval(RunStateChanged, st'.approvalID);
    LogKeeps(env, rid, a.w, e);
    var after := Log(env, a.w, e);
    LogStore(env, a.w, e);
    CalmTransitive(w, a.w, after);
    StateSoundStays(rid, w, after, st');
    forall id | id != st.approvalID ensures Untouched(w, after, id) {
      UntouchedSame(w, a.w, after, id);
    }
  }

  /** The run log is no part of the durable store. */
  lemma LogStore(env: Env, w: World, e: Event)
    ensures var after := Log(env, w, e); after.steps == w.steps && after.run == w.run && w.clock <= after.clock
  {}

  lemma UntouchedSame(a: World, b: World, c: World, id: Id)
    requires Untouched(a, b, id) && c.steps == b.steps && c.run == b.run
    ensures Untouched(a, c, id)
  {}

  lemma FailKeeps(env: Env, rid: Id, w: World, st: RunState, cause: Cause)
    requires Inv(rid, w) && StateSound(rid, w, st)
    ensures var f := Abort(env, w, st, cause); Inv(rid, f.w) && Calm(w, f.w)
  {
    var st' := st.(error := cause);
    RecordStepKeeps(env, rid, w, st', Finalize, StepFailed, EMPTY.(error := cause));
    var r := RecordStep(env, w, st', Finalize, StepFailed, EMPTY.(error := cause));
    if r.ok { TransitionKeeps(env, rid, r.w, r.st, Failed, r.step); }
    var t := if r.ok then Transition(env, r.w, r.st, Failed, r.step) else At(r.w, r.st);
    CalmTransitive(w, r.w, t.w);
    LogKeeps(env, rid, t.w, Plain(RunFailed).(cause := cause));
    CalmTransitive(w, t.w, Fail(env, w, st, cause).w);
  }

  /** A recorded step without news about an approval, and the transition after it. */
  lemma StageKeeps(env: Env, rid: Id, w: World, st: RunState, kind: StepKind, status: StepStatus, body: Body, next: RunStatus)
    requires Inv(rid, w) && StateSound(rid, w, st) && BodySound(rid, w, st, body)
    ensures var r := RecordStep(env, w, st, kind, status, body);
      if r.ok then
        var t := Transition(env, r.w, r.st, next, r.step);
        && Inv(rid, t.w) && StateSound(rid, t.w, t.st) && Calm(w, t.w) && t.st.approvalID == st.approvalID
        && t.st.stepIndex == r.step.index == st.stepIndex + 1
        && (forall id :: id != st.approvalID ==> Untouched(w, t.w, id))
        && (body.approval.Some? && body.approval.value.status != Pending ==> SettledInLog(t.w.steps, st.approvalID))
      else Inv(rid, r.w) && StateSound(rid, r.w, r.st) && Inv(rid, Abort(env, r.w, r.st, StoreFailed).w)
  {
    hide Inv, StateSound, BodySound, Calm, Untouched, SettledInLog;
    RecordStepKeeps(env, rid, w, st, kind, status, body);
    var r := RecordStep(env, w, st, kind, status, body);
    if r.ok {
      TransitionKeeps(env, rid, r.w, r.st, next, r.step);
      var t := Transition(env, r.w, r.st, next, r.step);
      CalmTransitive(w, r.w, t.w);
      forall id | id != st.approvalID ensures Untouched(w, t.w, id) {
        UntouchedTransitive(w, r.w, t.w, id);
      }
    } else {
      FailKeeps(env, rid, r.w, r.st, StoreFailed);
    }
  }

  lemma AssistantKeeps(env: Env, rid: Id, w: World, st: RunState)
    requires Inv(rid, w) && StateSound(rid, w, st)
    ensures var m := PersistAssistant(env, w);
      && Inv(rid, m.w) && StateSound(rid, m.w, st) && Calm(w, m.w) && m.w.steps == w.steps
      && Inv(rid, Abort(env, m.w, st, MessageFailed).w)
  {
    hide Inv, Calm, StateSound, Abort, Log;
    TickKeeps(env, rid, w);
    var t := Tick(env, w);
    var e := Plain(AssistantMessage);
    LogKeeps(env, rid, t, e);
    LogStore(env, t, e);
    CalmTransitive(w, t, Log(env, t, e));
    StateSoundStays(rid, w, PersistAssistant(env, w).w, st);
    FailKeeps(env, rid, PersistAssistant(env, w).w, st, MessageFailed);
  }

  lemma CompleteKeeps(env: Env, rid: Id, w: World, st: RunState)
    requires Inv(rid, w) && StateSound(rid, w, st)
    ensures Inv(rid, Complete(env, w, st).w)
  {
    StageKeeps(env, rid, w, st, Summarize, StepCompleted, EMPTY, Summarizing);
    var r := RecordStep(env, w, st, Summarize, StepCompleted, EMPTY);
    if r.ok {
      var t := Transition(env, r.w, r.st, Summarizing, r.step);
      AssistantKeeps(env, rid, t.w, t.st);
      var m := PersistAssistant(env, t.w);
      if m.ok {
        StageKeeps(env, rid, m.w, t.st, Finalize, StepCompleted, EMPTY, Completed);
        var f := RecordStep(env, m.w, t.st, Finalize, StepCompleted, EMPTY);
        if f.ok {
          LogKeeps(env, rid, Transition(env, f.w, f.st, Completed, f.step).w, Plain(RunCompleted));
        }
      }
    }
  }

  // ---------- the router ----------

  ghost predicate MayExecute(w: World, p: Proposal, id: Id)
  {
    if id == NO_ID then
      AutoDecided(w.trace, p.id, p.tool) && CloneMap(p.input) == LastDecision(w.trace).value.input
    else
      && ApprovedFor(w.trace, id, p.id, p.tool)
      && CloneMap(p.input) == CreatedIn(w.trace)[id].snapshot && HashVerifies(CreatedIn(w.trace)[id])
      && Executions(w.trace, id) == 0 && SettledInLog(w.steps, id) && LogSays(w.steps, id, Approved)
  }

  /** The start of an execution may be logged when something entitles the program to it. */
  lemma StartedKeeps(env: Env, rid: Id, w: World, e: Event)
    requires Inv(rid, w) && (!w.dead ==> Justified(w.trace, Logged(e)))
    ensures var after := Log(env, w, e); Inv(rid, after) && Calm(w, after) && after.steps == w.steps && (w.dead ==> after == w)
  {
    hide Inv, Justified;
    TickKeeps(env, rid, w);
    var t := Tick(env, w);
    InvMediated(rid, t);
    if env.eventOk(w.clock) && !t.dead {
      AppendUnfolds(t.trace, Logged(e));
      assert Mediated(t.trace + [Logged(e)]);
      hide Mediated;
      InvStays(rid, t, Note(t, Logged(e)));
    } else {
      NoteKeeps(rid, t, Lost(e));
    }
  }

  /** The policy has answered: that is now its last answer. */
  lemma DecidedKeeps(rid: Id, w: World, p: Proposal, d: Decision)
    requires Inv(rid, w)
    ensures var after := Note(w, DecidedOn(p, d));
      && Inv(rid, after) && after.steps == w.steps && after.clock == w.clock && (w.dead ==> after == w)
      && (!w.dead ==> LastDecision(after.trace) == Some(DecidedOn(p, d)))
  {
    var act := DecidedOn(p, d);
    hide CloneMap, CreatedIn, ApprovedIn, Executions, LastDecision, Mediated, SettledInLog, LogSays, HashMap, Genuine;
    if !w.dead {
      DecidedStory(w.trace, act);
      var after := Note(w, act);
      SoundStays(rid, w, after);
      hide CreatedSound, LogSound, CenterSound, Justified, StateSound;
      assert Mediated(after.trace);
    }
  }

  lemma DecidedStory(trace: seq<Act>, act: Act)
    requires act.Decided?
    ensures CreatedIn(trace + [act]) == CreatedIn(trace) && LastDecision(trace + [act]) == Some(act)
    ensures forall x :: ApprovedIn(trace + [act], x) == ApprovedIn(trace, x)
    ensures forall x :: Executions(trace + [act], x) == Executions(trace, x)
    ensures Mediated(trace) ==> Mediated(trace + [act])
  {
    AppendUnfolds(trace, act);
  }

  /** The executor is called: the approval it rests on, if any, is now used up. */
  lemma ExecutedKeeps(rid: Id, w: World, p: Proposal, id: Id)
    requires Inv(rid, w) && (!w.dead ==> MayExecute(w, p, id))
    ensures Inv(rid, Note(w, Executed(p.id, p.tool, CloneMap(p.input), id)))
  {
    var act := Executed(p.id, p.tool, CloneMap(p.input), id);
    if !w.dead {
      ExecutedStory(w.trace, act);
      MayIsJustified(w, p, id);
      var after := Note(w, act);
      SoundStays(rid, w, after);
      hide CreatedSound, LogSound, CenterSound, Justified, CloneMap, Executions, StateSound, MayExecute;
      assert Mediated(after.trace);
    }
  }

  /** As long as the same approvals were created and approved, the stores stay sound. */
  lemma SoundStays(rid: Id, w: World, after: World)
    requires Inv(rid, w) && after == w.(trace := after.trace) && CreatedIn(after.trace) == CreatedIn(w.trace)
    requires forall x :: ApprovedIn(after.trace, x) == ApprovedIn(w.trace, x)
    ensures CreatedSound(rid, after.clock, after.trace) && LogSound(rid, after.clock, after.trace, after.steps) && CenterSound(rid, after)
    ensures after.run.Some? ==> StateSound(rid, after, after.run.value)
  {
    hide CreatedIn, ApprovedIn, CloneMap, HashMap, SettledInLog, LogSays, Mediated, Executions;
    forall x | x in w.steps ensures StepSound(rid, after.clock, after.trace, x) {
      assert StepSound(rid, w.clock, w.trace, x);
    }
  }

  lemma ExecutedStory(trace: seq<Act>, act: Act)
    requires act.Executed?
    ensures CreatedIn(trace + [act]) == CreatedIn(trace)
    ensures forall x :: ApprovedIn(trace + [act], x) == ApprovedIn(trace, x)
    ensures forall x :: Executions(trace + [act], x) == Executions(trace, x) + (if x == act.approval then 1 else 0)
    ensures Mediated(trace) && Justified(trace, act) ==> Mediated(trace + [act])
  {
    AppendUnfolds(trace, act);
    hide Justified, LastDecision;
  }

  lemma MayIsJustified(w: World, p: Proposal, id: Id)
    requires MayExecute(w, p, id)
    ensures Justified(w.trace, Executed(p.id, p.tool, CloneMap(p.input), id))
    ensures id != NO_ID ==> Executions(w.trace, id) == 0 && SettledInLog(w.steps, id) && LogSays(w.steps, id, Approved)
  {
    hide AutoDecided, ApprovedFor, LastDecision, CreatedIn, Executions, HashVerifies, CloneMap;
  }

  lemma MayExecuteStays(a: World, b: World, p: Proposal, id: Id)
    requires MayExecute(a, p, id) && Calm(a, b) && b.steps == a.steps
    ensures MayExecute(b, p, id)
  {
    hide CreatedIn, ApprovedIn, Executions, LastDecision, SettledInLog, LogSays, CloneMap, HashVerifies, AutoExecutes;
  }

  lemma StartJustified(w: World, p: Proposal, id: Id)
    requires MayExecute(w, p, id)
    ensures Justified(w.trace, Logged(OfTool(EventToolStarted, p)))
  {
    hide CreatedIn, ApprovedIn, Executions, LastDecision, SettledInLog, LogSays, CloneMap, HashVerifies, AutoExecutes;
  }

  lemma ExecuteKeeps(env: Env, rid: Id, w: World, st: RunState, p: Proposal, id: Id)
    requires Inv(rid, w) && StateSound(rid, w, st) && (!w.dead ==> MayExecute(w, p, id))
    ensures var e := Execute(env, w, p, id); Inv(rid, e.w) && StateSound(rid, e.w, st) && e.w.steps == w.steps
  {
    hide Inv, Calm, StateSound, MayExecute, Justified, Log, CloneMap;
    if env.registered(p.tool) {
      if !w.dead { StartJustified(w, p, id); }
      var e := OfTool(EventToolStarted, p);
      StartedKeeps(env, rid, w, e);
      var started := Log(env, w, e);
      LogStore(env, w, e);
      TickKeeps(env, rid, started);
      var t := Tick(env, started);
      StateSoundStays(rid, w, t, st);
      if !t.dead {
        CalmTransitive(w, started, t);
        MayExecuteStays(w, t, p, id);
        ExecutedKeeps(rid, t, p, id);
        StateSoundStays(rid, t, Note(t, Executed(p.id, p.tool, CloneMap(p.input), id)), st);
        ReportKeeps(env, rid, Note(t, Executed(p.id, p.tool, CloneMap(p.input), id)), st, p, env.execute(started.clock, p.tool, CloneMap(p.input)));
      }
    }
  }

  /** The events after an execution. */
  lemma ReportKeeps(env: Env, rid: Id, w: World, st: RunState, p: Proposal, outcome: ExecOutcome)
    requires Inv(rid, w) && StateSound(rid, w, st)
    ensures var shown := if outcome.result.Some? then Log(env, w, OfTool(EventToolOutput, p)) else w;
      var done := Log(env, shown, OfTool(if outcome.failed then EventToolFailed else EventToolCompleted, p));
      Inv(rid, done) && StateSound(rid, done, st) && done.steps == w.steps
  {
    hide Inv, Calm, StateSound, Log;
    var shown := if outcome.result.Some? then Log(env, w, OfTool(EventToolOutput, p)) else w;
    LogKeeps(env, rid, w, OfTool(EventToolOutput, p));
    LogStore(env, w, OfTool(EventToolOutput, p));
    var e := OfTool(if outcome.failed then EventToolFailed else EventToolCompleted, p);
    LogKeeps(env, rid, shown, e);
    LogStore(env, shown, e);
    StateSoundStays(rid, w, Log(env, shown, e), st);
  }

  /** Create adds a pending record under a new id, which the log does not know yet. */
  lemma CreateKeeps(env: Env, rid: Id, w: World, st: RunState, p: Proposal, inference: Inference, decision: Decision)
    requires Inv(rid, w) && StateSound(rid, w, st)
    requires !w.dead ==> AskDecided(w.trace, p.id, p.tool) && CloneMap(p.input) == LastDecision(w.trace).value.input
    ensures var (c, record) := CreateApproval(env, w, rid, p, inference, decision);
      && Inv(rid, c) && StateSound(rid, c, st)
      && (record.Some? ==> Announced(rid, c, st, record.value))
  {
    hide Inv, CreatedIn, ApprovedIn, Executions, LastDecision, Mediated, CloneMap, HashMap, NormalizedInput, AutoExecutes;
    var draft := Draft(w.clock, rid, p, inference, decision);
    TickKeeps(env, rid, w);
    if !Tick(env, w).dead && draft.Some? {
      DraftIsSound(w.clock, rid, p, inference, decision);
      NormalizedOfCopy(p, draft.value.proposal.(input := CloneMap(p.input)));
      NewIdUnknown(rid, w);
      CreatedKeeps(rid, w, draft.value);
    }
  }

  /** Normalization starts from a copy, so normalizing a copy makes no difference. */
  lemma NormalizedOfCopy(p: Proposal, q: Proposal)
    requires q.tool == p.tool && q.input == CloneMap(p.input)
    ensures NormalizedInput(q) == NormalizedInput(p)
  {
    CloneIdempotent(p.input);
  }

  lemma CreatedKeeps(rid: Id, w: World, draft: Record)
    requires Inv(rid, w) && !w.dead
    requires draft.id == w.clock && draft.runID == rid && draft.status == Pending && draft.reason == ""
    requires HashVerifies(draft) && HashVerifies(CloneRecord(draft)) && CloneRecord(CloneRecord(draft)) == CloneRecord(draft)
    requires Justified(w.trace, Created(CloneRecord(draft)))
    ensures var c := w.(clock := w.clock + 1, approvals := w.approvals[w.clock := draft], trace := w.trace + [Created(CloneRecord(draft))]);
      Inv(rid, c) && Genuine(c.trace, CloneRecord(draft))
  {
    var record := CloneRecord(draft);
    var trace := w.trace + [Created(record)];
    CreatedStory(w.trace, record);
    NewIdUnknown(rid, w);
    hide CreatedIn, ApprovedIn, Executions, LastDecision, Mediated, CloneMap, HashMap, SettledInLog, LogSays, Justified;
    GenuineGrows(w.trace, record);
    LogSoundStays(rid, w.clock, w.trace, trace, w.steps);
    hide LogSound, Genuine;
    var c := w.(clock := w.clock + 1, approvals := w.approvals[w.clock := draft], trace := trace);
    NewRecordSound(c, draft);
    CenterPuts(rid, w, c, w.clock);
    hide CenterSound;
  }

  /** Creating an approval under a new id leaves the others as they were. */
  lemma GenuineGrows(trace: seq<Act>, record: Record)
    requires record.id !in CreatedIn(trace)
    ensures forall r: Record :: Genuine(trace, r) ==> Genuine(trace + [Created(record)], r)
  {
    CreatedStory(trace, record);
    hide CreatedIn, ApprovedIn, CloneMap;
  }

  lemma LogSoundStays(rid: Id, clock: nat, trace: seq<Act>, after: seq<Act>, steps: seq<Step>)
    requires LogSound(rid, clock, trace, steps) && forall r: Record :: Genuine(trace, r) ==> Genuine(after, r)
    ensures LogSound(rid, clock + 1, after, steps)
  {
    hide Genuine, LogSays, Carries;
    forall s | s in steps ensures StepSound(rid, clock + 1, after, s) {
      assert StepSound(rid, clock, trace, s);
    }
  }

  lemma NewRecordSound(w: World, draft: Record)
    requires draft.id in w.approvals && w.approvals[draft.id] == draft && draft.status == Pending && draft.reason == ""
    requires CloneRecord(CloneRecord(draft)) == CloneRecord(draft) && HashVerifies(draft) && !SettledInLog(w.steps, draft.id)
    requires draft.id in CreatedIn(w.trace) && CreatedIn(w.trace)[draft.id] == CloneRecord(draft)
    ensures RecordSound(w, draft.id) && Genuine(w.trace, CloneRecord(draft))
  {
    hide CreatedIn, ApprovedIn, CloneMap, HashMap, SettledInLog;
  }

  /** Storing one record of this run that fits leaves the store sound. */
  lemma CenterPuts(rid: Id, w: World, after: World, id: Id)
    requires CenterSound(rid, w) && w.clock <= after.clock && after.steps == w.steps
    requires 0 < id < after.clock && id in after.approvals && after.approvals == w.approvals[id := after.approvals[id]]
    requires after.approvals[id].runID == rid && RecordSound(after, id)
    requires forall x :: x != id && x in CreatedIn(after.trace) ==> x in CreatedIn(w.trace)
    requires forall r: Record :: Genuine(w.trace, r) && r.id != id ==> Genuine(after.trace, r)
    ensures CenterSound(rid, after)
  {
    hide CreatedIn, SettledInLog, LogSays, Genuine, HashVerifies;
    forall x | x in after.approvals && after.approvals[x].runID == rid ensures RecordSound(after, x) {
      if x != id { assert RecordSound(w, x); }
    }
  }

  lemma CreatedStory(trace: seq<Act>, record: Record)
    ensures var after := trace + [Created(record)];
      && CreatedIn(after) == CreatedIn(trace)[record.id := record]
      && (forall id :: ApprovedIn(after, id) == ApprovedIn(trace, id))
      && (forall id :: Executions(after, id) == Executions(trace, id))
      && (Mediated(trace) && Justified(trace, Created(record)) ==> Mediated(after))
  {
    AppendUnfolds(trace, Created(record));
    hide Justified;
  }

  /** Nothing in the log or in the durable state mentions the next id. */
  lemma NewIdUnknown(rid: Id, w: World)
    requires Inv(rid, w)
    ensures w.clock !in CreatedIn(w.trace) && w.clock !in w.approvals
    ensures forall s :: s in w.steps && s.approval.Some? ==> s.approval.value.id < w.clock
    ensures !SettledInLog(w.steps, w.clock)
    ensures w.run.Some? ==> w.run.value.approvalID != w.clock
  {
    forall s | s in w.steps && s.approval.Some? ensures s.approval.value.id < w.clock {
      assert StepSound(rid, w.clock, w.trace, s);
    }
  }

  lemma LogKeepsState(env: Env, rid: Id, w: World, st: RunState, e: Event)
    requires Inv(rid, w) && StateSound(rid, w, st) && e.kind != EventToolStarted
    ensures Inv(rid, Log(env, w, e)) && StateSound(rid, Log(env, w, e), st)
    ensures LastDecision(Log(env, w, e).trace) == LastDecision(w.trace) && (w.dead ==> Log(env, w, e) == w)
  {
    hide Inv;
    LogKeeps(env, rid, w, e);
    StateSoundStays(rid, w, Log(env, w, e), st);
  }

  lemma LogKeepsAnnounced(env: Env, rid: Id, w: World, st: RunState, record: Record)
    requires Inv(rid, w) && Announced(rid, w, st, record)
    ensures Announced(rid, Log(env, w, OfApproval(EventApprovalRequested, record.id)), st, record)
  {
    hide Inv, Announced, Calm;
    var e := OfApproval(EventApprovalRequested, record.id);
    LogKeeps(env, rid, w, e);
    AnnouncedStays(rid, w, Log(env, w, e), st, st, record);
  }

  /** A decision entitles the router to ask, or to execute. */
  lemma DecisionEntitles(w: World, p: Proposal, decision: Decision)
    requires LastDecision(w.trace) == Some(DecidedOn(p, decision))
    ensures CloneMap(p.input) == LastDecision(w.trace).value.input
    ensures decision.requiresApproval ==> AskDecided(w.trace, p.id, p.tool)
    ensures !decision.requiresApproval && decision.allowed ==> MayExecute(w, p, NO_ID)
  {
    hide LastDecision, CloneMap;
  }

  lemma DispatchKeeps(env: Env, rid: Id, w: World, st: RunState, p: Proposal, inference: Inference, decision: Decision)
    requires Inv(rid, w) && StateSound(rid, w, st)
    requires !w.dead ==> LastDecision(w.trace) == Some(DecidedOn(p, decision))
    ensures var r := Dispatch(env, w, rid, p, inference, decision);
      && Inv(rid, r.w) && StateSound(rid, r.w, st)
      && (r.approval.Some? ==> Announced(rid, r.w, st, r.approval.value))
  {
    if !w.dead { DecisionEntitles(w, p, decision); }
    hide Inv, StateSound, Announced, AskDecided, LastDecision, MayExecute, CloneMap, CreateApproval, Execute, Log;
    if decision.requiresApproval {
      CreateKeeps(env, rid, w, st, p, inference, decision);
      var (c, record) := CreateApproval(env, w, rid, p, inference, decision);
      if record.Some? {
        LogKeepsState(env, rid, c, st, OfApproval(EventApprovalRequested, record.value.id));
        LogKeepsAnnounced(env, rid, c, st, record.value);
      }
    } else if !decision.allowed {
      LogKeepsState(env, rid, w, st, OfTool(EventPolicyDenied, p).(decision := Some(decision)));
    } else {
      ExecuteKeeps(env, rid, w, st, p, NO_ID);
    }
  }

  lemma ProposeKeeps(env: Env, rid: Id, w: World, st: RunState, p: Proposal)
    requires Inv(rid, w) && StateSound(rid, w, st)
    ensures var r := Propose(env, w, rid, p);
      && Inv(rid, r.w) && StateSound(rid, r.w, st)
      && (r.approval.Some? ==> Announced(rid, r.w, st, r.approval.value))
  {
    hide Inv, StateSound, LastDecision, CloneMap, Decide, Announced, Dispatch, Log, Calm;
    var first := OfTool(EventToolProposed, p).(input := CloneMap(p.input));
    LogKeepsState(env, rid, w, st, first);
    var proposed := Log(env, w, first);
    TickKeeps(env, rid, proposed);
    var t := Tick(env, proposed);
    StateSoundStays(rid, proposed, t, st);
    var inferred := env.infer(proposed.clock, p);
    if !t.dead && inferred.Some? {
      LogKeepsState(env, rid, t, st, OfTool(EventEffectInferred, p));
      var told := Log(env, t, OfTool(EventEffectInferred, p));
      var decision := Decide(env.policy, p, inferred.value);
      DecidedKeeps(rid, told, p, decision);
      var answered := Note(told, DecidedOn(p, decision));
      StateSoundStays(rid, told, answered, st);
      LogKeepsState(env, rid, answered, st, OfTool(EventPolicyDecided, p).(decision := Some(decision)));
      var decided := Log(env, answered, OfTool(EventPolicyDecided, p).(decision := Some(decision)));
      DispatchKeeps(env, rid, decided, st, p, inferred.value, decision);
    }
  }

  // ---------- the planning loop ----------

  ghost predicate TurnSound(rid: Id, t: Turn)
  {
    match t
    case Halt(out) => Inv(rid, out.w)
    case Again(w, st, _) => Inv(rid, w) && StateSound(rid, w, st)
  }

  lemma PauseKeeps(env: Env, rid: Id, w: World, st: RunState, record: Record)
    requires Inv(rid, w) && StateSound(rid, w, st.(approvalID := record.id))
    requires BodySound(rid, w, st.(approvalID := record.id), EMPTY.(approval := Some(record)))
    ensures TurnSound(rid, Pause(env, w, st, record))
  {
    hide Inv, StateSound, Calm, Untouched, RecordStep, Transition, Abort, PersistAssistant, Log, SettledInLog;
    var st1 := st.(approvalID := record.id);
    var body := Body(st.proposal, Some(CloneRecord(record)), None, NoError);
    assert BodySound(rid, w, st1, body) by { hide Genuine; }
    hide BodySound, CloneRecord;
    StageKeeps(env, rid, w, st1, RequestApproval, StepPaused, body, ApprovalRequested);
    var r := RecordStep(env, w, st1, RequestApproval, StepPaused, body);
    if r.ok {
      var t := Transition(env, r.w, r.st, ApprovalRequested, r.step);
      var act := Streamed(OfApproval(EventApprovalRequested, record.id));
      NoteKeeps(rid, t.w, act);
      var shown := Note(t.w, act);
      NoteSteps(t.w, act);
      StateSoundStays(rid, t.w, shown, t.st);
      TransitionKeeps(env, rid, shown, t.st, PausedForApproval, r.step);
      var p := Transition(env, shown, t.st, PausedForApproval, r.step);
      AssistantKeeps(env, rid, p.w, p.st);
      var m := PersistAssistant(env, p.w);
      if m.ok { LogKeeps(env, rid, m.w, OfApproval(RunPaused, record.id)); }
    }
  }

  lemma FinishKeeps(env: Env, rid: Id, w: World, st: RunState, proposal: Proposal, result: Option<ToolResult>)
    requires Inv(rid, w) && StateSound(rid, w, st)
    ensures TurnSound(rid, Finish(env, w, st, proposal, result))
  {
    hide Inv, StateSound, Calm, Untouched, RecordStep, Transition, Abort;
    var failed := result.Some? && result.value.error != "";
    var cause := if failed then ToolError(result.value.error) else NoError;
    var status := if failed then StepFailed else StepCompleted;
    var body := Body(Some(proposal), None, result, cause);
    StageKeeps(env, rid, w, st, ExecuteTool, status, body, ToolExecuting);
    var r := RecordStep(env, w, st, ExecuteTool, status, body);
    if r.ok {
      var t := Transition(env, r.w, r.st, ToolExecuting, r.step);
      var st' := if failed then t.st.(toolResult := result, error := cause) else t.st.(toolResult := result);
      var next := if failed then ToolFailed else ToolCompleted;
      StateSoundSame(rid, t.w, t.st, st');
      TransitionKeeps(env, rid, t.w, st', next, r.step);
      var u := Transition(env, t.w, st', next, r.step);
      NoteKeeps(rid, u.w, Streamed(Plain(EventToolOutput)));
      NoteSteps(u.w, Streamed(Plain(EventToolOutput)));
      StateSoundStays(rid, u.w, Note(u.w, Streamed(Plain(EventToolOutput))), u.st);
    }
  }

  /** A pending approval that the log and the durable state have not heard of yet. */
  ghost predicate Announced(rid: Id, w: World, st: RunState, record: Record)
  {
    && st.approvalID != record.id && record.status == Pending
    && BodySound(rid, w, st.(approvalID := record.id), EMPTY.(approval := Some(record)))
    && StateSound(rid, w, st.(approvalID := record.id))
  }

  lemma AnnouncedStays(rid: Id, a: World, b: World, st: RunState, st': RunState, record: Record)
    requires Announced(rid, a, st, record) && Calm(a, b) && Untouched(a, b, record.id)
    requires st'.runID == st.runID && st'.approvalID == st.approvalID && st.stepIndex <= st'.stepIndex
    ensures Announced(rid, b, st', record)
  {
    assert forall s :: s in b.steps && Carries(s, record.id, false) ==> s in a.steps;
    assert forall s :: s in b.steps && Carries(s, record.id, true) ==> s in a.steps;
  }

  lemma AfterRoutingKeeps(env: Env, rid: Id, routed: Routed, st: RunState, proposal: Proposal)
    requires Inv(rid, routed.w) && StateSound(rid, routed.w, st)
    requires routed.approval.Some? ==> Announced(rid, routed.w, st, routed.approval.value)
    ensures TurnSound(rid, AfterRouting(env, routed, st, proposal))
  {
    hide Inv, StateSound, Announced, Calm, Untouched;
    var body := EMPTY.(proposal := Some(proposal));
    StageKeeps(env, rid, routed.w, st, InferEffect, StepCompleted, body, EffectInferred);
    var r := RecordStep(env, routed.w, st, InferEffect, StepCompleted, body);
    if r.ok {
      var t := Transition(env, r.w, r.st, EffectInferred, r.step);
      StageKeeps(env, rid, t.w, t.st, DecidePolicy, StepCompleted, body, PolicyDecided);
      var d := RecordStep(env, t.w, t.st, DecidePolicy, StepCompleted, body);
      if d.ok {
        var u := Transition(env, d.w, d.st, PolicyDecided, d.step);
        if routed.approval.Some? {
          var record := routed.approval.value;
          AnnouncedIs(rid, routed.w, st, record);
          AnnouncedStays(rid, routed.w, t.w, st, t.st, record);
          AnnouncedIs(rid, t.w, t.st, record);
          AnnouncedStays(rid, t.w, u.w, t.st, u.st, record);
          AnnouncedIs(rid, u.w, u.st, record);
          PauseKeeps(env, rid, u.w, u.st, record);
        } else {
          FinishKeeps(env, rid, u.w, u.st, proposal, routed.result);
        }
      }
    }
  }

  lemma AnnouncedIs(rid: Id, w: World, st: RunState, record: Record)
    requires Announced(rid, w, st, record)
    ensures st.approvalID != record.id
    ensures BodySound(rid, w, st.(approvalID := record.id), EMPTY.(approval := Some(record)))
    ensures StateSound(rid, w, st.(approvalID := record.id))
  {}

  lemma UseToolKeeps(env: Env, rid: Id, w: World, st: RunState, p: Proposal)
    requires Inv(rid, w) && StateSound(rid, w, st)
    ensures TurnSound(rid, UseTool(env, w, st, p))
  {
    hide Inv, Announced, Propose, AfterRouting, Calm, Untouched;
    var proposal := CloneProposal(p);
    var body := EMPTY.(proposal := Some(proposal));
    var st1 := st.(proposal := Some(proposal));
    StageKeeps(env, rid, w, st1, ProposeTool, StepCompleted, body, ToolProposed);
    var r := RecordStep(env, w, st1, ProposeTool, StepCompleted, body);
    if r.ok {
      var t := Transition(env, r.w, r.st, ToolProposed, r.step);
      ProposeKeeps(env, rid, t.w, t.st, p);
      var routed := Propose(env, t.w, st.runID, p);
      if routed.ok {
        AfterRoutingKeeps(env, rid, routed, t.st, proposal);
      } else {
        FailKeeps(env, rid, routed.w, t.st, RouterFailed);
      }
    }
  }

  lemma FollowKeeps(env: Env, rid: Id, w: World, st: RunState, last: Option<ToolResult>, plan: Plan)
    requires Inv(rid, w) && StateSound(rid, w, st)
    ensures TurnSound(rid, Follow(env, w, st, last, plan))
  {
    hide Inv, Complete, UseTool, Abort, Calm, Untouched;
    match plan.decision
    case DecideContinue =>
      StageKeeps(env, rid, w, st, ContinueStep, StepCompleted, EMPTY, PlanMade);
    case DecideAnswer =>
      TickKeeps(env, rid, w);
      FailKeeps(env, rid, Tick(env, w), st, RunnerFailed);
      CompleteKeeps(env, rid, Tick(env, w), st);
      CompleteKeeps(env, rid, w, st);
    case DecideStop =>
      CompleteKeeps(env, rid, w, st);
    case DecideTool =>
      if plan.proposal.None? {
        FailKeeps(env, rid, w, st, MissingProposal);
      } else {
        UseToolKeeps(env, rid, w, st, plan.proposal.value);
      }
    case _ =>
      FailKeeps(env, rid, w, st, UnsupportedDecision);
  }

  lemma TurnoverKeeps(env: Env, rid: Id, w: World, st0: RunState, last: Option<ToolResult>)
    requires Inv(rid, w) && StateSound(rid, w, st0)
    ensures TurnSound(rid, Turnover(env, w, st0, last))
  {
    hide Inv, StateSound, Follow, Abort, Calm, Untouched, NormalizePlan, RecordStep, Transition;
    var st := st0.(stepCount := st0.stepCount + 1);
    var input := PlanInputOf(st, last);
    TickKeeps(env, rid, w);
    var t := Tick(env, w);
    NoteKeeps(rid, t, PlannerCalled(input));
    var called := Note(t, PlannerCalled(input));
    StateSoundSame(rid, w, st0, st);
    StateSoundStays(rid, w, called, st);
    var answer := env.plan(w.clock, input);
    if t.dead || answer.None? {
      FailKeeps(env, rid, called, st, PlannerFailed);
    } else {
      var plan := NormalizePlan(answer.value, last);
      StageKeeps(env, rid, called, st, PlanStep, StepCompleted, PlanBody(plan), PlanMade);
      var r := RecordStep(env, called, st, PlanStep, StepCompleted, PlanBody(plan));
      if r.ok {
        var u := Transition(env, r.w, r.st, PlanMade, r.step);
        LogKeeps(env, rid, u.w, Plain(AssistantDelta));
        StateSoundStays(rid, u.w, Log(env, u.w, Plain(AssistantDelta)), u.st);
        FollowKeeps(env, rid, if plan.preamble then Log(env, u.w, Plain(AssistantDelta)) else u.w, u.st, last, plan);
      }
    }
  }

  lemma {:induction false} ContinueKeeps(env: Env, rid: Id, w: World, st: RunState, last: Option<ToolResult>)
    requires Inv(rid, w) && StateSound(rid, w, st)
    ensures Inv(rid, ContinueRun(env, w, st, last).w)
    decreases st.maxSteps - st.stepCount
  {
    hide Inv, StateSound, Turnover, Abort;
    if st.stepCount >= st.maxSteps {
      FailKeeps(env, rid, w, st, MaxStepsExceeded);
    } else {
      TurnoverKeeps(env, rid, w, st, last);
      match Turnover(env, w, st, last)
      case Halt(_) =>
      case Again(w', st', last') => ContinueKeeps(env, rid, w', st', last');
    }
  }

  // ---------- the calls ----------

  lemma GenesisKeeps(env: Env, setup: Setup, st: RunState)
    requires Fresh(setup) && st == InitialState(setup.rid, setup.message, Budget(setup.configured), setup.clock)
    ensures Inv(setup.rid, Genesis(setup))
    ensures var s := SaveState(env, Genesis(setup), st); Inv(setup.rid, s.w) && StateSound(setup.rid, s.w, st)
  {
    assert Inv(setup.rid, Genesis(setup));
    SaveStateKeeps(env, setup.rid, Genesis(setup), st);
  }

  lemma StartKeeps(env: Env, setup: Setup)
    requires Fresh(setup)
    ensures Inv(setup.rid, StartRun(env, Genesis(setup), setup.rid, setup.message, setup.configured).w)
  {
    hide Inv, ContinueRun, Abort, Calm, Untouched, SaveState, Genesis, RecordStep, Transition;
    var rid, w := setup.rid, Genesis(setup);
    GenesisClock(setup);
    var st := InitialState(rid, setup.message, Budget(setup.configured), w.clock);
    GenesisKeeps(env, setup, st);
    var s := SaveState(env, w, st);
    if s.ok {
      LogKeeps(env, rid, s.w, Plain(RunStarted));
      var started := Log(env, s.w, Plain(RunStarted));
      TickKeeps(env, rid, started);
      var m := Tick(env, started);
      TickKeeps(env, rid, m);
      var t := Tick(env, m);
      FailKeeps(env, rid, t, st, ContextFailed);
      var built := env.context(m.clock);
      if !t.dead && built.Some? {
        var st1 := st.(context := built.value);
        StageKeeps(env, rid, t, st1, BuildContext, StepCompleted, EMPTY, ContextBuilt);
        var r := RecordStep(env, t, st1, BuildContext, StepCompleted, EMPTY);
        if r.ok {
          var c := Transition(env, r.w, r.st, ContextBuilt, r.step);
          ContinueKeeps(env, rid, c.w, c.st, None);
        }
      }
    }
  }

  lemma GenesisClock(setup: Setup)
    ensures Genesis(setup).clock == setup.clock && !Genesis(setup).dead
  {}

  /** The last listed carrier of an approval is at the highest index that mentions it, so a pending one
      means that the log holds no resolved one. */
  lemma LatestSound(rid: Id, clock: nat, trace: seq<Act>, steps: seq<Step>, id: Id)
    requires LogSound(rid, clock, trace, steps) && LatestApproval(steps, id).Some?
    ensures var r := LatestApproval(steps, id).value;
      && r.id == id && r.runID == rid && CloneRecord(r) == r && Genuine(trace, r)
      && (if r.status == Pending then !SettledInLog(steps, id) else LogSays(steps, id, r.status))
  {
    var k := LatestAt(steps, id);
    assert StepSound(rid, clock, trace, steps[k]);
    assert steps[k].approval.value.status != Pending ==> Carries(steps[k], id, false);
    if steps[k].approval.value.status == Pending {
      forall s | s in steps ensures !Carries(s, id, false) {
        var j :| 0 <= j < |steps| && steps[j] == s;
        if j <= k {
          assert steps[j].index <= steps[k].index;
          assert Carries(steps[k], id, true);
        }
      }
    }
  }

  lemma LatestAt(steps: seq<Step>, id: Id) returns (k: nat)
    requires LatestApproval(steps, id).Some?
    ensures k < |steps| && steps[k].approval == LatestApproval(steps, id)
    ensures steps[k].approval.value.id == id
    ensures forall j :: k < j < |steps| && steps[j].approval.Some? ==> steps[j].approval.value.id != id
  {
    var last := steps[|steps| - 1];
    if last.approval.Some? && last.approval.value.id == id {
      k := |steps| - 1;
    } else {
      k := LatestAt(steps[..|steps| - 1], id);
    }
  }

  lemma HydrateKeeps(rid: Id, w: World, st: RunState, id: Id)
    requires Inv(rid, w) && StateSound(rid, w, st)
    ensures var (h, approval) := HydrateApproval(w, id);
      && Inv(rid, h) && StateSound(rid, h, st) && h.steps == w.steps && h.trace == w.trace
      && (approval.Some? && approval.value.runID == rid ==>
            id in h.approvals && h.approvals[id].runID == rid && approval.value.id == id && approval.value == CloneRecord(h.approvals[id]))
  {
    hide CreatedIn, ApprovedIn, Executions, Mediated, CloneMap, HashMap, SettledInLog, LogSays, LogSound;
    if !w.dead && id !in w.approvals && LatestApproval(w.steps, id).Some? {
      LatestSound(rid, w.clock, w.trace, w.steps, id);
      var record := LatestApproval(w.steps, id).value;
      assert 0 < record.id < w.clock && HashVerifies(CreatedIn(w.trace)[record.id]);
      var h := HydrateApproval(w, id).0;
      assert RecordSound(h, id);
      CenterPuts(rid, w, h, id);
      hide CenterSound, Genuine;
    }
  }

  /** A resolution entitles nothing by itself: it only adds to what has been approved. */
  lemma ResolvedStory(rid: Id, w: World, act: Act)
    requires Inv(rid, w) && act.ResolvedAs?
    ensures var trace := w.trace + [act];
      && CreatedIn(trace) == CreatedIn(w.trace)
      && (forall x :: ApprovedIn(trace, x) == (ApprovedIn(w.trace, x) || (x == act.approval && act.approve)))
      && (forall x :: Executions(trace, x) == Executions(w.trace, x))
      && Mediated(trace)
      && CreatedSound(rid, w.clock, trace) && LogSound(rid, w.clock, trace, w.steps)
  {
    AppendUnfolds(w.trace, act);
    var trace := w.trace + [act];
    assert Mediated(trace);
    assert CreatedIn(trace) == CreatedIn(w.trace);
    forall s | s in w.steps ensures StepSound(rid, w.clock, trace, s) {
      assert StepSound(rid, w.clock, w.trace, s);
    }
  }

  /** The record after its resolution is still the one that was created. */
  lemma ResolvedGenuine(trace: seq<Act>, before: seq<Act>, r: Record, approve: bool, reason: string)
    requires Genuine(before, r) && r.status == Pending
    requires CreatedIn(trace) == CreatedIn(before) && (approve ==> ApprovedIn(trace, r.id))
    ensures Genuine(trace, Resolved(r, approve, reason))
    ensures Genuine(trace, CloneRecord(Resolved(r, approve, reason)))
    ensures CloneRecord(CloneRecord(Resolved(r, approve, reason))) == CloneRecord(Resolved(r, approve, reason))
  {
    CloneIdempotent(r.snapshot);
    CloneIdempotent(r.proposal.input);
  }

  lemma ResolveKeeps(rid: Id, w: World, st: RunState, id: Id, approve: bool, reason: string)
    requires Inv(rid, w) && StateSound(rid, w, st) && st.approvalID == id
    ensures var (r, record) := ResolveApproval(w, id, approve, reason);
      && Inv(rid, r) && StateSound(rid, r, st) && r.steps == w.steps
      && (record.Some? && w.approvals[id].runID == rid ==> (
            && BodySound(rid, r, st, ApprovalBody(record.value)) && Executions(r.trace, id) == 0
            && id in r.approvals && r.approvals[id].runID == rid
            && r.approvals[id].status == (if approve then Approved else Rejected)))
  {
    hide CreatedIn, ApprovedIn, Executions, LastDecision, Mediated, CloneMap, HashMap, CreatedSound, LogSound, SettledInLog;
    var (r, record) := ResolveApproval(w, id, approve, reason);
    if record.Some? {
      ResolvedStory(rid, w, ResolvedAs(id, approve));
      var was := w.approvals[id];
      if was.runID == rid {
        Unsettled(w.steps, id, Resolved(was, approve, reason).status);
        ResolvedGenuine(r.trace, w.trace, was, approve, reason);
      }
      hide Genuine, LogSays;
      CenterResolves(rid, w, id, approve, reason);
      hide CenterSound;
    }
  }

  /** Settling one record leaves the others as they were. */
  lemma CenterResolves(rid: Id, w: World, id: Id, approve: bool, reason: string)
    requires CenterSound(rid, w) && Resolution(w.approvals, id, approve, reason).Some? && !w.dead
    requires var trace := w.trace + [ResolvedAs(id, approve)];
      && CreatedIn(trace) == CreatedIn(w.trace)
      && (forall x :: ApprovedIn(trace, x) == (ApprovedIn(w.trace, x) || (x == id && approve)))
    ensures CenterSound(rid, ResolveApproval(w, id, approve, reason).0)
  {
    hide CreatedIn, ApprovedIn, CloneMap, HashMap, SettledInLog, LogSays, Genuine;
    var r := ResolveApproval(w, id, approve, reason).0;
    var was := w.approvals[id];
    forall x | x in r.approvals && r.approvals[x].runID == rid ensures RecordSound(r, x) {
      assert RecordSound(w, x);
      if x == id {
        Unsettled(w.steps, id, Resolved(was, approve, reason).status);
        ResolvedGenuine(r.trace, w.trace, was, approve, reason);
      } else {
        GenuineStays(w.trace, r.trace, w.approvals[x]);
      }
    }
  }

  lemma GenuineStays(before: seq<Act>, after: seq<Act>, r: Record)
    requires Genuine(before, r) && CreatedIn(after) == CreatedIn(before)
    requires ApprovedIn(before, r.id) ==> ApprovedIn(after, r.id)
    ensures Genuine(after, r)
  {}

  /** The approval is approved in the store, settled in the log, and has not been used. */
  ghost predicate Cleared(rid: Id, w: World, id: Id)
  {
    && id != NO_ID && id in w.approvals && w.approvals[id].runID == rid && w.approvals[id].status == Approved
    && Executions(w.trace, id) == 0 && SettledInLog(w.steps, id)
  }

  lemma ClearedStays(rid: Id, a: World, b: World, id: Id)
    requires Cleared(rid, a, id) && Calm(a, b)
    ensures Cleared(rid, b, id)
  {}

  /** ExecuteApproved runs the snapshot whose hash was verified, and nothing else. */
  lemma ExecuteApprovedKeeps(env: Env, rid: Id, w: World, st: RunState, id: Id)
    requires Inv(rid, w) && StateSound(rid, w, st) && Cleared(rid, w, id)
    ensures var e := ExecuteApproved(env, w, id); Inv(rid, e.w) && StateSound(rid, e.w, st) && e.w.steps == w.steps
    ensures id in ExecuteApproved(env, w, id).w.approvals ==> ExecuteApproved(env, w, id).w.approvals[id].status == Approved
  {
    hide Execute, LastDecision, Executions, ApprovedIn, CreatedIn, Mediated, HashMap, SettledInLog, LogSound;
    var raw := w.approvals[id];
    var p := CloneRecord(raw).proposal.(input := CloneMap(CloneRecord(raw).snapshot));
    CloneIdempotent(raw.snapshot);
    assert MayExecute(w, p, id);
    ExecuteKeeps(env, rid, w, st, p, id);
    ExecuteApprovals(env, w, p, id);
  }

  /** Executing touches neither the approval store nor what has been created and approved. */
  lemma ExecuteApprovals(env: Env, w: World, p: Proposal, id: Id)
    ensures var e := Execute(env, w, p, id);
      && e.w.approvals == w.approvals && CreatedIn(e.w.trace) == CreatedIn(w.trace)
      && (forall x :: ApprovedIn(e.w.trace, x) == ApprovedIn(w.trace, x))
  {
    hide CreatedIn, ApprovedIn, Log, CloneMap;
    if env.registered(p.tool) {
      var started := Log(env, w, OfTool(EventToolStarted, p));
      LogStory(env, w, OfTool(EventToolStarted, p));
      var t := Tick(env, started);
      if !t.dead {
        var input := CloneMap(p.input);
        NoteStory(t, Executed(p.id, p.tool, input, id));
        var ran := Note(t, Executed(p.id, p.tool, input, id));
        LogStory(env, ran, OfTool(EventToolOutput, p));
        var outcome := env.execute(started.clock, p.tool, input);
        var shown := if outcome.result.Some? then Log(env, ran, OfTool(EventToolOutput, p)) else ran;
        LogStory(env, shown, OfTool(if outcome.failed then EventToolFailed else EventToolCompleted, p));
      }
    }
  }

  lemma LogStory(env: Env, w: World, e: Event)
    ensures CreatedIn(Log(env, w, e).trace) == CreatedIn(w.trace)
    ensures forall x :: ApprovedIn(Log(env, w, e).trace, x) == ApprovedIn(w.trace, x)
    ensures Log(env, w, e).approvals == w.approvals
  {
    NoteStory(Tick(env, w), Written(env, w.clock, e));
  }

  lemma NoteStory(w: World, act: Act)
    requires !act.Created? && !act.ResolvedAs?
    ensures CreatedIn(Note(w, act).trace) == CreatedIn(w.trace)
    ensures forall x :: ApprovedIn(Note(w, act).trace, x) == ApprovedIn(w.trace, x)
  {
    AppendUnfolds(w.trace, act);
  }

  /** What the run records about the approval after it has been settled. */
  ghost predicate MayMention(rid: Id, w: World, st: RunState, record: Record)
  {
    && st.approvalID == record.id && record.status != Pending
    && BodySound(rid, w, st, ApprovalBody(record))
  }

  lemma MentionStays(rid: Id, a: World, b: World, st: RunState, st': RunState, record: Record)
    requires MayMention(rid, a, st, record) && b.approvals == a.approvals
    requires CreatedIn(b.trace) == CreatedIn(a.trace) && forall x :: ApprovedIn(b.trace, x) == ApprovedIn(a.trace, x)
    requires st'.approvalID == st.approvalID
    ensures MayMention(rid, b, st', record)
  {
    hide CreatedIn, ApprovedIn, CloneMap, SettledInLog;
  }

  lemma MentionInBody(rid: Id, w: World, st: RunState, record: Record, body: Body)
    requires MayMention(rid, w, st, record) && body.approval == Some(CloneRecord(record))
    ensures BodySound(rid, w, st, body) && body.approval.value.status != Pending
  {
    hide CreatedIn, ApprovedIn, CloneMap, SettledInLog;
  }

  lemma MentionAfterRun(env: Env, rid: Id, w: World, st: RunState, record: Record)
    requires MayMention(rid, w, st, record)
    ensures MayMention(rid, ExecuteApproved(env, w, record.id).w, st, record)
  {
    hide MayMention;
    if record.id in w.approvals {
      var raw := CloneRecord(w.approvals[record.id]);
      var p := raw.proposal.(input := CloneMap(raw.snapshot));
      ExecuteApprovals(env, w, p, record.id);
      MentionStays(rid, w, Execute(env, w, p, record.id).w, st, st, record);
      hide Execute, CloneRecord, CloneMap, HashVerifies;
    }
    MentionStays(rid, w, w, st, st, record);
  }

  lemma AfterFailureKeeps(env: Env, rid: Id, w: World, st: RunState, body: Body)
    requires Inv(rid, w) && StateSound(rid, w, st) && BodySound(rid, w, st, body)
    ensures Inv(rid, AfterFailure(env, w, st, body).w)
  {
    hide Inv, StateSound, BodySound, Calm, Untouched, Abort;
    StageKeeps(env, rid, w, st, ExecuteTool, StepFailed, body, ToolFailed);
    var x := RecordStep(env, w, st, ExecuteTool, StepFailed, body);
    var y := if x.ok then Transition(env, x.w, x.st, ToolFailed, x.step) else At(x.w, x.st);
    FailKeeps(env, rid, y.w, y.st, RouterFailed);
  }

  lemma AfterSuccessKeeps(env: Env, rid: Id, w: World, st: RunState, body: Body, result: Option<ToolResult>)
    requires Inv(rid, w) && StateSound(rid, w, st) && BodySound(rid, w, st, body)
    ensures Inv(rid, AfterSuccess(env, w, st, body, result).w)
  {
    hide Inv, StateSound, BodySound, Calm, Untouched, Abort, ContinueRun;
    StageKeeps(env, rid, w, st, ExecuteTool, StepCompleted, body, ToolCompleted);
    var x := RecordStep(env, w, st, ExecuteTool, StepCompleted, body);
    if x.ok {
      var y := Transition(env, x.w, x.st, ToolCompleted, x.step);
      var act := Streamed(OfApproval(EventToolOutput, st.approvalID));
      NoteKeeps(rid, y.w, act);
      var shown := if result.Some? then Note(y.w, act) else y.w;
      StateSoundStays(rid, y.w, shown, y.st);
      NoIdSound(rid, shown, y.st);
      var cleared := y.st.(approvalID := NO_ID);
      SaveStateKeeps(env, rid, shown, cleared);
      var s := SaveState(env, shown, cleared);
      if s.ok {
        StateSoundStays(rid, shown, s.w, cleared);
        ContinueKeeps(env, rid, s.w, cleared, result);
      }
    }
  }

  lemma RunApprovedKeeps(env: Env, rid: Id, w: World, st: RunState, approval: Record, approved: Record)
    requires Inv(rid, w) && StateSound(rid, w, st) && Cleared(rid, w, approval.id) && MayMention(rid, w, st, approved)
    requires approved.id == approval.id
    ensures Inv(rid, RunApproved(env, w, st, approval, approved).w)
  {
    hide Inv, Cleared, MayMention, ExecuteApproved, StateSound, BodySound, AfterFailure, AfterSuccess;
    ExecuteApprovedKeeps(env, rid, w, st, approval.id);
    MentionAfterRun(env, rid, w, st, approved);
    var e := ExecuteApproved(env, w, approval.id);
    if !e.ok {
      var st1 := st.(error := RouterFailed);
      MentionStays(rid, e.w, e.w, st, st1, approved);
      MentionInBody(rid, e.w, st1, approved, ExecuteBody(approval, approved, None, RouterFailed));
      StateSoundSame(rid, e.w, st, st1);
      AfterFailureKeeps(env, rid, e.w, st1, ExecuteBody(approval, approved, None, RouterFailed));
    } else {
      var st1 := st.(toolResult := e.result);
      MentionStays(rid, e.w, e.w, st, st1, approved);
      MentionInBody(rid, e.w, st1, approved, ExecuteBody(approval, approved, e.result, NoError));
      StateSoundSame(rid, e.w, st, st1);
      AfterSuccessKeeps(env, rid, e.w, st1, ExecuteBody(approval, approved, e.result, NoError), e.result);
    }
  }

  /** No record bears the empty id. */
  lemma NoIdSound(rid: Id, w: World, st: RunState)
    requires Inv(rid, w) && StateSound(rid, w, st)
    ensures StateSound(rid, w, st.(approvalID := NO_ID))
  {
    forall s | s in w.steps ensures !Carries(s, NO_ID, true) {
      assert StepSound(rid, w.clock, w.trace, s);
    }
  }

  /** After a resolution the run may speak about the verdict; after an approval it is also cleared to run
      once the log has it. */
  lemma ResolveMentions(rid: Id, w: World, st: RunState, id: Id, approve: bool, reason: string)
    requires Inv(rid, w) && StateSound(rid, w, st) && st.approvalID == id
    requires id in w.approvals && w.approvals[id].runID == rid
    ensures var (r, record) := ResolveApproval(w, id, approve, reason);
      && Inv(rid, r) && StateSound(rid, r, st)
      && (record.Some? ==> (
            && MayMention(rid, r, st, record.value) && record.value.id == id != NO_ID
            && record.value.status == (if approve then Approved else Rejected)
            && id in r.approvals && r.approvals[id].runID == rid && r.approvals[id].status == record.value.status
            && Executions(r.trace, id) == 0))
  {
    hide Inv, StateSound, BodySound, Executions, ResolveApproval;
    ResolveKeeps(rid, w, st, id, approve, reason);
    CenterIs(rid, w, id);
    ResolvedRecord(w, id, approve, reason);
  }

  lemma ResolvedRecord(w: World, id: Id, approve: bool, reason: string)
    requires id in w.approvals && w.approvals[id].id == id
    ensures var (_, record) := ResolveApproval(w, id, approve, reason);
      record.Some? ==> record.value.id == id && record.value.status == (if approve then Approved else Rejected)
  {
    hide CloneMap;
  }

  lemma CenterIs(rid: Id, w: World, id: Id)
    requires Inv(rid, w) && id in w.approvals && w.approvals[id].runID == rid
    ensures w.approvals[id].id == id && id != NO_ID
  {}

  /** The verdict is in the log, and nothing has run since. */
  lemma NowCleared(rid: Id, a: World, b: World, id: Id)
    requires id != NO_ID && id in a.approvals && a.approvals[id].runID == rid && a.approvals[id].status == Approved
    requires Executions(a.trace, id) == 0 && Calm(a, b) && SettledInLog(b.steps, id)
    ensures Cleared(rid, b, id)
  {}

  lemma ApprovePausedKeeps(env: Env, rid: Id, w: World, st: RunState, approval: Record)
    requires Inv(rid, w) && StateSound(rid, w, st) && st.approvalID == approval.id
    requires approval.id in w.approvals && w.approvals[approval.id].runID == rid
    ensures Inv(rid, ApprovePaused(env, w, st, approval).w)
  {
    hide Inv, Cleared, MayMention, Calm, Untouched, StateSound, BodySound, SettledInLog, Executions;
    hide RunApproved, ResolveApproval, RecordStep, Transition, Abort;
    var id := approval.id;
    ResolveMentions(rid, w, st, id, true, "");
    var (w1, approved) := ResolveApproval(w, id, true, "");
    if approved.None? {
      FailKeeps(env, rid, w1, st, ResolveFailed);
    } else {
      var body := ApprovalBody(approved.value);
      MentionInBody(rid, w1, st, approved.value, body);
      StageKeeps(env, rid, w1, st, RequestApproval, StepCompleted, body, ApprovalApproved);
      var r := RecordStep(env, w1, st, RequestApproval, StepCompleted, body);
      if r.ok {
        var t := Transition(env, r.w, r.st, ApprovalApproved, r.step);
        CalmMention(rid, w1, t.w, st, t.st, approved.value);
        NowCleared(rid, w1, t.w, id);
        ClearedKeeps(env, rid, t.w, t.st, r.step, approval, approved.value);
      }
    }
  }

  lemma ClearedKeeps(env: Env, rid: Id, w: World, st: RunState, step: Step, approval: Record, approved: Record)
    requires Inv(rid, w) && StateSound(rid, w, st) && step.index == st.stepIndex && approved.id == approval.id
    requires Cleared(rid, w, approval.id) && MayMention(rid, w, st, approved)
    ensures var u := Transition(env, Log(env, w, OfApproval(EventApprovalApproved, approval.id)), st, ToolExecuting, step);
      Inv(rid, RunApproved(env, u.w, u.st, approval, approved).w)
  {
    hide Inv, Cleared, MayMention, Calm, Untouched, StateSound, RunApproved, Transition;
    var id := approval.id;
    var said := Log(env, w, OfApproval(EventApprovalApproved, id));
    LogKeeps(env, rid, w, OfApproval(EventApprovalApproved, id));
    ClearedStays(rid, w, said, id);
    StateSoundStays(rid, w, said, st);
    CalmMention(rid, w, said, st, st, approved);
    TransitionKeeps(env, rid, said, st, ToolExecuting, step);
    var u := Transition(env, said, st, ToolExecuting, step);
    ClearedStays(rid, said, u.w, id);
    CalmMention(rid, said, u.w, st, u.st, approved);
    RunApprovedKeeps(env, rid, u.w, u.st, approval, approved);
  }

  lemma NoteSteps(w: World, act: Act)
    ensures Note(w, act).steps == w.steps && Note(w, act).clock == w.clock
  {}

  lemma CalmMention(rid: Id, a: World, b: World, st: RunState, st': RunState, record: Record)
    requires MayMention(rid, a, st, record) && Calm(a, b) && st'.approvalID == st.approvalID
    ensures MayMention(rid, b, st', record)
  {
    MentionStays(rid, a, b, st, st', record);
  }

  lemma CloseRejectedKeeps(env: Env, rid: Id, w: World, st: RunState)
    requires Inv(rid, w) && StateSound(rid, w, st)
    ensures Inv(rid, CloseRejected(env, w, st).w)
  {
    hide Inv, Calm, Untouched, Abort;
    StageKeeps(env, rid, w, st, Summarize, StepCompleted, EMPTY, Summarizing);
    var s := RecordStep(env, w, st, Summarize, StepCompleted, EMPTY);
    if s.ok {
      var u := Transition(env, s.w, s.st, Summarizing, s.step);
      AssistantKeeps(env, rid, u.w, u.st);
      var m := PersistAssistant(env, u.w);
      if m.ok {
        StageKeeps(env, rid, m.w, u.st, Finalize, StepCompleted, EMPTY, ApprovalRejected);
        var f := RecordStep(env, m.w, u.st, Finalize, StepCompleted, EMPTY);
        if f.ok {
          LogKeeps(env, rid, Transition(env, f.w, f.st, ApprovalRejected, f.step).w, Plain(RunCompleted));
        }
      }
    }
  }

  lemma RejectPausedKeeps(env: Env, rid: Id, w: World, st: RunState, id: Id)
    requires Inv(rid, w) && StateSound(rid, w, st) && st.approvalID == id
    requires id in w.approvals && w.approvals[id].runID == rid
    ensures Inv(rid, RejectPaused(env, w, st, id).w)
  {
    hide Inv, MayMention, Calm, Untouched, StateSound, BodySound, SettledInLog, Executions;
    hide CloseRejected, ResolveApproval, RecordStep, Transition, Abort;
    ResolveMentions(rid, w, st, id, false, "rejected from workflow");
    var (w1, rejected) := ResolveApproval(w, id, false, "rejected from workflow");
    if rejected.None? {
      FailKeeps(env, rid, w1, st, ResolveFailed);
    } else {
      var body := ApprovalBody(rejected.value);
      MentionInBody(rid, w1, st, rejected.value, body);
      StageKeeps(env, rid, w1, st, RequestApproval, StepCancelled, body, ApprovalRejected);
      var r := RecordStep(env, w1, st, RequestApproval, StepCancelled, body);
      if r.ok {
        var t := Transition(env, r.w, r.st, ApprovalRejected, r.step);
        var e := OfApproval(EventApprovalRejected, id);
        LogKeeps(env, rid, t.w, e);
        LogStore(env, t.w, e);
        StateSoundStays(rid, t.w, Log(env, t.w, e), t.st);
        CloseRejectedKeeps(env, rid, Log(env, t.w, e), t.st);
      }
    }
  }

  lemma RunSound(rid: Id, w: World)
    requires Inv(rid, w) && w.run.Some?
    ensures StateSound(rid, w, w.run.value)
  {}

  lemma ResumeKeeps(env: Env, rid: Id, w: World, id: Id, approve: bool)
    requires Inv(rid, w)
    ensures Inv(rid, ResumeRun(env, w, rid, id, approve).w)
  {
    hide Inv, StateSound, ApprovePaused, RejectPaused, HydrateApproval, CloneRecord;
    if !w.dead && w.run.Some? {
      var st := w.run.value;
      RunSound(rid, w);
      HydrateKeeps(rid, w, st, id);
      var (h, approval) := HydrateApproval(w, id);
      if st.approvalID == id && approval.Some? && approval.value.runID == rid {
        if approve {
          ApprovePausedKeeps(env, rid, h, st, approval.value);
        } else {
          RejectPausedKeeps(env, rid, h, st, id);
        }
      }
    }
  }

  lemma EmptySound(rid: Id, w: World, st: RunState)
    ensures BodySound(rid, w, st, EMPTY)
  {}

  lemma CancelKeeps(env: Env, rid: Id, w: World)
    requires Inv(rid, w)
    ensures Inv(rid, CancelRun(env, w).w)
  {
    hide Inv, Calm, Untouched, StateSound, BodySound, ResolveApproval, RecordStep, Transition;
    if !w.dead && w.run.Some? && !Terminal(w.run.value.status) {
      var st := w.run.value;
      RunSound(rid, w);
      ResolveKeeps(rid, w, st, st.approvalID, false, "run cancelled");
      var (w1, _) := if st.approvalID != NO_ID then ResolveApproval(w, st.approvalID, false, "run cancelled") else (w, None);
      EmptySound(rid, w1, st);
      StageKeeps(env, rid, w1, st, CancelStep, StepCancelled, EMPTY, Cancelled);
      var r := RecordStep(env, w1, st, CancelStep, StepCancelled, EMPTY);
      if r.ok {
        LogKeeps(env, rid, Transition(env, r.w, r.st, Cancelled, r.step).w, Plain(RunCancelled));
      }
    }
  }

  lemma RestartKeeps(rid: Id, w: World)
    requires Inv(rid, w)
    ensures Inv(rid, Restart(w))
  {
    SilentAct(w.trace, Restarted);
  }

  lemma {:induction false} CallsKeep(env: Env, rid: Id, w: World, calls: seq<Call>)
    requires Inv(rid, w)
    ensures Inv(rid, ApplyAll(env, rid, w, calls))
  {
    hide Inv, ResumeRun, CancelRun, Restart;
    if calls != [] {
      var front := calls[..|calls| - 1];
      CallsKeep(env, rid, w, front);
      var before := ApplyAll(env, rid, w, front);
      match calls[|calls| - 1]
      case Resume(id, approve) => ResumeKeeps(env, rid, before, id, approve);
      case Cancel => CancelKeeps(env, rid, before);
      case Reboot => RestartKeeps(rid, before);
    }
  }

  /** The invariant holds at the end of every session, wherever the process died and whichever writes
      were lost on the way. */
  lemma SessionKeeps(env: Env, setup: Setup, calls: seq<Call>)
    requires Fresh(setup)
    ensures Inv(setup.rid, Session(env, setup, calls))
  {
    hide Inv, StartRun, ApplyAll;
    StartKeeps(env, setup);
    CallsKeep(env, setup.rid, StartRun(env, Genesis(setup), setup.rid, setup.message, setup.configured).w, calls);
  }
}
