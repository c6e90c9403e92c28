/** Theorems about every session of a run: one Run and any sequence of resumptions, cancellations and
    restarts, with the process dying at any effect, as often as it likes, and any write to the store or to the
    run log failing, silently where the program ignores the failure. */
module CrashSafety {
  import opened Base
  import opened Json
  import opened Types
  import opened Approvals
  import opened Policy
  import opened RunStates
  import opened Machine
  import opened History
  import opened Safety

  /** No approval ever reaches the executor twice. */
  lemma AtMostOnce(env: Env, setup: Setup, calls: seq<Call>, id: Id)
    requires Fresh(setup) && id != NO_ID
    ensures Executions(Session(env, setup, calls).trace, id) <= 1
  {
    hide Session, CreatedSound, LogSound, CenterSound, Mediated;
    SessionKeeps(env, setup, calls);
  }

  /** The durable log never holds two different verdicts on one approval, and an approval that was used
      is there as approved: a rejection that reached the log excludes execution, before and after. */
  lemma VerdictIsUnique(env: Env, setup: Setup, calls: seq<Call>, s: Step, t: Step, id: Id)
    requires Fresh(setup) && id != NO_ID
    ensures var w := Session(env, setup, calls);
      && (s in w.steps && t in w.steps && Carries(s, id, false) && Carries(t, id, false) ==>
            s.approval.value.status == t.approval.value.status)
      && (Executions(w.trace, id) > 0 ==> SettledInLog(w.steps, id))
      && (Executions(w.trace, id) > 0 && s in w.steps && Carries(s, id, false) ==> s.approval.value.status == Approved)
  {
    hide Session, CreatedSound, CenterSound, Mediated;
    SessionKeeps(env, setup, calls);
  }

  // ---------- complete mediation ----------

  lemma CreatedAt(trace: seq<Act>, id: Id)
    requires id in CreatedIn(trace)
    ensures exists i :: 0 <= i < |trace| && trace[i] == Created(CreatedIn(trace)[id])
  {
    if Last(trace).Created? && Last(trace).record.id == id {
      assert trace[|trace| - 1] == Created(CreatedIn(trace)[id]);
    } else {
      CreatedAt(Init(trace), id);
      var i :| 0 <= i < |Init(trace)| && Init(trace)[i] == Created(CreatedIn(Init(trace))[id]);
      assert trace[i] == Created(CreatedIn(trace)[id]);
    }
  }

  lemma ApprovedAt(trace: seq<Act>, id: Id)
    requires ApprovedIn(trace, id)
    ensures exists i :: 0 <= i < |trace| && trace[i] == ResolvedAs(id, true)
  {
    if Last(trace) == ResolvedAs(id, true) {
      assert trace[|trace| - 1] == ResolvedAs(id, true);
    } else {
      ApprovedAt(Init(trace), id);
      var i :| 0 <= i < |Init(trace)| && Init(trace)[i] == ResolvedAs(id, true);
      assert trace[i] == ResolvedAs(id, true);
    }
  }

  /** An approval for this call was created at `i` and approved at `j`, both before `k`. */
  ghost predicate AskedAndApproved(trace: seq<Act>, k: nat, i: int, j: int, id: Id, callID: string, tool: string)
    requires k <= |trace|
  {
    && 0 <= i < k && 0 <= j < k && trace[j] == ResolvedAs(id, true)
    && trace[i].Created? && trace[i].record.id == id
    && trace[i].record.proposal.id == callID && trace[i].record.proposal.tool == tool
  }

  /** Whenever the executor runs, the last policy decision was about this very call and allowed it, and
      the input is the one that was decided on; or an approval for it had been created and approved, and the
      input is the snapshot stored then, plain JSON whose hash verifies, never a re-planned one. */
  lemma EveryExecutionIsMediated(env: Env, setup: Setup, calls: seq<Call>, k: nat)
    requires Fresh(setup)
    requires k < |Session(env, setup, calls).trace| && Session(env, setup, calls).trace[k].Executed?
    ensures var trace := Session(env, setup, calls).trace; var act := trace[k];
      if act.approval == NO_ID then
        && AutoDecided(trace[..k], act.callID, act.tool)
        && act.input == LastDecision(trace[..k]).value.input
      else
        exists i, j :: AskedAndApproved(trace, k, i, j, act.approval, act.callID, act.tool)
                    && act.input == trace[i].record.snapshot && HashVerifies(trace[i].record) && Canonical(act.input)
  {
    hide Session, CreatedSound, LogSound, CenterSound, Spent;
    SessionKeeps(env, setup, calls);
    var trace := Session(env, setup, calls).trace;
    MediatedAt(trace, k);
    var act := trace[k];
    if act.approval != NO_ID {
      CreatedAt(trace[..k], act.approval);
      ApprovedAt(trace[..k], act.approval);
      var i :| 0 <= i < k && trace[..k][i] == Created(CreatedIn(trace[..k])[act.approval]);
      var j :| 0 <= j < k && trace[..k][j] == ResolvedAs(act.approval, true);
      CreatedKeyed(trace[..k], act.approval);
      assert AskedAndApproved(trace, k, i, j, act.approval, act.callID, act.tool);
      MediatedAt(trace, i);
      SnapshotIsCanonical(trace[..i], trace[i].record);
    }
  }

  /** What an approval stores is plain JSON: it is a copy, and it has a hash. */
  lemma SnapshotIsCanonical(before: seq<Act>, r: Record)
    requires Justified(before, Created(r)) && HashVerifies(r)
    ensures Canonical(r.snapshot)
  {
    hide LastDecision, NormalizedInput;
    CloneIdempotent(NormalizedInput(r.proposal.(input := LastDecision(before).value.input)));
    CloneIdempotent(r.snapshot);
  }

  lemma CreatedKeyed(trace: seq<Act>, id: Id)
    requires id in CreatedIn(trace)
    ensures CreatedIn(trace)[id].id == id
  {
    if !(Last(trace).Created? && Last(trace).record.id == id) {
      CreatedKeyed(Init(trace), id);
    }
  }

  /** The same for the event in the run log: a tool.started is preceded by a decision that let this call
      run, or by an approval of it. */
  lemma EveryStartIsMediated(env: Env, setup: Setup, calls: seq<Call>, k: nat)
    requires Fresh(setup) && k < |Session(env, setup, calls).trace|
    requires var act := Session(env, setup, calls).trace[k]; act.Logged? && act.event.kind == EventToolStarted
    ensures var trace := Session(env, setup, calls).trace; var e := trace[k].event;
      || AutoDecided(trace[..k], e.callID, e.tool)
      || exists i, j, id :: AskedAndApproved(trace, k, i, j, id, e.callID, e.tool)
  {
    hide Session, CreatedSound, LogSound, CenterSound, Spent;
    SessionKeeps(env, setup, calls);
    var trace := Session(env, setup, calls).trace;
    MediatedAt(trace, k);
    var e := trace[k].event;
    if !AutoDecided(trace[..k], e.callID, e.tool) {
      var id :| ApprovedFor(trace[..k], id, e.callID, e.tool);
      CreatedAt(trace[..k], id);
      ApprovedAt(trace[..k], id);
      var i :| 0 <= i < k && trace[..k][i] == Created(CreatedIn(trace[..k])[id]);
      var j :| 0 <= j < k && trace[..k][j] == ResolvedAs(id, true);
      CreatedKeyed(trace[..k], id);
      assert AskedAndApproved(trace, k, i, j, id, e.callID, e.tool);
    }
  }

  /** An approval is only ever created for a call whose last policy decision asked for it, and stores the
      normalized form of the input that was proposed. */
  lemma EveryApprovalWasAsked(env: Env, setup: Setup, calls: seq<Call>, k: nat)
    requires Fresh(setup)
    requires k < |Session(env, setup, calls).trace| && Session(env, setup, calls).trace[k].Created?
    ensures var trace := Session(env, setup, calls).trace; var r := trace[k].record;
      && AskDecided(trace[..k], r.proposal.id, r.proposal.tool)
      && r.snapshot == CloneMap(NormalizedInput(r.proposal.(input := LastDecision(trace[..k]).value.input)))
  {
    hide Session, CreatedSound, LogSound, CenterSound, Spent;
    SessionKeeps(env, setup, calls);
    MediatedAt(Session(env, setup, calls).trace, k);
  }
}
