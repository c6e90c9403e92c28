/** Theorems about every session in which the process does not die and every write succeeds: one
    Run and any sequence of resumptions, cancellations and restarts. */
module Lifecycle {
  import opened Base
  import opened Json
  import opened Types
  import opened Approvals
  import opened RunStates
  import opened Machine
  import opened History
  import opened RunLog
  import opened Projections
  import opened Conformance
  import Safety

  /** The stored steps are exactly 1..n in order, the state points at the last of them, and its status is
      the one the log leads to. */
  lemma StepLogIntegrity(env: Env, setup: Setup, calls: seq<Call>)
    requires Reliable(env) && Fresh(setup)
    ensures var w := Session(env, setup, calls);
      && w.run.Some? && w.run.value.stepIndex == |w.steps|
      && (forall i :: 0 <= i < |w.steps| ==> w.steps[i].index == i + 1)
      && StatusOf(Track(w.steps)) == Some(w.run.value.status)
  {
    hide Session, Fair, Awaits;
    SessionRests(env, setup, calls);
  }

  /** StepCount counts the planner calls, whatever the planner answers; in a paused or completed run each of
      them is one plan step. The budget is never exceeded, not even across pauses; the executor never runs more
      often than the planner; and the log stays short. */
  lemma BudgetAcrossPauses(env: Env, setup: Setup, calls: seq<Call>)
    requires Reliable(env) && Fresh(setup)
    ensures var w := Session(env, setup, calls); var max := Budget(setup.configured);
      && w.run.Some? && w.run.value.maxSteps == max && w.run.value.stepCount <= max
      && (w.run.value.status in {PausedForApproval, Completed} ==> w.run.value.stepCount == Plans(w.steps))
      && ExecutorCalls(w.trace) <= PlannerCalls(w.trace) == w.run.value.stepCount
      && (w.run.value.status == PausedForApproval ==> ExecutorCalls(w.trace) < PlannerCalls(w.trace))
      && |w.steps| <= 7 * max + 3
  {
    hide Session, Lined, Awaits;
    SessionRests(env, setup, calls);
    LengthBound(Session(env, setup, calls).steps);
  }

  /** A paused or completed run has walked through the documented graph. */
  lemma ConformsToGraph(env: Env, setup: Setup, calls: seq<Call>)
    requires Reliable(env) && Fresh(setup)
    ensures var w := Session(env, setup, calls);
      && w.run.Some?
      && (w.run.value.status in {PausedForApproval, Completed} ==>
            Walk(Visits(w.steps)) && Visits(w.steps) != [] && Visits(w.steps)[0] == Some(BuildContextNode))
      && (w.run.value.status == PausedForApproval ==> Last(Visits(w.steps)) == Some(ApprovalInterruptNode))
      && (w.run.value.status == Completed ==> Last(Visits(w.steps)) == Some(PersistNode))
  {
    hide Session, Lined, Awaits, Fair;
    SessionRests(env, setup, calls);
    var w := Session(env, setup, calls);
    if Track(w.steps) in {Waiting, Finished} {
      GraphConformance(w.steps);
      LastNode(w.steps);
    }
  }

  /** The only steps of any session that follow an edge the graph does not have. */
  lemma OnlyTheseEdgesAreMissing(env: Env, setup: Setup, calls: seq<Call>, k: nat)
    requires Reliable(env) && Fresh(setup) && 0 < k < |Session(env, setup, calls).steps|
    ensures var w := Session(env, setup, calls);
      Documented(w.steps[k - 1], w.steps[k]) <==> !Undocumented(w.steps[k - 1], w.steps[k])
  {
    hide Session, Lined, Awaits, Fair;
    SessionRests(env, setup, calls);
    MissingEdges(Session(env, setup, calls).steps, k);
  }

  /** A stored status of "paused" means that the run can be resumed: the last step is a paused request for
      exactly the approval the state names, a pending record of this run whose hash verifies and whose tool
      is the state's; and the store holds the same record, or none. */
  lemma PauseInvariant(env: Env, setup: Setup, calls: seq<Call>)
    requires Reliable(env) && Fresh(setup)
    requires Session(env, setup, calls).run.Some? && Session(env, setup, calls).run.value.status == PausedForApproval
    ensures var w := Session(env, setup, calls); Awaits(setup.rid, w, w.run.value)
  {
    hide Session, Lined, Fair;
    SessionRests(env, setup, calls);
  }

  /** The projections of the run log name exactly the tools that were proposed and the approvals that were
      created, each once and in order, and the step log agrees. */
  lemma ProjectionsAgree(env: Env, setup: Setup, calls: seq<Call>)
    requires Reliable(env) && Fresh(setup)
    ensures var w := Session(env, setup, calls);
      && Agree(ProposedTools(w.trace), ToolsFromSteps(w.steps))
      && ToolsFromEvents(w.trace) == NonEmpty(ProposedTools(w.trace))
      && ApprovalsFromEvents(w.trace) == CreatedIds(w.trace) == WaitsFromSteps(w.steps)
      && (forall i, j :: 0 <= i < j < |CreatedIds(w.trace)| ==> CreatedIds(w.trace)[i] != CreatedIds(w.trace)[j])
  {
    hide Session, Lined, Awaits;
    SessionRests(env, setup, calls);
    var w := Session(env, setup, calls);
    ToolsAreNonEmpty(w.trace);
    assert WaitsFromSteps(w.steps) + [] == WaitsFromSteps(w.steps);
    Safety.SessionKeeps(env, setup, calls);
    CreatedOnce(w.trace);
  }

  /** No approval id is created twice. */
  lemma {:induction false} CreatedOnce(trace: seq<Act>)
    requires Mediated(trace)
    ensures forall i, j :: 0 <= i < j < |CreatedIds(trace)| ==> CreatedIds(trace)[i] != CreatedIds(trace)[j]
    ensures forall id :: id in CreatedIds(trace) <==> id in CreatedIn(trace)
  {
    hide AutoDecided, AskDecided, ApprovedFor, LastDecision;
    if trace != [] {
      CreatedOnce(Init(trace));
    }
  }

  // ---------- absorbing statuses ----------

  /** Completed, failed and cancelled runs stay what they are under any further calls, with any crashes and
      lost writes: nothing is written, asked, planned or executed. */
  lemma {:induction false} TerminalIsAbsorbing(env: Env, rid: Id, w: World, calls: seq<Call>)
    requires w.run.Some? && Terminal(w.run.value.status)
    ensures var after := ApplyAll(env, rid, w, calls);
      && after.run == w.run && after.steps == w.steps && TallyOf(after.trace) == TallyOf(w.trace)
  {
    if calls != [] {
      var front := calls[..|calls| - 1];
      TerminalIsAbsorbing(env, rid, w, front);
      var before := ApplyAll(env, rid, w, front);
      hide TallyOf, ApprovePaused, RejectPaused, HydrateApproval, RecordStep, Transition;
      if calls[|calls| - 1].Reboot? {
        TallyAppend(before.trace, Restarted);
      }
    }
  }

  /** A rejected run cannot be resumed, however often it is tried. */
  lemma RejectedAbsorbsResume(env: Env, rid: Id, w: World, id: Id, approve: bool)
    requires w.run.Some? && w.run.value.status == ApprovalRejected
    ensures ResumeRun(env, w, rid, id, approve).w == w && !ResumeRun(env, w, rid, id, approve).ok
  {
    hide HydrateApproval, ApprovePaused, RejectPaused;
  }
}
