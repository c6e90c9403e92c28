/** What a run leaves behind when the process does not die and every write succeeds: the shape of
    its step log, its budget, and the agreement of log, state and events (internal/agent/runtime.go). */
module Conformance {
  import opened Base
  import opened Json
  import opened Types
  import opened Approvals
  import opened Policy
  import opened RunStates
  import opened Machine
  import opened History
  import opened RunLog
  import opened Projections

  /** No crash, and no write to the store or to the run log fails. */
  ghost predicate Reliable(env: Env)
  {
    && (forall n: nat :: !env.crash(n))
    && (forall n: nat :: env.storeOk(n))
    && (forall n: nat :: env.ackOk(n))
    && (forall n: nat :: env.eventOk(n))
  }

  /** Nothing is lost from the run log then. */
  lemma LogIs(env: Env, w: World, e: Event)
    requires Reliable(env) && !w.dead
    ensures Log(env, w, e) == w.(clock := w.clock + 1, trace := w.trace + [Logged(e)])
    ensures TallyOf(Log(env, w, e).trace) == Counted(TallyOf(w.trace), Logged(e))
  {
    TallyAppend(w.trace, Logged(e));
    hide TallyOf, Counted;
  }

  /** The log holds exactly the indices 1..n, in order. */
  ghost predicate Lined(steps: seq<Step>, clock: nat)
  {
    forall i :: 0 <= i < |steps| ==> steps[i].index == i + 1 && steps[i].stepID < clock
  }

  ghost predicate Stands(w: World, st: RunState)
  {
    !w.dead && w.clock > 0 && Lined(w.steps, w.clock) && st.stepIndex == |w.steps|
  }

  /** Event log and step log tell the same; `owed` approvals have been announced but not logged as a step,
      and `due` executions are paid for by planner calls but have not happened. */
  ghost predicate Fair(t: Tally, steps: seq<Step>, owed: seq<Id>, due: nat)
  {
    && t.ran + due <= t.planned
    && Agree(t.tools, ToolsFromSteps(steps))
    && t.asked == WaitsFromSteps(steps) + owed
    && t.created == t.asked
  }

  /** A run in progress, at `phase`. */
  ghost predicate Underway(rid: Id, max: nat, w: World, st: RunState, phase: Phase, owed: seq<Id>, due: nat)
  {
    && Stands(w, st) && st.runID == rid && st.maxSteps == max
    && Track(w.steps) == phase && st.stepCount == Plans(w.steps) <= max && TallyOf(w.trace).planned == st.stepCount
    && Fair(TallyOf(w.trace), w.steps, owed, due)
  }

  /** The status of a run at rest, phase by phase. */
  function StatusOf(phase: Phase): Option<RunStatus>
  {
    match phase
    case Start => Some(Received)
    case Waiting => Some(PausedForApproval)
    case Finished => Some(Completed)
    case Crashed => Some(Failed)
    case Declined => Some(ApprovalRejected)
    case Abandoned => Some(Cancelled)
    case _ => None
  }

  /** The last step asks for exactly the approval the state waits for, and the store, if it knows the
      approval at all, holds the record that step carries. */
  ghost predicate Awaits(rid: Id, w: World, st: RunState)
  {
    && w.steps != []
    && var s := Last(w.steps);
    && s.kind == RequestApproval && s.status == StepPaused && s.approval.Some?
    && var r := s.approval.value;
    && r.id == st.approvalID != NO_ID && r.runID == rid && r.status == Pending && HashVerifies(r)
    && (st.proposal.Some? ==> st.proposal.value.tool == r.proposal.tool)
    && (r.id in w.approvals ==> CloneRecord(w.approvals[r.id]) == r)
  }

  /** The durable state between two calls. */
  ghost predicate AtRest(rid: Id, max: nat, w: World)
  {
    && w.run.Some? && Stands(w, w.run.value)
    && var st, phase := w.run.value, Track(w.steps);
    && st.runID == rid && st.maxSteps == max && StatusOf(phase) == Some(st.status)
    && st.stepCount <= max && Plans(w.steps) <= st.stepCount <= Plans(w.steps) + (if phase == Crashed then 1 else 0)
    && TallyOf(w.trace).planned == st.stepCount
    && Fair(TallyOf(w.trace), w.steps, [], if phase == Waiting then 1 else 0)
    && (phase == Waiting ==> Awaits(rid, w, st))
  }

  // ---------- one step ----------

  /** The process lives through the next `n` effects, and those of them that write to the store succeed. */
  ghost predicate Steady(env: Env, from: nat, n: nat)
  {
    forall t: nat :: from <= t < from + n ==> !env.crash(t) && Acked(env, t)
  }

  lemma SaveStepRuns(env: Env, w: World, step: Step)
    requires !w.dead && !env.crash(w.clock) && Acked(env, w.clock) && Lined(w.steps, w.clock)
    requires step.stepID == w.clock && step.index == |w.steps| + 1
    ensures var stored := StoredStep(env.red, step);
      && SaveStep(env, w, step) == Ack(w.(clock := w.clock + 1, steps := w.steps + [stored]), true)
      && stored.kind == step.kind && Lined(w.steps + [stored], w.clock + 1)
  {
    var stored := StoredStep(env.red, step);
    UpsertFresh(w.steps, stored);
    hide Upsert;
    assert Upsert(w.steps, stored) == w.steps + [stored];
  }

  lemma RecordStepRuns(env: Env, w: World, st: RunState, kind: StepKind, status: StepStatus, body: Body)
    requires Steady(env, w.clock, 2) && Stands(w, st)
    ensures var r := RecordStep(env, w, st, kind, status, body);
      && r.ok && Stands(r.w, r.st) && r.step.index == r.st.stepIndex && r.step.kind == kind && r.step.status == status
      && r.step.proposal == body.proposal && r.step.approval == body.approval
      && r.w == World(false, w.clock + 2, Some(StoredState(env.red, r.st)), w.steps + [StoredStep(env.red, r.step)], w.approvals, w.trace)
      && r.st == st.(currentStep := kind, stepIndex := |w.steps| + 1, updatedAt := w.clock)
  {
    hide Lined, SaveStep, StoredStep, StoredState;
    var step := Step(w.clock, st.runID, st.stepIndex + 1, kind, status, body.proposal, body.approval, body.result, body.error);
    SaveStepRuns(env, w, step);
    LinedLater(w.steps + [StoredStep(env.red, step)], w.clock + 1, w.clock + 2);
  }

  /** Step and transition, and what they leave. */
  ghost predicate Staged(env: Env, w: World, st: RunState, kind: StepKind, status: StepStatus, body: Body, next: RunStatus, after: At)
  {
    && Stands(after.w, after.st) && after.w.run == Some(StoredState(env.red, after.st))
    && after.st == st.(currentStep := kind, stepIndex := |w.steps| + 1, status := next, updatedAt := after.st.updatedAt)
    && after.w.approvals == w.approvals && TallyOf(after.w.trace) == TallyOf(w.trace)
    && after.w.steps != [] && Init(after.w.steps) == w.steps
    && var s := Last(after.w.steps);
    && s.kind == kind && s.status == status
    && (body.proposal.Some? && s.proposal.Some? ==> s.proposal.value.tool == body.proposal.value.tool)
    && s.approval == (if body.approval.Some? then Some(CloneRecord(body.approval.value)) else None)
  }

  lemma TransitionRuns(env: Env, w: World, st: RunState, status: RunStatus, step: Step)
    requires Reliable(env) && Stands(w, st) && step.index == st.stepIndex
    ensures var t := Transition(env, w, st, status, step);
      && Stands(t.w, t.st) && t.w.run == Some(StoredState(env.red, t.st))
      && t.st == st.(status := status, currentStep := step.kind, updatedAt := w.clock)
      && t.w.approvals == w.approvals && t.w.steps == w.steps && TallyOf(t.w.trace) == TallyOf(w.trace)
  {
    var st' := st.(status := status, currentStep := step.kind, updatedAt := w.clock);
    LogIs(env, SaveState(env, w, st').w, OfApproval(RunStateChanged, st'.approvalID));
    hide TallyOf, Log, StoredState;
  }

  lemma StageRuns(env: Env, w: World, st: RunState, kind: StepKind, status: StepStatus, body: Body, next: RunStatus)
    requires Reliable(env) && Stands(w, st)
    ensures var r := RecordStep(env, w, st, kind, status, body);
      && r.ok && r.step.index == r.st.stepIndex && r.step.kind == kind
      && Staged(env, w, st, kind, status, body, next, Transition(env, r.w, r.st, next, r.step))
      && Transition(env, r.w, r.st, next, r.step).st.stepIndex == r.step.index
  {
    hide RecordStep, Transition, TallyOf, StoredState, CloneMap;
    RecordStepRuns(env, w, st, kind, status, body);
    var r := RecordStep(env, w, st, kind, status, body);
    TransitionRuns(env, r.w, r.st, next, r.step);
    var t := Transition(env, r.w, r.st, next, r.step);
    assert Init(t.w.steps) == w.steps && Last(t.w.steps) == StoredStep(env.red, r.step);
  }

  /** A step that neither proposes a tool nor pauses the run adds nothing to the projections. */
  lemma PlainStep(t: Tally, steps: seq<Step>, after: seq<Step>, owed: seq<Id>, due: nat)
    requires after != [] && Init(after) == steps && Last(after).kind != ProposeTool && Last(after).status != StepPaused
    requires Fair(t, steps, owed, due)
    ensures Fair(t, after, owed, due)
  {
    assert ToolsFromSteps(after) == ToolsFromSteps(steps);
    assert WaitsFromSteps(after) == WaitsFromSteps(steps);
  }

  /** A plain step moves the phase on. */
  lemma StageMoves(env: Env, rid: Id, max: nat, w: World, st: RunState, kind: StepKind, status: StepStatus, body: Body,
          next: RunStatus, phase: Phase, owed: seq<Id>, due: nat)
    requires Reliable(env) && Underway(rid, max, w, st, phase, owed, due)
    requires kind != ProposeTool && kind != PlanStep && status != StepPaused
    ensures var r := RecordStep(env, w, st, kind, status, body); var t := Transition(env, r.w, r.st, next, r.step);
      && r.ok && r.step.index == r.st.stepIndex && r.step.kind == kind && Staged(env, w, st, kind, status, body, next, t)
      && Underway(rid, max, t.w, t.st, After(phase, kind, status), owed, due) && t.st.stepIndex == r.step.index
  {
    StageRuns(env, w, st, kind, status, body, next);
    var r := RecordStep(env, w, st, kind, status, body);
    var t := Transition(env, r.w, r.st, next, r.step);
    hide RecordStep, Transition, TallyOf, StoredState, Fair, Lined, After;
    PlainStep(TallyOf(w.trace), w.steps, t.w.steps, owed, due);
  }

  /** Silent events change none of the counts. */
  lemma NoteRuns(rid: Id, max: nat, w: World, st: RunState, phase: Phase, owed: seq<Id>, due: nat, act: Act)
    requires Underway(rid, max, w, st, phase, owed, due) && Counted(TallyOf(w.trace), act) == TallyOf(w.trace)
    ensures Underway(rid, max, Note(w, act), st, phase, owed, due)
  {
    TallyAppend(w.trace, act);
  }

  lemma LogRuns(env: Env, rid: Id, max: nat, w: World, st: RunState, phase: Phase, owed: seq<Id>, due: nat, e: Event)
    requires Reliable(env) && Underway(rid, max, w, st, phase, owed, due) && Counted(TallyOf(w.trace), Logged(e)) == TallyOf(w.trace)
    ensures Underway(rid, max, Log(env, w, e), st, phase, owed, due) && Log(env, w, e).steps == w.steps
  {
    LogIs(env, w, e);
    hide TallyOf, Counted;
  }

  lemma TickRuns(env: Env, rid: Id, max: nat, w: World, st: RunState, phase: Phase, owed: seq<Id>, due: nat)
    requires Reliable(env) && Underway(rid, max, w, st, phase, owed, due)
    ensures Underway(rid, max, Tick(env, w), st, phase, owed, due) && Tick(env, w).trace == w.trace && Tick(env, w).steps == w.steps
      && Tick(env, w).approvals == w.approvals && Tick(env, w).run == w.run
  {}

  /** A stage that reaches a resting phase other than Waiting ends the call. */
  lemma StageRests(env: Env, rid: Id, max: nat, w: World, st: RunState, kind: StepKind, status: StepStatus, body: Body,
          next: RunStatus, due: nat, t: At)
    requires Staged(env, w, st, kind, status, body, next, t) && kind != ProposeTool && status != StepPaused
    requires st.runID == rid && st.maxSteps == max
    requires StatusOf(Track(t.w.steps)) == Some(next) && Track(t.w.steps) != Waiting && Track(t.w.steps) != Start
    requires Plans(t.w.steps) <= st.stepCount <= max && st.stepCount <= Plans(t.w.steps) + (if next == Failed then 1 else 0)
    requires TallyOf(w.trace).planned == st.stepCount && Fair(TallyOf(w.trace), w.steps, [], due)
    ensures AtRest(rid, max, t.w)
  {
    hide TallyOf, StoredState, Lined, Agree, ToolsFromSteps, WaitsFromSteps, After;
    PlainStep(TallyOf(w.trace), w.steps, t.w.steps, [], due);
    StoredStateKeepsControl(env.red, t.st);
  }

  lemma LogRests(env: Env, rid: Id, max: nat, w: World, e: Event)
    requires Reliable(env) && AtRest(rid, max, w) && Counted(TallyOf(w.trace), Logged(e)) == TallyOf(w.trace)
    ensures AtRest(rid, max, Log(env, w, e))
  {
    LogIs(env, w, e);
    hide TallyOf, Counted, HashVerifies;
  }

  predicate CanFail(phase: Phase) { phase in {Start, Head, Planned, Proposed, Waiting, Broken, Summed, RefusedSummed} }

  /** fail() is always able to record its step. */
  lemma FailRuns(env: Env, rid: Id, max: nat, w: World, st: RunState, cause: Cause, due: nat)
    requires Reliable(env) && Stands(w, st) && st.runID == rid && st.maxSteps == max && CanFail(Track(w.steps))
    requires Plans(w.steps) <= st.stepCount <= max && st.stepCount <= Plans(w.steps) + 1
    requires TallyOf(w.trace).planned == st.stepCount && Fair(TallyOf(w.trace), w.steps, [], due)
    ensures AtRest(rid, max, Abort(env, w, st, cause).w)
  {
    hide TallyOf, StoredState, Lined, Fair, RecordStep, Transition, AtRest;
    var st1, body := st.(error := cause), EMPTY.(error := cause);
    StageRuns(env, w, st1, Finalize, StepFailed, body, Failed);
    var r := RecordStep(env, w, st1, Finalize, StepFailed, body);
    var t := Transition(env, r.w, r.st, Failed, r.step);
    assert Track(t.w.steps) == Crashed && Plans(t.w.steps) == Plans(w.steps);
    StageRests(env, rid, max, w, st1, Finalize, StepFailed, body, Failed, due, t);
    LogRests(env, rid, max, t.w, Plain(RunFailed).(cause := cause));
  }

  lemma UnderwayFails(env: Env, rid: Id, max: nat, w: World, st: RunState, cause: Cause, phase: Phase, due: nat)
    requires Reliable(env) && Underway(rid, max, w, st, phase, [], due) && CanFail(phase)
    ensures AtRest(rid, max, Abort(env, w, st, cause).w)
  {
    FailRuns(env, rid, max, w, st, cause, due);
  }

  lemma AssistantRuns(env: Env, rid: Id, max: nat, w: World, st: RunState, phase: Phase, due: nat)
    requires Reliable(env) && Underway(rid, max, w, st, phase, [], due)
    ensures var m := PersistAssistant(env, w);
      && Underway(rid, max, m.w, st, phase, [], due) && m.w.steps == w.steps
      && m.w.approvals == w.approvals && m.w.run == w.run
  {
    TickRuns(env, rid, max, w, st, phase, [], due);
    LogRuns(env, rid, max, Tick(env, w), st, phase, [], due, Plain(AssistantMessage));
  }

  lemma CompleteRuns(env: Env, rid: Id, max: nat, w: World, st: RunState, due: nat)
    requires Reliable(env) && Underway(rid, max, w, st, Planned, [], due)
    ensures AtRest(rid, max, Complete(env, w, st).w)
  {
    hide Reliable, Underway, Abort, AtRest, TallyOf, Staged, RecordStep, Transition, PersistAssistant;
    StageMoves(env, rid, max, w, st, Summarize, StepCompleted, EMPTY, Summarizing, Planned, [], due);
    var r := RecordStep(env, w, st, Summarize, StepCompleted, EMPTY);
    var t := Transition(env, r.w, r.st, Summarizing, r.step);
    AssistantRuns(env, rid, max, t.w, t.st, Summed, due);
    var m := PersistAssistant(env, t.w);
    if m.ok {
      FinalizeRuns(env, rid, max, m.w, t.st, Summed, due, Completed);
      var f := RecordStep(env, m.w, t.st, Finalize, StepCompleted, EMPTY);
      LogRests(env, rid, max, Transition(env, f.w, f.st, Completed, f.step).w, Plain(RunCompleted));
    } else {
      UnderwayFails(env, rid, max, m.w, t.st, MessageFailed, Summed, due);
    }
  }

  /** The last step of a completed or declined run. */
  lemma FinalizeRuns(env: Env, rid: Id, max: nat, w: World, st: RunState, phase: Phase, due: nat, next: RunStatus)
    requires Reliable(env) && Underway(rid, max, w, st, phase, [], due)
    requires (phase == Summed && next == Completed) || (phase == RefusedSummed && next == ApprovalRejected)
    ensures var f := RecordStep(env, w, st, Finalize, StepCompleted, EMPTY); f.ok && AtRest(rid, max, Transition(env, f.w, f.st, next, f.step).w)
  {
    hide RecordStep, Transition, TallyOf, Fair, Lined, AtRest, StoredState;
    StageRuns(env, w, st, Finalize, StepCompleted, EMPTY, next);
    var f := RecordStep(env, w, st, Finalize, StepCompleted, EMPTY);
    var t := Transition(env, f.w, f.st, next, f.step);
    assert Track(t.w.steps) == After(phase, Finalize, StepCompleted) && Plans(t.w.steps) == Plans(w.steps);
    StageRests(env, rid, max, w, st, Finalize, StepCompleted, EMPTY, next, due, t);
  }

  // ---------- the router ----------

  /** What the router may change: the clock, the events and the approval store. */
  ghost predicate OnlyRouted(a: World, b: World)
  {
    !b.dead && a.clock <= b.clock && b.run == a.run && b.steps == a.steps
  }

  lemma ExecuteRuns(env: Env, w: World, p: Proposal, id: Id)
    requires Reliable(env) && !w.dead
    ensures var e := Execute(env, w, p, id); var t := TallyOf(w.trace);
      && OnlyRouted(w, e.w) && e.w.approvals == w.approvals
      && t.ran <= TallyOf(e.w.trace).ran <= t.ran + 1
      && TallyOf(e.w.trace) == t.(ran := TallyOf(e.w.trace).ran)
  {
    hide TallyOf, CloneMap, Log;
    if env.registered(p.tool) {
      var started := Log(env, w, OfTool(EventToolStarted, p));
      LogIs(env, w, OfTool(EventToolStarted, p));
      var t := Tick(env, started);
      var act := Executed(p.id, p.tool, CloneMap(p.input), id);
      TallyAppend(t.trace, act);
      var ran := Note(t, act);
      var outcome := env.execute(started.clock, p.tool, CloneMap(p.input));
      LogIs(env, ran, OfTool(EventToolOutput, p));
      var shown := if outcome.result.Some? then Log(env, ran, OfTool(EventToolOutput, p)) else ran;
      LogIs(env, shown, OfTool(if outcome.failed then EventToolFailed else EventToolCompleted, p));
    }
  }

  /** What the router hands back to be waited for. */
  ghost predicate Handed(rid: Id, after: World, p: Proposal, r: Record)
  {
    && NO_ID < r.id && r.runID == rid && r.status == Pending && HashVerifies(r) && r.proposal.tool == p.tool
    && CloneRecord(r) == r && r.id in after.approvals && CloneRecord(after.approvals[r.id]) == r
  }

  /** The effect of routing on the counts: it names the tool, and either announces one approval, or runs
      the tool at most once. */
  ghost predicate RoutedTally(t: Tally, after: Tally, p: Proposal, approval: Option<Record>)
  {
    && after.tools == t.tools + [p.tool] && after.planned == t.planned
    && (if approval.Some? then
          after.asked == t.asked + [approval.value.id] && after.created == t.created + [approval.value.id] && after.ran == t.ran
        else
          after.asked == t.asked && after.created == t.created && t.ran <= after.ran <= t.ran + 1)
  }

  lemma CreateRuns(env: Env, rid: Id, w: World, p: Proposal, inference: Inference, decision: Decision)
    requires Reliable(env) && !w.dead && w.clock > 0
    ensures var (c, record) := CreateApproval(env, w, rid, p, inference, decision); var t := TallyOf(w.trace);
      && OnlyRouted(w, c)
      && (if record.Some? then Handed(rid, c, p, record.value) && TallyOf(c.trace) == t.(created := t.created + [record.value.id])
          else c.trace == w.trace)
  {
    hide TallyOf;
    var draft := Draft(w.clock, rid, p, inference, decision);
    if draft.Some? {
      DraftIsSound(w.clock, rid, p, inference, decision);
      TallyAppend(w.trace, Created(CloneRecord(draft.value)));
    }
  }

  lemma DispatchRuns(env: Env, rid: Id, w: World, p: Proposal, inference: Inference, decision: Decision)
    requires Reliable(env) && !w.dead && w.clock > 0
    ensures var r := Dispatch(env, w, rid, p, inference, decision); var t := TallyOf(w.trace);
      && OnlyRouted(w, r.w)
      && (r.approval.Some? ==> Handed(rid, r.w, p, r.approval.value))
      && RoutedTally(t.(tools := []), TallyOf(r.w.trace).(tools := [p.tool]), p, r.approval) && TallyOf(r.w.trace).tools == t.tools
  {
    hide TallyOf, Handed, CreateApproval, Execute, Log;
    if decision.requiresApproval {
      CreateRuns(env, rid, w, p, inference, decision);
      var (c, record) := CreateApproval(env, w, rid, p, inference, decision);
      if record.Some? {
        var e := OfApproval(EventApprovalRequested, record.value.id);
        LogIs(env, c, e);
        HandedLater(rid, c, Log(env, c, e), p, record.value);
      }
    } else if !decision.allowed {
      LogIs(env, w, OfTool(EventPolicyDenied, p).(decision := Some(decision)));
    } else {
      ExecuteRuns(env, w, p, NO_ID);
    }
  }

  lemma HandedLater(rid: Id, a: World, b: World, p: Proposal, r: Record)
    requires Handed(rid, a, p, r) && b.approvals == a.approvals
    ensures Handed(rid, b, p, r) && r.id != NO_ID
  {}

  lemma ProposeRuns(env: Env, rid: Id, w: World, p: Proposal)
    requires Reliable(env) && !w.dead && w.clock > 0
    ensures var r := Propose(env, w, rid, p);
      && OnlyRouted(w, r.w)
      && (r.approval.Some? ==> Handed(rid, r.w, p, r.approval.value))
      && RoutedTally(TallyOf(w.trace), TallyOf(r.w.trace), p, r.approval)
  {
    hide TallyOf, CloneMap, Dispatch, Decide, Handed, Log;
    var first := OfTool(EventToolProposed, p).(input := CloneMap(p.input));
    LogIs(env, w, first);
    var proposed := Log(env, w, first);
    var t := Tick(env, proposed);
    var inferred := env.infer(proposed.clock, p);
    if inferred.Some? {
      var decision := Decide(env.policy, p, inferred.value);
      LogIs(env, t, OfTool(EventEffectInferred, p));
      var told := Log(env, t, OfTool(EventEffectInferred, p));
      TallyAppend(told.trace, DecidedOn(p, decision));
      var answered := Note(told, DecidedOn(p, decision));
      LogIs(env, answered, OfTool(EventPolicyDecided, p).(decision := Some(decision)));
      var decided := Log(env, answered, OfTool(EventPolicyDecided, p).(decision := Some(decision)));
      DispatchRuns(env, rid, decided, p, inferred.value, decision);
    }
  }

  // ---------- the planning loop ----------

  ghost predicate OnHead(rid: Id, max: nat, w: World, st: RunState) { Underway(rid, max, w, st, Head, [], 0) }

  ghost predicate TurnRests(rid: Id, max: nat, t: Turn)
  {
    match t
    case Halt(out) => AtRest(rid, max, out.w)
    case Again(w, st, _) => OnHead(rid, max, w, st)
  }

  /** The announced approval becomes a paused step. */
  lemma WaitStep(t: Tally, steps: seq<Step>, after: seq<Step>, id: Id, due: nat)
    requires after != [] && Init(after) == steps && Last(after).kind == RequestApproval && Last(after).status == StepPaused
    requires Last(after).approval.Some? && Last(after).approval.value.id == id
    requires Fair(t, steps, [id], due)
    ensures Fair(t, after, [], due)
  {
    assert ToolsFromSteps(after) == ToolsFromSteps(steps);
    assert WaitsFromSteps(after) + [] == WaitsFromSteps(steps) + [id];
  }

  lemma WaitingRests(env: Env, rid: Id, max: nat, w: World, st: RunState, p: Proposal, record: Record)
    requires Underway(rid, max, w, st, Waiting, [], 1) && w.run == Some(StoredState(env.red, st)) && st.status == PausedForApproval
    requires w.steps != [] && Last(w.steps).approval == Some(record) && st.approvalID == record.id
    requires st.proposal.Some? && st.proposal.value.tool == p.tool
    requires NO_ID < record.id && record.runID == rid && record.status == Pending && HashVerifies(record) && record.proposal.tool == p.tool
    requires record.id in w.approvals && CloneRecord(w.approvals[record.id]) == record
    ensures AtRest(rid, max, w)
  {
    hide TallyOf, StoredState, Lined, CloneRecord, Fair, HashVerifies;
    StoredStateKeepsControl(env.red, st);
  }

  lemma PauseRuns(env: Env, rid: Id, max: nat, w: World, st: RunState, p: Proposal, record: Record)
    requires Reliable(env) && Underway(rid, max, w, st, Phase.Decided, [record.id], 1)
    requires Handed(rid, w, p, record) && st.proposal.Some? && st.proposal.value.tool == p.tool
    ensures var t := Pause(env, w, st, record); t.Halt? && AtRest(rid, max, t.out.w)
  {
    hide RecordStep, TallyOf, StoredState, Lined, CloneRecord, HashVerifies, Fair, Awaits, AtRest, Abort;
    var st1 := st.(approvalID := record.id);
    var body := Body(st.proposal, Some(CloneRecord(record)), None, NoError);
    StageRuns(env, w, st1, RequestApproval, StepPaused, body, ApprovalRequested);
    var r := RecordStep(env, w, st1, RequestApproval, StepPaused, body);
    var t := Transition(env, r.w, r.st, ApprovalRequested, r.step);
    assert Last(t.w.steps).approval == Some(record);
    WaitStep(TallyOf(w.trace), w.steps, t.w.steps, record.id, 1);
    assert Underway(rid, max, t.w, t.st, Waiting, [], 1);
    var act := Streamed(OfApproval(EventApprovalRequested, record.id));
    NoteRuns(rid, max, t.w, t.st, Waiting, [], 1, act);
    var shown := Note(t.w, act);
    assert shown.approvals == w.approvals && shown.steps == t.w.steps;
    PausedRuns(env, rid, max, shown, t.st, p, record, r.step);
  }

  /** The second half of a pause: the state says so, and the user is told. */
  lemma PausedRuns(env: Env, rid: Id, max: nat, w: World, st: RunState, p: Proposal, record: Record, step: Step)
    requires Reliable(env) && Underway(rid, max, w, st, Waiting, [], 1) && step.index == st.stepIndex
    requires w.steps != [] && Last(w.steps).approval == Some(record) && st.approvalID == record.id
    requires st.proposal.Some? && st.proposal.value.tool == p.tool
    requires NO_ID < record.id && record.runID == rid && record.status == Pending && HashVerifies(record) && record.proposal.tool == p.tool
    requires record.id in w.approvals && CloneRecord(w.approvals[record.id]) == record
    ensures var q := Transition(env, w, st, PausedForApproval, step); var m := PersistAssistant(env, q.w);
      if m.ok then AtRest(rid, max, Log(env, m.w, OfApproval(RunPaused, record.id))) else AtRest(rid, max, Abort(env, m.w, q.st, MessageFailed).w)
  {
    hide TallyOf, StoredState, Lined, CloneRecord, HashVerifies, Fair, Awaits, AtRest, Abort, PersistAssistant;
    TransitionRuns(env, w, st, PausedForApproval, step);
    var q := Transition(env, w, st, PausedForApproval, step);
    hide Transition;
    AssistantRuns(env, rid, max, q.w, q.st, Waiting, 1);
    var m := PersistAssistant(env, q.w);
    if m.ok {
      WaitingRests(env, rid, max, m.w, q.st, p, record);
      LogRests(env, rid, max, m.w, OfApproval(RunPaused, record.id));
    } else {
      UnderwayFails(env, rid, max, m.w, q.st, MessageFailed, Waiting, 1);
    }
  }

  lemma FinishRuns(env: Env, rid: Id, max: nat, w: World, st: RunState, proposal: Proposal, result: Option<ToolResult>)
    requires Reliable(env) && Underway(rid, max, w, st, Phase.Decided, [], 0)
    ensures TurnRests(rid, max, Finish(env, w, st, proposal, result))
  {
    hide RecordStep, Transition, TallyOf, StoredState, Lined, Fair, AtRest, Abort;
    var failed := result.Some? && result.value.error != "";
    var cause := if failed then ToolError(result.value.error) else NoError;
    var status := if failed then StepFailed else StepCompleted;
    var body := Body(Some(proposal), None, result, cause);
    StageMoves(env, rid, max, w, st, ExecuteTool, status, body, ToolExecuting, Phase.Decided, [], 0);
    var r := RecordStep(env, w, st, ExecuteTool, status, body);
    var t := Transition(env, r.w, r.st, ToolExecuting, r.step);
    var st1 := if failed then t.st.(toolResult := result, error := cause) else t.st.(toolResult := result);
    var next := if failed then ToolFailed else ToolCompleted;
    assert Underway(rid, max, t.w, st1, Head, [], 0);
    hide Underway, Staged;
    TransitionMoves(env, rid, max, t.w, st1, Head, 0, next, r.step);
    var u := Transition(env, t.w, st1, next, r.step);
    NoteRuns(rid, max, u.w, u.st, Head, [], 0, Streamed(Plain(EventToolOutput)));
  }

  lemma AfterRoutingRuns(env: Env, rid: Id, max: nat, routed: Routed, st: RunState, p: Proposal)
    requires Reliable(env)
    requires if routed.approval.Some? then
               && Underway(rid, max, routed.w, st, Proposed, [routed.approval.value.id], 1)
               && Handed(rid, routed.w, p, routed.approval.value)
             else Underway(rid, max, routed.w, st, Proposed, [], 0)
    requires st.proposal.Some? && st.proposal.value.tool == p.tool
    ensures TurnRests(rid, max, AfterRouting(env, routed, st, CloneProposal(p)))
  {
    hide RecordStep, Transition, TallyOf, StoredState, Lined, Fair, AtRest, Abort, CloneProposal, Pause, Finish, Underway;
    var body := EMPTY.(proposal := Some(CloneProposal(p)));
    var owed, due := if routed.approval.Some? then [routed.approval.value.id] else [], if routed.approval.Some? then 1 else 0;
    StageMoves(env, rid, max, routed.w, st, InferEffect, StepCompleted, body, EffectInferred, Proposed, owed, due);
    var r := RecordStep(env, routed.w, st, InferEffect, StepCompleted, body);
    var t := Transition(env, r.w, r.st, EffectInferred, r.step);
    StageMoves(env, rid, max, t.w, t.st, DecidePolicy, StepCompleted, body, PolicyDecided, Inferred, owed, due);
    var d := RecordStep(env, t.w, t.st, DecidePolicy, StepCompleted, body);
    var u := Transition(env, d.w, d.st, PolicyDecided, d.step);
    if routed.approval.Some? {
      var record := routed.approval.value;
      assert u.w.approvals == routed.w.approvals;
      PauseRuns(env, rid, max, u.w, u.st, p, record);
    } else {
      FinishRuns(env, rid, max, u.w, u.st, CloneProposal(p), routed.result);
    }
  }

  function Owed(approval: Option<Record>): seq<Id> { if approval.Some? then [approval.value.id] else [] }

  /** A propose_tool step and the routing it announces, taken together. */
  lemma RoutedStep(t: Tally, t': Tally, steps: seq<Step>, after: seq<Step>, p: Proposal, approval: Option<Record>)
    requires after != [] && Init(after) == steps && Last(after).kind == ProposeTool && Last(after).status == StepCompleted
    requires Last(after).proposal.Some? ==> Last(after).proposal.value.tool == p.tool
    requires Fair(t, steps, [], 1) && RoutedTally(t, t', p, approval)
    ensures Fair(t', after, Owed(approval), if approval.Some? then 1 else 0)
  {
    assert WaitsFromSteps(after) == WaitsFromSteps(steps);
    var names, stored := ToolsFromSteps(steps), ToolsFromSteps(after);
    assert stored == names + ToolOf(Last(after));
    assert t'.asked == WaitsFromSteps(after) + Owed(approval);
  }

  lemma UseToolRuns(env: Env, rid: Id, max: nat, w: World, st: RunState, p: Proposal)
    requires Reliable(env) && Underway(rid, max, w, st, Planned, [], 1)
    ensures TurnRests(rid, max, UseTool(env, w, st, p))
  {
    hide RecordStep, Transition, TallyOf, StoredState, Lined, Fair, AtRest, Abort, Propose, AfterRouting, Handed, CloneMap;
    var proposal := CloneProposal(p);
    var st1, body := st.(proposal := Some(proposal)), EMPTY.(proposal := Some(proposal));
    StageRuns(env, w, st1, ProposeTool, StepCompleted, body, ToolProposed);
    var r := RecordStep(env, w, st1, ProposeTool, StepCompleted, body);
    var t := Transition(env, r.w, r.st, ToolProposed, r.step);
    ProposeRuns(env, rid, t.w, p);
    var routed := Propose(env, t.w, rid, p);
    RoutedStep(TallyOf(w.trace), TallyOf(routed.w.trace), w.steps, t.w.steps, p, routed.approval);
    LinedLater(t.w.steps, t.w.clock, routed.w.clock);
    assert Underway(rid, max, routed.w, t.st, Proposed, Owed(routed.approval), if routed.approval.Some? then 1 else 0);
    if routed.ok {
      AfterRoutingRuns(env, rid, max, routed, t.st, p);
    } else {
      NotHanded(env, t.w, rid, p);
      UnderwayFails(env, rid, max, routed.w, t.st, RouterFailed, Proposed, 0);
    }
  }

  lemma LinedLater(steps: seq<Step>, clock: nat, later: nat)
    requires Lined(steps, clock) && clock <= later
    ensures Lined(steps, later)
  {}

  lemma NotHanded(env: Env, w: World, rid: Id, p: Proposal)
    requires !Propose(env, w, rid, p).ok
    ensures Propose(env, w, rid, p).approval.None?
  {
    hide CreateApproval, Execute, Decide, CloneMap;
  }

  lemma FollowRuns(env: Env, rid: Id, max: nat, w: World, st: RunState, last: Option<ToolResult>, plan: Plan)
    requires Reliable(env) && Underway(rid, max, w, st, Planned, [], 1)
    ensures TurnRests(rid, max, Follow(env, w, st, last, plan))
  {
    hide RecordStep, Transition, TallyOf, StoredState, Lined, AtRest, Abort, Complete, UseTool;
    match plan.decision
    case DecideContinue =>
      StageMoves(env, rid, max, w, st, ContinueStep, StepCompleted, EMPTY, PlanMade, Planned, [], 1);
    case DecideAnswer =>
      TickRuns(env, rid, max, w, st, Planned, [], 1);
      UnderwayFails(env, rid, max, Tick(env, w), st, RunnerFailed, Planned, 1);
      CompleteRuns(env, rid, max, Tick(env, w), st, 1);
      CompleteRuns(env, rid, max, w, st, 1);
    case DecideStop =>
      CompleteRuns(env, rid, max, w, st, 1);
    case DecideTool =>
      if plan.proposal.None? {
        UnderwayFails(env, rid, max, w, st, MissingProposal, Planned, 1);
      } else {
        UseToolRuns(env, rid, max, w, st, plan.proposal.value);
      }
    case _ =>
      UnderwayFails(env, rid, max, w, st, UnsupportedDecision, Planned, 1);
  }

  /** The planner has been called; the step that says so is not yet in the log. */
  ghost predicate Asked(rid: Id, max: nat, w: World, st: RunState)
  {
    && Stands(w, st) && st.runID == rid && st.maxSteps == max && Track(w.steps) == Head
    && st.stepCount == Plans(w.steps) + 1 <= max && TallyOf(w.trace).planned == st.stepCount && Fair(TallyOf(w.trace), w.steps, [], 1)
  }

  lemma PlannerRuns(env: Env, rid: Id, max: nat, w: World, st: RunState, input: PlanInput)
    requires Reliable(env) && OnHead(rid, max, w, st) && st.stepCount < max
    ensures Asked(rid, max, Note(Tick(env, w), PlannerCalled(input)), st.(stepCount := st.stepCount + 1))
    ensures !Tick(env, w).dead
  {
    TallyAppend(w.trace, PlannerCalled(input));
    hide Agree, TallyOf;
  }

  lemma PlanStepRuns(env: Env, rid: Id, max: nat, w: World, st: RunState, body: Body)
    requires Reliable(env) && Asked(rid, max, w, st)
    ensures var r := RecordStep(env, w, st, PlanStep, StepCompleted, body); var u := Transition(env, r.w, r.st, PlanMade, r.step);
      r.ok && Underway(rid, max, u.w, u.st, Planned, [], 1)
  {
    hide RecordStep, Transition, TallyOf, StoredState, Lined, Fair;
    StageRuns(env, w, st, PlanStep, StepCompleted, body, PlanMade);
    var r := RecordStep(env, w, st, PlanStep, StepCompleted, body);
    var u := Transition(env, r.w, r.st, PlanMade, r.step);
    PlainStep(TallyOf(w.trace), w.steps, u.w.steps, [], 1);
  }

  lemma PlannerFails(env: Env, rid: Id, max: nat, w: World, st: RunState)
    requires Reliable(env) && Asked(rid, max, w, st)
    ensures TurnRests(rid, max, Halt(Abort(env, w, st, PlannerFailed)))
  {
    FailRuns(env, rid, max, w, st, PlannerFailed, 1);
  }

  lemma TurnoverRuns(env: Env, rid: Id, max: nat, w: World, st0: RunState, last: Option<ToolResult>)
    requires Reliable(env) && OnHead(rid, max, w, st0) && st0.stepCount < max
    ensures TurnRests(rid, max, Turnover(env, w, st0, last))
  {
    hide Asked, Underway, RecordStep, Transition, TallyOf, AtRest, Abort, Follow, NormalizePlan, TurnRests, Tick, Note, Fair, Plans, Track;
    var st := st0.(stepCount := st0.stepCount + 1);
    var input := PlanInputOf(st, last);
    PlannerRuns(env, rid, max, w, st0, input);
    var called := Note(Tick(env, w), PlannerCalled(input));
    var answer := env.plan(w.clock, input);
    if answer.None? {
      PlannerFails(env, rid, max, called, st);
    } else {
      var plan := NormalizePlan(answer.value, last);
      PlanStepRuns(env, rid, max, called, st, PlanBody(plan));
      var r := RecordStep(env, called, st, PlanStep, StepCompleted, PlanBody(plan));
      var u := Transition(env, r.w, r.st, PlanMade, r.step);
      LogRuns(env, rid, max, u.w, u.st, Planned, [], 1, Plain(AssistantDelta));
      FollowRuns(env, rid, max, if plan.preamble then Log(env, u.w, Plain(AssistantDelta)) else u.w, u.st, last, plan);
    }
  }

  lemma {:induction false} ContinueRuns(env: Env, rid: Id, max: nat, w: World, st: RunState, last: Option<ToolResult>)
    requires Reliable(env) && OnHead(rid, max, w, st)
    ensures AtRest(rid, max, ContinueRun(env, w, st, last).w)
    decreases st.maxSteps - st.stepCount
  {
    if st.stepCount >= st.maxSteps {
      UnderwayFails(env, rid, max, w, st, MaxStepsExceeded, Head, 0);
    } else {
      TurnoverRuns(env, rid, max, w, st, last);
      hide Underway, AtRest, Turnover, Abort;
      match Turnover(env, w, st, last)
      case Halt(_) =>
      case Again(w', st', last') => ContinueRuns(env, rid, max, w', st', last');
    }
  }

  // ---------- the calls ----------

  lemma BeginRuns(env: Env, setup: Setup)
    requires Reliable(env) && Fresh(setup)
    ensures var w := Genesis(setup); var st := InitialState(setup.rid, setup.message, Budget(setup.configured), w.clock);
      var s := SaveState(env, w, st); var started := Log(env, s.w, Plain(RunStarted));
      && s.ok && AtRest(setup.rid, Budget(setup.configured), started)
      && Underway(setup.rid, Budget(setup.configured), started, st, Start, [], 0)
  {
    var w := Genesis(setup);
    var st := InitialState(setup.rid, setup.message, Budget(setup.configured), w.clock);
    var s := SaveState(env, w, st);
    StoredStateKeepsControl(env.red, st);
    LogIs(env, s.w, Plain(RunStarted));
    hide Log;
  }

  lemma StartRuns(env: Env, setup: Setup)
    requires Reliable(env) && Fresh(setup)
    ensures AtRest(setup.rid, Budget(setup.configured), StartRun(env, Genesis(setup), setup.rid, setup.message, setup.configured).w)
  {
    hide RecordStep, Transition, TallyOf, StoredState, Lined, Abort, ContinueRun, Genesis, SaveState, Fair, Awaits;
    var rid, max, w := setup.rid, Budget(setup.configured), Genesis(setup);
    BeginRuns(env, setup);
    var st := InitialState(rid, setup.message, max, w.clock);
    assert w.clock == setup.clock by { GenesisIs(setup); }
    var started := Log(env, SaveState(env, w, st).w, Plain(RunStarted));
    TickRuns(env, rid, max, started, st, Start, [], 0);
    var m := Tick(env, started);
    TickRuns(env, rid, max, m, st, Start, [], 0);
    var t := Tick(env, m);
    UnderwayFails(env, rid, max, t, st, ContextFailed, Start, 0);
    var built := env.context(m.clock);
    if env.messageOk(started.clock) && built.Some? {
      var st1 := st.(context := built.value);
      StageMoves(env, rid, max, t, st1, BuildContext, StepCompleted, EMPTY, ContextBuilt, Start, [], 0);
      var r := RecordStep(env, t, st1, BuildContext, StepCompleted, EMPTY);
      var c := Transition(env, r.w, r.st, ContextBuilt, r.step);
      ContinueRuns(env, rid, max, c.w, c.st, None);
    }
  }

  lemma GenesisIs(setup: Setup)
    ensures Genesis(setup).clock == setup.clock
  {}

  /** The counts do not depend on the approval store. */
  lemma StoreAside(rid: Id, max: nat, a: World, b: World, st: RunState, phase: Phase, due: nat)
    requires Underway(rid, max, a, st, phase, [], due) && b == a.(approvals := b.approvals)
    ensures Underway(rid, max, b, st, phase, [], due)
  {
    hide TallyOf, Fair, Lined;
  }

  lemma ResolveStands(w: World, st: RunState, id: Id, approve: bool, reason: string)
    requires Stands(w, st)
    ensures Stands(ResolveApproval(w, id, approve, reason).0, st) && ResolveApproval(w, id, approve, reason).0.steps == w.steps
  {
    hide Lined, Settle, Resolution;
  }

  /** Resolving changes the approval store and notes it; the counts stay. */
  lemma ResolveRuns(rid: Id, max: nat, w: World, st: RunState, phase: Phase, due: nat, id: Id, approve: bool, reason: string)
    requires Underway(rid, max, w, st, phase, [], due)
    ensures var (r, _) := ResolveApproval(w, id, approve, reason); Underway(rid, max, r, st, phase, [], due)
  {
    hide Underway, TallyOf, Settle;
    var settled := w.(approvals := Settle(w.approvals, id, approve, reason));
    StoreAside(rid, max, w, settled, st, phase, due);
    NoteRuns(rid, max, settled, st, phase, [], due, ResolvedAs(id, approve));
  }

  lemma CloseRejectedRuns(env: Env, rid: Id, max: nat, w: World, st: RunState)
    requires Reliable(env) && Underway(rid, max, w, st, Refused, [], 1)
    ensures AtRest(rid, max, CloseRejected(env, w, st).w)
  {
    hide Reliable, Underway, Abort, AtRest, TallyOf, Staged, RecordStep, Transition, PersistAssistant;
    StageMoves(env, rid, max, w, st, Summarize, StepCompleted, EMPTY, Summarizing, Refused, [], 1);
    var s := RecordStep(env, w, st, Summarize, StepCompleted, EMPTY);
    var u := Transition(env, s.w, s.st, Summarizing, s.step);
    AssistantRuns(env, rid, max, u.w, u.st, RefusedSummed, 1);
    var m := PersistAssistant(env, u.w);
    if m.ok {
      FinalizeRuns(env, rid, max, m.w, u.st, RefusedSummed, 1, ApprovalRejected);
      var f := RecordStep(env, m.w, u.st, Finalize, StepCompleted, EMPTY);
      LogRests(env, rid, max, Transition(env, f.w, f.st, ApprovalRejected, f.step).w, Plain(RunCompleted));
    } else {
      UnderwayFails(env, rid, max, m.w, u.st, MessageFailed, RefusedSummed, 1);
    }
  }

  lemma RejectPausedRuns(env: Env, rid: Id, max: nat, w: World, st: RunState, id: Id)
    requires Reliable(env) && Underway(rid, max, w, st, Waiting, [], 1)
    ensures AtRest(rid, max, RejectPaused(env, w, st, id).w)
  {
    hide Reliable, Underway, Fair, Stands, Abort, AtRest, StoredState, TallyOf, CloseRejected, RecordStep, Transition, ResolveApproval;
    ResolveRuns(rid, max, w, st, Waiting, 1, id, false, "rejected from workflow");
    var (w1, rejected) := ResolveApproval(w, id, false, "rejected from workflow");
    if rejected.None? {
      UnderwayFails(env, rid, max, w1, st, ResolveFailed, Waiting, 1);
    } else {
      var body := ApprovalBody(rejected.value);
      StageMoves(env, rid, max, w1, st, RequestApproval, StepCancelled, body, ApprovalRejected, Waiting, [], 1);
      var r := RecordStep(env, w1, st, RequestApproval, StepCancelled, body);
      var t := Transition(env, r.w, r.st, ApprovalRejected, r.step);
      LogRuns(env, rid, max, t.w, t.st, Refused, [], 1, OfApproval(EventApprovalRejected, id));
      CloseRejectedRuns(env, rid, max, Log(env, t.w, OfApproval(EventApprovalRejected, id)), t.st);
    }
  }

  /** The paid execution happens, or not; either way it is no longer due. */
  lemma ExecuteApprovedRuns(env: Env, rid: Id, max: nat, w: World, st: RunState, id: Id)
    requires Reliable(env) && Underway(rid, max, w, st, Granted, [], 1)
    ensures var e := ExecuteApproved(env, w, id); Underway(rid, max, e.w, st, Granted, [], 0)
  {
    if id in w.approvals {
      var p := CloneRecord(w.approvals[id]).proposal.(input := CloneMap(CloneRecord(w.approvals[id]).snapshot));
      ExecuteRuns(env, w, p, id);
      LinedLater(w.steps, w.clock, Execute(env, w, p, id).w.clock);
      hide Execute, TallyOf, CloneRecord, Lined, HashVerifies, Agree;
    }
  }

  lemma AfterFailureRuns(env: Env, rid: Id, max: nat, w: World, st: RunState, body: Body)
    requires Reliable(env) && Underway(rid, max, w, st, Granted, [], 0)
    ensures AtRest(rid, max, AfterFailure(env, w, st, body).w)
  {
    hide Underway, Fair, Stands, Abort, AtRest, StoredState, TallyOf, RecordStep, Transition;
    StageMoves(env, rid, max, w, st, ExecuteTool, StepFailed, body, ToolFailed, Granted, [], 0);
    var x := RecordStep(env, w, st, ExecuteTool, StepFailed, body);
    var y := Transition(env, x.w, x.st, ToolFailed, x.step);
    UnderwayFails(env, rid, max, y.w, y.st, RouterFailed, Broken, 0);
  }

  lemma AfterSuccessRuns(env: Env, rid: Id, max: nat, w: World, st: RunState, body: Body, result: Option<ToolResult>)
    requires Reliable(env) && Underway(rid, max, w, st, Granted, [], 0)
    ensures AtRest(rid, max, AfterSuccess(env, w, st, body, result).w)
  {
    hide Fair, Abort, AtRest, StoredState, TallyOf, RecordStep, Transition, ContinueRun;
    StageMoves(env, rid, max, w, st, ExecuteTool, StepCompleted, body, ToolCompleted, Granted, [], 0);
    var x := RecordStep(env, w, st, ExecuteTool, StepCompleted, body);
    var y := Transition(env, x.w, x.st, ToolCompleted, x.step);
    var act := Streamed(OfApproval(EventToolOutput, st.approvalID));
    NoteRuns(rid, max, y.w, y.st, Head, [], 0, act);
    var shown := if result.Some? then Note(y.w, act) else y.w;
    var cleared := y.st.(approvalID := NO_ID);
    TickRuns(env, rid, max, shown, cleared, Head, [], 0);
    var s := SaveState(env, shown, cleared);
    assert s.ok && OnHead(rid, max, s.w, cleared);
    ContinueRuns(env, rid, max, s.w, cleared, result);
  }

  lemma RunApprovedRuns(env: Env, rid: Id, max: nat, w: World, st: RunState, approval: Record, approved: Record)
    requires Reliable(env) && Underway(rid, max, w, st, Granted, [], 1)
    ensures AtRest(rid, max, RunApproved(env, w, st, approval, approved).w)
  {
    hide Fair, AtRest, TallyOf, AfterFailure, AfterSuccess, ExecuteApproved, Lined;
    ExecuteApprovedRuns(env, rid, max, w, st, approval.id);
    var e := ExecuteApproved(env, w, approval.id);
    if !e.ok {
      AfterFailureRuns(env, rid, max, e.w, st.(error := RouterFailed), ExecuteBody(approval, approved, None, RouterFailed));
    } else {
      AfterSuccessRuns(env, rid, max, e.w, st.(toolResult := e.result), ExecuteBody(approval, approved, e.result, NoError), e.result);
    }
  }

  lemma TransitionMoves(env: Env, rid: Id, max: nat, w: World, st: RunState, phase: Phase, due: nat, status: RunStatus, step: Step)
    requires Reliable(env) && Underway(rid, max, w, st, phase, [], due) && step.index == st.stepIndex
    ensures var t := Transition(env, w, st, status, step); Underway(rid, max, t.w, t.st, phase, [], due)
  {
    TransitionRuns(env, w, st, status, step);
    hide Transition, TallyOf, StoredState, Fair, Lined;
  }

  lemma ApprovePausedRuns(env: Env, rid: Id, max: nat, w: World, st: RunState, approval: Record)
    requires Reliable(env) && Underway(rid, max, w, st, Waiting, [], 1)
    ensures AtRest(rid, max, ApprovePaused(env, w, st, approval).w)
  {
    hide Reliable, Underway, Abort, AtRest, TallyOf, RunApproved, Staged, RecordStep, Transition, ResolveApproval;
    ResolveRuns(rid, max, w, st, Waiting, 1, approval.id, true, "");
    var (w1, approved) := ResolveApproval(w, approval.id, true, "");
    if approved.None? {
      UnderwayFails(env, rid, max, w1, st, ResolveFailed, Waiting, 1);
    } else {
      var body := ApprovalBody(approved.value);
      StageMoves(env, rid, max, w1, st, RequestApproval, StepCompleted, body, ApprovalApproved, Waiting, [], 1);
      var r := RecordStep(env, w1, st, RequestApproval, StepCompleted, body);
      var t := Transition(env, r.w, r.st, ApprovalApproved, r.step);
      var e := OfApproval(EventApprovalApproved, approval.id);
      LogRuns(env, rid, max, t.w, t.st, Granted, [], 1, e);
      var said := Log(env, t.w, e);
      hide Log;
      TransitionMoves(env, rid, max, said, t.st, Granted, 1, ToolExecuting, r.step);
      var u := Transition(env, said, t.st, ToolExecuting, r.step);
      RunApprovedRuns(env, rid, max, u.w, u.st, approval, approved.value);
    }
  }

  /** At rest on a pause, the state read back continues the run. */
  lemma RestResumes(rid: Id, max: nat, w: World)
    requires AtRest(rid, max, w) && w.run.value.status == PausedForApproval
    ensures Underway(rid, max, w, w.run.value, Waiting, [], 1)
  {
    hide TallyOf, Lined, Fair, Awaits;
  }

  lemma ResumeRuns(env: Env, rid: Id, max: nat, w: World, id: Id, approve: bool)
    requires Reliable(env) && AtRest(rid, max, w)
    ensures AtRest(rid, max, ResumeRun(env, w, rid, id, approve).w)
  {
    hide ApprovePaused, RejectPaused, TallyOf, Lined, Fair, Awaits, HydrateApproval;
    var st := w.run.value;
    if st.approvalID == id && st.status == PausedForApproval {
      RestResumes(rid, max, w);
      HydrateRuns(rid, max, w, st, id);
      HydratedRests(rid, max, w);
      var (h, approval) := HydrateApproval(w, id);
      hide AtRest, Underway;
      if approve {
        ApprovePausedRuns(env, rid, max, h, st, approval.value);
      } else {
        RejectPausedRuns(env, rid, max, h, st, id);
      }
    }
  }

  lemma HydrateRuns(rid: Id, max: nat, w: World, st: RunState, id: Id)
    requires Underway(rid, max, w, st, Waiting, [], 1)
    ensures Underway(rid, max, HydrateApproval(w, id).0, st, Waiting, [], 1)
  {
    hide TallyOf, Lined, Fair, LatestApproval;
  }

  /** A paused run always finds its own approval. */
  lemma HydratedRests(rid: Id, max: nat, w: World)
    requires AtRest(rid, max, w) && w.run.value.status == PausedForApproval
    ensures var (_, approval) := HydrateApproval(w, w.run.value.approvalID); approval.Some? && approval.value.runID == rid
  {
    hide TallyOf, Lined, Fair, CloneMap, HashVerifies;
    assert LatestApproval(w.steps, w.run.value.approvalID) == Last(w.steps).approval;
  }

  /** A run that is not over waits, was refused, or never got past its first step. */
  lemma RestGoesOn(rid: Id, max: nat, w: World)
    requires AtRest(rid, max, w) && !Terminal(w.run.value.status)
    ensures Track(w.steps) in {Start, Waiting, Declined}
    ensures Underway(rid, max, w, w.run.value, Track(w.steps), [], if Track(w.steps) == Waiting then 1 else 0)
  {
    hide TallyOf, Fair, Lined, Awaits;
  }

  lemma CancelRuns(env: Env, rid: Id, max: nat, w: World)
    requires Reliable(env) && AtRest(rid, max, w)
    ensures AtRest(rid, max, CancelRun(env, w).w)
  {
    hide AtRest, Underway, ResolveApproval, RecordStep, Transition, TallyOf;
    if !w.dead && w.run.Some? && !Terminal(w.run.value.status) {
      var st := w.run.value;
      var phase := Track(w.steps);
      var due := if phase == Waiting then 1 else 0;
      RestGoesOn(rid, max, w);
      ResolveRuns(rid, max, w, st, phase, due, st.approvalID, false, "run cancelled");
      var (w1, _) := if st.approvalID != NO_ID then ResolveApproval(w, st.approvalID, false, "run cancelled") else (w, None);
      CancelStepRuns(env, rid, max, w1, st, phase, due);
      var r := RecordStep(env, w1, st, CancelStep, StepCancelled, EMPTY);
      LogRests(env, rid, max, Transition(env, r.w, r.st, Cancelled, r.step).w, Plain(RunCancelled));
    }
  }

  lemma CancelStepRuns(env: Env, rid: Id, max: nat, w: World, st: RunState, phase: Phase, due: nat)
    requires Reliable(env) && Underway(rid, max, w, st, phase, [], due) && phase in {Start, Waiting, Declined}
    ensures var r := RecordStep(env, w, st, CancelStep, StepCancelled, EMPTY);
      r.ok && AtRest(rid, max, Transition(env, r.w, r.st, Cancelled, r.step).w)
  {
    hide AtRest, RecordStep, Transition, TallyOf, Fair, Lined, StoredState;
    StageRuns(env, w, st, CancelStep, StepCancelled, EMPTY, Cancelled);
    var r := RecordStep(env, w, st, CancelStep, StepCancelled, EMPTY);
    var t := Transition(env, r.w, r.st, Cancelled, r.step);
    assert Track(t.w.steps) == Abandoned && Plans(t.w.steps) == Plans(w.steps);
    StageRests(env, rid, max, w, st, CancelStep, StepCancelled, EMPTY, Cancelled, due, t);
  }

  lemma RestartRuns(rid: Id, max: nat, w: World)
    requires AtRest(rid, max, w)
    ensures AtRest(rid, max, Restart(w))
  {
    TallyAppend(w.trace, Restarted);
  }

  lemma {:induction false} CallsRun(env: Env, rid: Id, max: nat, w: World, calls: seq<Call>)
    requires Reliable(env) && AtRest(rid, max, w)
    ensures AtRest(rid, max, ApplyAll(env, rid, w, calls))
  {
    hide AtRest, ResumeRun, CancelRun, Restart;
    if calls != [] {
      var front := calls[..|calls| - 1];
      CallsRun(env, rid, max, w, front);
      var before := ApplyAll(env, rid, w, front);
      match calls[|calls| - 1]
      case Resume(id, approve) => ResumeRuns(env, rid, max, before, id, approve);
      case Cancel => CancelRuns(env, rid, max, before);
      case Reboot => RestartRuns(rid, max, before);
    }
  }

  /** At the end of every session the durable state, the step log and the event log agree. */
  lemma SessionRests(env: Env, setup: Setup, calls: seq<Call>)
    requires Reliable(env) && Fresh(setup)
    ensures AtRest(setup.rid, Budget(setup.configured), Session(env, setup, calls))
  {
    hide AtRest, StartRun, ApplyAll;
    StartRuns(env, setup);
    CallsRun(env, setup.rid, Budget(setup.configured), StartRun(env, Genesis(setup), setup.rid, setup.message, setup.configured).w, calls);
  }
}
