/** The runtime and the router as the program has them: objects that update the run's state, the stores and
    the event log step by step (internal/agent/runtime.go, internal/tools/router.go). Every method is proved
    to do what the function of the same purpose in module Machine says, so the theorems about sessions are
    theorems about these methods. */
module AgentRuntime {
  import opened Base
  import opened Json
  import opened Types
  import opened Approvals
  import opened Policy
  import opened RunStates
  import opened StateStore
  import M = Machine
  import Safety
  import CrashSafety
  import History

  /** The process and its event log. */
  class Host {
    var dead: bool
    var clock: nat
    var trace: seq<M.Act>

    constructor (now: nat)
      ensures !dead && clock == now && trace == []
    {
      dead, clock, trace := false, now, [];
    }

    method Note(act: M.Act)
      modifies this
      ensures dead == old(dead) && clock == old(clock) && trace == if dead then old(trace) else old(trace) + [act]
    {
      if !dead {
        trace := trace + [act];
      }
    }

    /** Appending to the run log takes time and may fail; nobody is told. */
    method Write(env: M.Env, event: M.Event)
      modifies this
      ensures dead == (old(dead) || env.crash(old(clock))) && clock == old(clock) + if old(dead) then 0 else 1
      ensures trace == if dead then old(trace) else old(trace) + [M.Written(env, old(clock), event)]
    {
      var now := clock;
      Tick(env);
      if env.eventOk(now) {
        Note(M.Logged(event));
      } else {
        Note(M.Lost(event));
      }
    }

    /** Time passes, and the process may die instead. */
    method Tick(env: M.Env)
      modifies this
      ensures trace == old(trace) && dead == (old(dead) || env.crash(old(clock))) && clock == old(clock) + if old(dead) then 0 else 1
    {
      if !dead {
        dead := env.crash(clock);
        clock := clock + 1;
      }
    }
  }

  /** The state of a run in progress, which every step updates in place. */
  class StateRef {
    var value: RunState

    constructor (st: RunState)
      ensures value == st
    {
      value := st;
    }
  }

  /** The router: the only way to an executor. It shares the event log and the approval store with the
      runtime; `run` and `steps` stand for the durable half of the world, which it does not touch. */
  class LocalRouter {
    const env: M.Env
    const host: Host
    const center: ApprovalCenter

    constructor (env: M.Env, host: Host, center: ApprovalCenter)
      ensures this.env == env && this.host == host && this.center == center
    {
      this.env, this.host, this.center := env, host, center;
    }

    /** The world as module Machine sees it. */
    function Seen(run: Option<RunState>, steps: seq<Step>): M.World
      reads host, center
    {
      M.World(host.dead, host.clock, run, steps, center.approvals, host.trace)
    }

    method Emit(ghost run: Option<RunState>, ghost steps: seq<Step>, event: M.Event)
      modifies host
      ensures Seen(run, steps) == M.Log(env, old(Seen(run, steps)), event)
    {
      host.Write(env, event);
    }

    method Execute(p: Proposal, approval: Id, ghost run: Option<RunState>, ghost steps: seq<Step>)
      returns (ok: bool, result: Option<ToolResult>)
      modifies host
      ensures var e := M.Execute(env, old(Seen(run, steps)), p, approval);
        Seen(run, steps) == e.w && ok == e.ok && result == e.result
    {
      hide CloneMap, M.Log;
      ok, result := false, None;
      if !env.registered(p.tool) {
        return;
      }
      Emit(run, steps, M.OfTool(M.EventToolStarted, p));
      var now := host.clock;
      host.Tick(env);
      if host.dead {
        return;
      }
      var input := CloneMap(p.input);
      host.Note(M.Executed(p.id, p.tool, input, approval));
      var outcome := env.execute(now, p.tool, input);
      result := outcome.result;
      if result.Some? && result.value.callID == "" {
        result := Some(result.value.(callID := p.id));
      }
      if result.Some? {
        Emit(run, steps, M.OfTool(M.EventToolOutput, p));
      }
      if outcome.failed {
        Emit(run, steps, M.OfTool(M.EventToolFailed, p));
        return;
      }
      Emit(run, steps, M.OfTool(M.EventToolCompleted, p));
      ok := true;
    }

    method CreateApproval(runID: Id, p: Proposal, inference: Inference, decision: Decision,
            ghost run: Option<RunState>, ghost steps: seq<Step>)
      returns (created: Option<Record>)
      modifies host, center
      ensures var (w, r) := M.CreateApproval(env, old(Seen(run, steps)), runID, p, inference, decision);
        Seen(run, steps) == w && created == r
    {
      hide Draft, CloneRecord;
      var id := host.clock;
      host.Tick(env);
      if host.dead {
        return None;
      }
      created := center.Create(id, runID, p, inference, decision);
      if created.Some? {
        host.Note(M.Created(created.value));
      }
    }

    /** What Propose hands back; without `ok` there is nothing but the error. */
    method Propose(runID: Id, p: Proposal, ghost run: Option<RunState>, ghost steps: seq<Step>)
      returns (ok: bool, approval: Option<Record>, result: Option<ToolResult>)
      modifies host, center
      ensures var r := M.Propose(env, old(Seen(run, steps)), runID, p);
        Seen(run, steps) == r.w && ok == r.ok && approval == r.approval && result == r.result
    {
      hide M.Dispatch, M.Log, CloneMap, Decide;
      Emit(run, steps, M.OfTool(M.EventToolProposed, p).(input := CloneMap(p.input)));
      var now := host.clock;
      host.Tick(env);
      var inferred := env.infer(now, p);
      if host.dead || inferred.None? {
        return false, None, None;
      }
      Emit(run, steps, M.OfTool(M.EventEffectInferred, p));
      var decision := Decide(env.policy, p, inferred.value);
      host.Note(M.DecidedOn(p, decision));
      Emit(run, steps, M.OfTool(M.EventPolicyDecided, p).(decision := Some(decision)));
      ok, approval, result := Dispatch(runID, p, inferred.value, decision, run, steps);
    }

    method Dispatch(runID: Id, p: Proposal, inference: Inference, decision: Decision,
            ghost run: Option<RunState>, ghost steps: seq<Step>)
      returns (ok: bool, approval: Option<Record>, result: Option<ToolResult>)
      modifies host, center
      ensures var r := M.Dispatch(env, old(Seen(run, steps)), runID, p, inference, decision);
        Seen(run, steps) == r.w && ok == r.ok && approval == r.approval && result == r.result
    {
      hide M.CreateApproval, M.Execute, M.Log;
      approval, result := None, None;
      if decision.requiresApproval {
        approval := CreateApproval(runID, p, inference, decision, run, steps);
        ok := approval.Some?;
        if ok {
          Emit(run, steps, M.OfApproval(M.EventApprovalRequested, approval.value.id));
        }
      } else if !decision.allowed {
        Emit(run, steps, M.OfTool(M.EventPolicyDenied, p).(decision := Some(decision)));
        ok, result := true, Some(M.Denial(p, decision));
      } else {
        ok, result := Execute(p, NO_ID, run, steps);
        if !ok {
          result := None;
        }
      }
    }

    method ExecuteApproved(id: Id, ghost run: Option<RunState>, ghost steps: seq<Step>) returns (ok: bool, result: Option<ToolResult>)
      modifies host
      ensures var e := M.ExecuteApproved(env, old(Seen(run, steps)), id); Seen(run, steps) == e.w && ok == e.ok && result == e.result
    {
      hide M.Execute, CloneMap, HashMap;
      ok, result := false, None;
      if host.dead {
        return;
      }
      var record := center.Get(id);
      if record.None? || record.value.status != Approved {
        return;
      }
      var verified := center.VerifySnapshotHash(id);
      if !verified {
        return;
      }
      ok, result := Execute(record.value.proposal.(input := CloneMap(record.value.snapshot)), id, run, steps);
    }

    method ExecuteReadOnly(p: Proposal, ghost run: Option<RunState>, ghost steps: seq<Step>) returns (ok: bool, result: Option<ToolResult>)
      modifies host
      ensures var e := M.ExecuteReadOnly(env, old(Seen(run, steps)), p); Seen(run, steps) == e.w && ok == e.ok && result == e.result
    {
      hide M.Execute, Decide;
      var now := host.clock;
      host.Tick(env);
      var inferred := env.infer(now, p);
      if host.dead || inferred.None? {
        return false, None;
      }
      var decision := Decide(env.policy, p, inferred.value);
      host.Note(M.DecidedOn(p, decision));
      if decision.requiresApproval {
        return false, None;
      }
      ok, result := Execute(p, NO_ID, run, steps);
    }
  }

  /** A pass of the planning loop ended as module Machine says: with another one to come, or with an answer. */
  ghost predicate Ends(t: M.Turn, w: M.World, st: RunState, more: bool, ok: bool, last: Option<ToolResult>)
  {
    match t
    case Halt(out) => !more && w == out.w && st == out.st && ok == out.ok
    case Again(w', st', last') => more && w == w' && st == st' && last == last'
  }

  /** A runtime serving one run on its stores. */
  class Runtime {
    const env: M.Env
    const rid: Id
    const host: Host
    const store: PersistentRunStateStore
    const center: ApprovalCenter
    const router: LocalRouter

    constructor (env: M.Env, rid: Id, host: Host, store: PersistentRunStateStore, center: ApprovalCenter, router: LocalRouter)
      requires store.red == env.red && router.env == env && router.host == host && router.center == center
      ensures this.env == env && this.rid == rid && this.host == host && this.store == store && this.center == center
      ensures Wired()
    {
      this.env, this.rid, this.host, this.store, this.center, this.router := env, rid, host, store, center, router;
    }

    ghost predicate Wired() { store.red == env.red && router.env == env && router.host == host && router.center == center }

    /** The world as module Machine sees it. */
    function Now(): M.World
      reads host, store, center
    {
      M.World(host.dead, host.clock, store.RunOf(rid), store.LogOf(rid), center.approvals, host.trace)
    }

    // ---------- single effects ----------

    method Note(act: M.Act)
      modifies host
      ensures Now() == M.Note(old(Now()), act)
    {
      host.Note(act);
    }

    method Emit(event: M.Event)
      modifies host
      ensures Now() == M.Log(env, old(Now()), event)
    {
      host.Write(env, event);
    }

    method Tick()
      modifies host
      ensures Now() == M.Tick(env, old(Now()))
    {
      host.Tick(env);
    }

    method SaveStep(step: Step) returns (ok: bool)
      requires Wired() && step.runID == rid
      modifies host, store
      ensures var a := M.SaveStep(env, old(Now()), step); Now() == a.w && ok == a.ok
    {
      var now := host.clock;
      Tick();
      ok := false;
      if !host.dead && env.storeOk(now) {
        store.SaveStep(step);
        ok := env.ackOk(now);
      }
    }

    method SaveState(st: RunState) returns (ok: bool)
      requires Wired() && st.runID == rid
      modifies host, store
      ensures var a := M.SaveState(env, old(Now()), st); Now() == a.w && ok == a.ok
    {
      var now := host.clock;
      Tick();
      ok := false;
      if !host.dead && env.storeOk(now) {
        store.Save(st);
        ok := env.ackOk(now);
      }
    }

    // ---------- steps and transitions ----------

    method RecordStep(state: StateRef, kind: StepKind, status: StepStatus, body: M.Body) returns (step: Step, ok: bool)
      requires Wired() && state.value.runID == rid
      modifies host, store, state
      ensures var r := M.RecordStep(env, old(Now()), old(state.value), kind, status, body);
        Now() == r.w && state.value == r.st && step == r.step && ok == r.ok
      ensures state.value.runID == rid
    {
      hide M.SaveStep, M.SaveState;
      var now := host.clock;
      step := Step(now, state.value.runID, state.value.stepIndex + 1, kind, status, body.proposal, body.approval, body.result, body.error);
      state.value := state.value.(currentStep := kind);
      state.value := state.value.(stepIndex := step.index);
      state.value := state.value.(updatedAt := now);
      ok := SaveStep(step);
      if !ok {
        return;
      }
      ok := SaveState(state.value);
    }

    method Transition(state: StateRef, status: RunStatus, step: Step)
      requires Wired() && state.value.runID == rid
      modifies host, store, state
      ensures var t := M.Transition(env, old(Now()), old(state.value), status, step); Now() == t.w && state.value == t.st
      ensures state.value.runID == rid
    {
      hide M.SaveState, M.Note, M.Log;
      state.value := state.value.(status := status);
      state.value := state.value.(currentStep := step.kind);
      state.value := state.value.(stepIndex := step.index);
      state.value := state.value.(updatedAt := host.clock);
      var _ := SaveState(state.value);
      Emit(M.OfApproval(M.RunStateChanged, state.value.approvalID));
    }

    /** fail(); every caller then returns the error. */
    method Fail(state: StateRef, cause: Cause)
      requires Wired() && state.value.runID == rid
      modifies host, store, state
      ensures var o := M.Abort(env, old(Now()), old(state.value), cause); Now() == o.w && state.value == o.st && !o.ok
      ensures state.value.runID == rid
    {
      hide M.RecordStep, M.Transition, M.Note, M.Log, Now;
      state.value := state.value.(error := cause);
      var step, ok := RecordStep(state, Finalize, StepFailed, M.EMPTY.(error := cause));
      if ok {
        Transition(state, Failed, step);
      }
      Emit(M.Plain(M.RunFailed).(cause := cause));
    }

    // ---------- the planning loop ----------

    method PersistAssistant() returns (ok: bool)
      modifies host
      ensures var m := M.PersistAssistant(env, old(Now())); Now() == m.w && ok == m.ok
    {
      var now := host.clock;
      Tick();
      ok := !host.dead && env.messageOk(now);
      if ok {
        Emit(M.Plain(M.AssistantMessage));
      }
    }

    method CompleteWithMessage(state: StateRef) returns (ok: bool)
      requires Wired() && state.value.runID == rid
      modifies host, store, state
      ensures var o := M.Complete(env, old(Now()), old(state.value)); Now() == o.w && state.value == o.st && ok == o.ok
      ensures state.value.runID == rid
    {
      hide M.RecordStep, M.Transition, M.Note, M.Log, M.PersistAssistant, M.Abort, Now;
      var step: Step;
      step, ok := RecordStep(state, Summarize, StepCompleted, M.EMPTY);
      if !ok {
        Fail(state, StoreFailed);
        return;
      }
      Transition(state, Summarizing, step);
      ok := PersistAssistant();
      if !ok {
        Fail(state, MessageFailed);
        return;
      }
      step, ok := RecordStep(state, Finalize, StepCompleted, M.EMPTY);
      if !ok {
        Fail(state, StoreFailed);
        return;
      }
      Transition(state, Completed, step);
      Emit(M.Plain(M.RunCompleted));
    }

    method Pause(state: StateRef, record: Record) returns (ok: bool)
      requires Wired() && state.value.runID == rid
      modifies host, store, state
      ensures Ends(M.Pause(env, old(Now()), old(state.value), record), Now(), state.value, false, ok, None)
      ensures state.value.runID == rid
    {
      hide M.RecordStep, M.Transition, M.Note, M.Log, M.PersistAssistant, M.Abort, Now, CloneRecord;
      state.value := state.value.(approvalID := record.id);
      var step: Step;
      step, ok := RecordStep(state, RequestApproval, StepPaused, M.Body(state.value.proposal, Some(CloneRecord(record)), None, NoError));
      if !ok {
        Fail(state, StoreFailed);
        return;
      }
      Transition(state, ApprovalRequested, step);
      Note(M.Streamed(M.OfApproval(M.EventApprovalRequested, record.id)));
      Transition(state, PausedForApproval, step);
      ok := PersistAssistant();
      if !ok {
        Fail(state, MessageFailed);
        return;
      }
      Emit(M.OfApproval(M.RunPaused, record.id));
    }

    method Finish(state: StateRef, proposal: Proposal, result: Option<ToolResult>) returns (more: bool, ok: bool)
      requires Wired() && state.value.runID == rid
      modifies host, store, state
      ensures Ends(M.Finish(env, old(Now()), old(state.value), proposal, result), Now(), state.value, more, ok, result)
      ensures state.value.runID == rid
    {
      hide M.RecordStep, M.Transition, M.Note, M.Log, M.Abort, Now;
      more := false;
      var failed := result.Some? && result.value.error != "";
      var cause := if failed then ToolError(result.value.error) else NoError;
      var step: Step;
      step, ok := RecordStep(state, ExecuteTool, if failed then StepFailed else StepCompleted, M.Body(Some(proposal), None, result, cause));
      if !ok {
        Fail(state, StoreFailed);
        return;
      }
      Transition(state, ToolExecuting, step);
      state.value := state.value.(toolResult := result);
      if failed {
        state.value := state.value.(error := cause);
        Transition(state, ToolFailed, step);
      } else {
        Transition(state, ToolCompleted, step);
      }
      if result.Some? {
        Note(M.Streamed(M.Plain(M.EventToolOutput)));
      }
      more := true;
    }

    /** Everything a tool plan leads to. */
    method UseTool(state: StateRef, p: Proposal) returns (more: bool, ok: bool, last: Option<ToolResult>)
      requires Wired() && state.value.runID == rid
      modifies host, store, center, state
      ensures Ends(M.UseTool(env, old(Now()), old(state.value), p), Now(), state.value, more, ok, last)
      ensures state.value.runID == rid
    {
      hide M.RecordStep, M.Transition, M.Abort, M.Propose, M.AfterRouting, CloneMap;
      more, last := false, None;
      var proposal := CloneProposal(p);
      state.value := state.value.(proposal := Some(proposal));
      var step: Step;
      step, ok := RecordStep(state, ProposeTool, StepCompleted, M.EMPTY.(proposal := Some(proposal)));
      if !ok {
        Fail(state, StoreFailed);
        return;
      }
      Transition(state, ToolProposed, step);
      ghost var before := Now();
      var approval: Option<Record>;
      ok, approval, last := router.Propose(state.value.runID, p, store.RunOf(rid), store.LogOf(rid));
      if !ok {
        Fail(state, RouterFailed);
        return;
      }
      more, ok := AfterRouting(state, proposal, approval, last, M.Propose(env, before, state.value.runID, p));
    }

    method AfterRouting(state: StateRef, proposal: Proposal, approval: Option<Record>, result: Option<ToolResult>, ghost routed: M.Routed)
      returns (more: bool, ok: bool)
      requires Wired() && state.value.runID == rid
      requires Now() == routed.w && approval == routed.approval && result == routed.result
      modifies host, store, state
      ensures Ends(M.AfterRouting(env, routed, old(state.value), proposal), Now(), state.value, more, ok, result)
      ensures state.value.runID == rid
    {
      hide M.RecordStep, M.Transition, M.Abort, M.Pause, M.Finish, Now;
      more := false;
      var step: Step;
      step, ok := RecordStep(state, InferEffect, StepCompleted, M.EMPTY.(proposal := Some(proposal)));
      if !ok {
        Fail(state, StoreFailed);
        return;
      }
      Transition(state, EffectInferred, step);
      step, ok := RecordStep(state, DecidePolicy, StepCompleted, M.EMPTY.(proposal := Some(proposal)));
      if !ok {
        Fail(state, StoreFailed);
        return;
      }
      Transition(state, PolicyDecided, step);
      if approval.Some? {
        ok := Pause(state, approval.value);
      } else {
        more, ok := Finish(state, proposal, result);
      }
    }

    method Follow(state: StateRef, last: Option<ToolResult>, plan: M.Plan) returns (more: bool, ok: bool, next: Option<ToolResult>)
      requires Wired() && state.value.runID == rid
      modifies host, store, center, state
      ensures Ends(M.Follow(env, old(Now()), old(state.value), last, plan), Now(), state.value, more, ok, next)
      ensures state.value.runID == rid
    {
      hide M.RecordStep, M.Transition, M.Abort, M.Complete, M.UseTool;
      more, ok, next := false, false, last;
      match plan.decision {
        case DecideContinue =>
          var step: Step;
          step, ok := RecordStep(state, ContinueStep, StepCompleted, M.EMPTY);
          if !ok {
            Fail(state, StoreFailed);
            return;
          }
          Transition(state, PlanMade, step);
          more := true;
        case DecideAnswer =>
          if plan.useRunner || plan.message == "" {
            var now := host.clock;
            Tick();
            if host.dead || env.answer(now, state.value.context).None? {
              Fail(state, RunnerFailed);
              return;
            }
          }
          ok := CompleteWithMessage(state);
        case DecideStop =>
          ok := CompleteWithMessage(state);
        case DecideTool =>
          if plan.proposal.None? {
            Fail(state, MissingProposal);
            return;
          }
          more, ok, next := UseTool(state, plan.proposal.value);
        case _ =>
          Fail(state, UnsupportedDecision);
      }
    }

    /** One pass through the body of the loop. */
    method Turnover(state: StateRef, last: Option<ToolResult>) returns (more: bool, ok: bool, next: Option<ToolResult>)
      requires Wired() && state.value.runID == rid
      modifies host, store, center, state
      ensures Ends(M.Turnover(env, old(Now()), old(state.value), last), Now(), state.value, more, ok, next)
      ensures state.value.runID == rid
    {
      hide M.RecordStep, M.Transition, M.Abort, M.Follow, M.NormalizePlan;
      more, ok, next := false, false, last;
      state.value := state.value.(stepCount := state.value.stepCount + 1);
      var input := M.PlanInputOf(state.value, last);
      var now := host.clock;
      Tick();
      Note(M.PlannerCalled(input));
      var answer := env.plan(now, input);
      if host.dead || answer.None? {
        Fail(state, PlannerFailed);
        return;
      }
      var plan := M.NormalizePlan(answer.value, last);
      hide Now, M.Note, M.Log, M.Tick;
      var step: Step;
      step, ok := RecordStep(state, PlanStep, StepCompleted, M.PlanBody(plan));
      if !ok {
        Fail(state, StoreFailed);
        return;
      }
      Transition(state, PlanMade, step);
      if plan.preamble {
        Emit(M.Plain(M.AssistantDelta));
      }
      more, ok, next := Follow(state, last, plan);
    }

    /** The loop ends for every planner: each pass that goes round spends one unit of the budget. */
    method ContinueWorkflow(state: StateRef, result: Option<ToolResult>) returns (ok: bool)
      requires Wired() && state.value.runID == rid
      modifies host, store, center, state
      ensures var o := M.ContinueRun(env, old(Now()), old(state.value), result); Now() == o.w && state.value == o.st && ok == o.ok
      ensures state.value.runID == rid
    {
      hide Now, M.Turnover, M.Abort;
      var last := result;
      ok := true;
      while true
        invariant state.value.runID == rid
        invariant M.ContinueRun(env, Now(), state.value, last) == M.ContinueRun(env, old(Now()), old(state.value), result)
        decreases state.value.maxSteps - state.value.stepCount
      {
        if state.value.stepCount >= state.value.maxSteps {
          Fail(state, MaxStepsExceeded);
          return false;
        }
        var more: bool;
        more, ok, last := Turnover(state, last);
        if !more {
          return;
        }
      }
    }

    // ---------- the calls ----------

    method Run(message: string, configured: nat) returns (ok: bool, state: StateRef)
      requires Wired()
      modifies host, store, center
      ensures fresh(state)
      ensures var o := M.StartRun(env, old(Now()), rid, message, configured); Now() == o.w && state.value == o.st && ok == o.ok
    {
      hide M.RecordStep, M.Transition, M.Abort, M.ContinueRun, M.SaveState;
      state := new StateRef(M.InitialState(rid, message, M.Budget(configured), host.clock));
      ok := SaveState(state.value);
      if !ok {
        return;
      }
      Emit(M.Plain(M.RunStarted));
      var now := host.clock;
      Tick();
      if host.dead || !env.messageOk(now) {
        ok := false;
        return;
      }
      now := host.clock;
      Tick();
      var built := env.context(now);
      if host.dead || built.None? {
        Fail(state, ContextFailed);
        ok := false;
        return;
      }
      state.value := state.value.(context := built.value);
      var step: Step;
      step, ok := RecordStep(state, BuildContext, StepCompleted, M.EMPTY);
      if !ok {
        Fail(state, StoreFailed);
        return;
      }
      Transition(state, ContextBuilt, step);
      ok := ContinueWorkflow(state, None);
    }

    /** The record in the store, or else the one rebuilt from the durable log. */
    method HydrateApproval(id: Id) returns (found: Option<Record>)
      modifies center
      ensures var (w, r) := M.HydrateApproval(old(Now()), id); Now() == w && found == r
    {
      hide CloneRecord;
      if host.dead {
        return None;
      }
      found := center.Get(id);
      if found.Some? {
        return;
      }
      var steps := store.ListSteps(rid);
      var i := |steps|;
      assert steps[..i] == steps;
      while i > 0
        invariant 0 <= i <= |steps|
        invariant M.LatestApproval(steps, id) == M.LatestApproval(steps[..i], id)
      {
        i := i - 1;
        assert steps[..i + 1][..i] == steps[..i];
        if steps[i].approval.None? || steps[i].approval.value.id != id {
          continue;
        }
        var hydrated := center.Hydrate(steps[i].approval.value);
        if !hydrated {
          return None;
        }
        found := center.Get(id);
        return;
      }
    }

    method ResolveApproval(id: Id, approve: bool, reason: string) returns (resolved: Option<Record>)
      modifies host, center
      ensures var (w, r) := M.ResolveApproval(old(Now()), id, approve, reason); Now() == w && resolved == r
    {
      hide Resolution, Settle;
      if host.dead {
        return None;
      }
      resolved := center.Resolve(id, approve, reason);
      Unresolved(old(center.approvals), id, approve, reason);
      if resolved.Some? {
        Note(M.ResolvedAs(id, approve));
      }
    }

    /** The stored state belongs to the run it is filed under. */
    ghost predicate Filed()
      reads store
    {
      store.RunOf(rid).Some? ==> store.RunOf(rid).value.runID == rid
    }

    method ResumeRun(id: Id, approve: bool) returns (ok: bool, state: StateRef)
      requires Wired() && Filed()
      modifies host, store, center
      ensures fresh(state)
      ensures var o := M.ResumeRun(env, old(Now()), rid, id, approve); Now() == o.w && state.value == o.st && ok == o.ok
    {
      hide M.ApprovePaused, M.RejectPaused, M.HydrateApproval;
      state := new StateRef(M.NO_STATE);
      ok := false;
      if host.dead {
        return;
      }
      var stored := store.Get(rid);
      if stored.None? {
        return;
      }
      state.value := stored.value;
      if state.value.approvalID != id || state.value.status != PausedForApproval {
        return;
      }
      var approval := HydrateApproval(id);
      hide Now;
      if approval.None? || approval.value.runID != rid {
        return;
      }
      if approve {
        ok := ApprovePaused(state, approval.value);
      } else {
        ok := RejectPaused(state, id);
      }
    }

    method RejectPaused(state: StateRef, id: Id) returns (ok: bool)
      requires Wired() && state.value.runID == rid
      modifies host, store, center, state
      ensures var o := M.RejectPaused(env, old(Now()), old(state.value), id); Now() == o.w && state.value == o.st && ok == o.ok
    {
      hide M.RecordStep, M.Transition, M.Note, M.Log, M.Abort, M.ResolveApproval, M.CloseRejected, M.ApprovalBody, Now;
      var rejected := ResolveApproval(id, false, "rejected from workflow");
      if rejected.None? {
        Fail(state, ResolveFailed);
        return false;
      }
      var step: Step;
      step, ok := RecordStep(state, RequestApproval, StepCancelled, M.ApprovalBody(rejected.value));
      if !ok {
        Fail(state, StoreFailed);
        return;
      }
      Transition(state, ApprovalRejected, step);
      Emit(M.OfApproval(M.EventApprovalRejected, id));
      ok := CloseRejected(state);
    }

    method CloseRejected(state: StateRef) returns (ok: bool)
      requires Wired() && state.value.runID == rid
      modifies host, store, state
      ensures var o := M.CloseRejected(env, old(Now()), old(state.value)); Now() == o.w && state.value == o.st && ok == o.ok
    {
      hide M.RecordStep, M.Transition, M.Note, M.Log, M.PersistAssistant, M.Abort, Now;
      var step: Step;
      step, ok := RecordStep(state, Summarize, StepCompleted, M.EMPTY);
      if !ok {
        Fail(state, StoreFailed);
        return;
      }
      Transition(state, Summarizing, step);
      ok := PersistAssistant();
      if !ok {
        Fail(state, MessageFailed);
        return;
      }
      step, ok := RecordStep(state, Finalize, StepCompleted, M.EMPTY);
      if !ok {
        Fail(state, StoreFailed);
        return;
      }
      Transition(state, ApprovalRejected, step);
      Emit(M.Plain(M.RunCompleted));
    }

    method ApprovePaused(state: StateRef, approval: Record) returns (ok: bool)
      requires Wired() && state.value.runID == rid
      modifies host, store, center, state
      ensures var o := M.ApprovePaused(env, old(Now()), old(state.value), approval); Now() == o.w && state.value == o.st && ok == o.ok
    {
      hide M.RecordStep, M.Transition, M.Note, M.Log, M.Abort, M.ResolveApproval, M.RunApproved, M.ApprovalBody, Now;
      var approved := ResolveApproval(approval.id, true, "");
      if approved.None? {
        Fail(state, ResolveFailed);
        return false;
      }
      var step: Step;
      step, ok := RecordStep(state, RequestApproval, StepCompleted, M.ApprovalBody(approved.value));
      if !ok {
        Fail(state, StoreFailed);
        return;
      }
      Transition(state, ApprovalApproved, step);
      Emit(M.OfApproval(M.EventApprovalApproved, approval.id));
      Transition(state, ToolExecuting, step);
      ok := RunApproved(state, approval, approved.value);
    }

    method RunApproved(state: StateRef, approval: Record, approved: Record) returns (ok: bool)
      requires Wired() && state.value.runID == rid
      modifies host, store, center, state
      ensures var o := M.RunApproved(env, old(Now()), old(state.value), approval, approved); Now() == o.w && state.value == o.st && ok == o.ok
    {
      hide M.ExecuteApproved, M.AfterFailure, M.AfterSuccess, M.ExecuteBody;
      var result: Option<ToolResult>;
      ok, result := router.ExecuteApproved(approval.id, store.RunOf(rid), store.LogOf(rid));
      if !ok {
        state.value := state.value.(error := RouterFailed);
        AfterFailure(state, M.ExecuteBody(approval, approved, None, RouterFailed));
      } else {
        state.value := state.value.(toolResult := result);
        ok := AfterSuccess(state, M.ExecuteBody(approval, approved, result, NoError), result);
      }
    }

    method AfterFailure(state: StateRef, body: M.Body)
      requires Wired() && state.value.runID == rid
      modifies host, store, state
      ensures var o := M.AfterFailure(env, old(Now()), old(state.value), body); Now() == o.w && state.value == o.st && !o.ok
    {
      hide M.RecordStep, M.Transition, Now;
      var step, ok := RecordStep(state, ExecuteTool, StepFailed, body);
      if ok {
        Transition(state, ToolFailed, step);
      }
      hide M.Fail;
      Fail(state, RouterFailed);
    }

    method AfterSuccess(state: StateRef, body: M.Body, result: Option<ToolResult>) returns (ok: bool)
      requires Wired() && state.value.runID == rid
      modifies host, store, center, state
      ensures var o := M.AfterSuccess(env, old(Now()), old(state.value), body, result); Now() == o.w && state.value == o.st && ok == o.ok
    {
      hide M.RecordStep, M.Transition, M.Note, M.Log, M.Abort, M.SaveState, M.ContinueRun, Now;
      var id := state.value.approvalID;
      var step: Step;
      step, ok := RecordStep(state, ExecuteTool, StepCompleted, body);
      if !ok {
        Fail(state, StoreFailed);
        return;
      }
      Transition(state, ToolCompleted, step);
      if result.Some? {
        Note(M.Streamed(M.OfApproval(M.EventToolOutput, id)));
      }
      state.value := state.value.(approvalID := NO_ID);
      ok := SaveState(state.value);
      if !ok {
        return;
      }
      ok := ContinueWorkflow(state, result);
    }

    method CancelRun() returns (ok: bool, state: StateRef)
      requires Wired() && Filed()
      modifies host, store, center
      ensures fresh(state)
      ensures var o := M.CancelRun(env, old(Now())); Now() == o.w && state.value == o.st && ok == o.ok
    {
      hide M.RecordStep, M.Transition, M.Note, M.Log, M.ResolveApproval;
      state := new StateRef(M.NO_STATE);
      ok := false;
      if host.dead {
        return;
      }
      var stored := store.Get(rid);
      if stored.None? {
        return;
      }
      state.value := stored.value;
      if M.Terminal(state.value.status) {
        return;
      }
      var id := state.value.approvalID;
      if id != NO_ID {
        var approval := center.Get(id);
        if approval.Some? && approval.value.status == Pending {
          var _ := ResolveApproval(id, false, "run cancelled");
        } else {
          NothingToReject(old(Now()), id, "run cancelled");
        }
      }
      var step: Step;
      step, ok := RecordStep(state, CancelStep, StepCancelled, M.EMPTY);
      if !ok {
        return;
      }
      Transition(state, Cancelled, step);
      Emit(M.Plain(M.RunCancelled));
    }

    /** A new process on the same durable store: it starts with an empty approval store. */
    method Restart()
      modifies host, center
      ensures Now() == M.Restart(old(Now()))
    {
      host.dead := false;
      host.trace := host.trace + [M.Restarted];
      center.approvals := map[];
    }

    /** A whole session on this runtime: one Run and then the given calls. Whatever dies or is lost on the
        way, no approval reaches an executor twice. */
    method Serve(setup: M.Setup, calls: seq<M.Call>)
      requires Wired() && setup.rid == rid && M.Fresh(setup) && Now() == M.Genesis(setup)
      modifies host, store, center
      ensures Now() == M.Session(env, setup, calls)
      ensures forall id :: id != NO_ID ==> History.Executions(host.trace, id) <= 1
    {
      hide M.StartRun, M.ResumeRun, M.CancelRun, M.Genesis, Safety.Inv;
      var _, _ := Run(setup.message, setup.configured);
      ghost var begun := Now();
      var i := 0;
      while i < |calls|
        invariant 0 <= i <= |calls| && begun == M.StartRun(env, M.Genesis(setup), rid, setup.message, setup.configured).w
        invariant Now() == M.ApplyAll(env, rid, begun, calls[..i])
      {
        assert Now() == M.Session(env, setup, calls[..i]);
        SessionFiled(env, setup, calls[..i]);
        match calls[i] {
          case Resume(id, approve) => var _, _ := ResumeRun(id, approve);
          case Cancel => var _, _ := CancelRun();
          case Reboot => Restart();
        }
        assert calls[..i + 1][..i] == calls[..i];
        i := i + 1;
      }
      assert calls[..|calls|] == calls;
      forall id | id != NO_ID ensures History.Executions(host.trace, id) <= 1 {
        CrashSafety.AtMostOnce(env, setup, calls, id);
      }
    }
  }

  /** In every session the stored state belongs to the run. */
  lemma SessionFiled(env: M.Env, setup: M.Setup, calls: seq<M.Call>)
    requires M.Fresh(setup)
    ensures var w := M.Session(env, setup, calls); w.run.Some? ==> w.run.value.runID == setup.rid
  {
    hide M.Session;
    Safety.SessionKeeps(env, setup, calls);
  }

  /** CancelRun looks before it rejects; rejecting what is not pending would have changed nothing. */
  lemma NothingToReject(w: M.World, id: Id, reason: string)
    requires id !in w.approvals || CloneRecord(w.approvals[id]).status != Pending
    ensures M.ResolveApproval(w, id, false, reason) == (w, None)
  {}

  /** A resolution that is refused changes nothing. */
  lemma Unresolved(approvals: map<Id, Record>, id: Id, approve: bool, reason: string)
    ensures Resolution(approvals, id, approve, reason).None? ==> Settle(approvals, id, approve, reason) == approvals
  {}
}
