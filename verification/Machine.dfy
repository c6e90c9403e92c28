/** One run as a persisted state machine: what Run, ResumeRun and CancelRun do to the durable snapshot,
    the durable step log, the volatile approval store and the event log, one effect at a time
    (internal/agent/runtime.go, internal/tools/router.go).

    Everything the program cannot see into is an oracle: the planner, the chat model, the executors, the
    inferrer, the context builder, the message store, whether a write to the store is kept and whether it is
    reported as done, whether a write to the run log succeeds, and whether the process dies. An oracle may
    answer differently at every tick of the clock. A crash stops the process at that tick: nothing more
    happens until a restart, which loses the approval store and lets the next calls go on from what is
    stored. */
module Machine {
  import opened Base
  import opened Json
  import opened Types
  import opened Approvals
  import opened Policy
  import opened RunStates

  // ---------- events and observable effects ----------

  datatype EventKind =
    | RunStarted | RunStateChanged | RunPaused | RunCompleted | RunFailed | RunCancelled
    | AssistantDelta | AssistantMessage | EventApprovalApproved | EventApprovalRejected
    | EventToolProposed | EventEffectInferred | EventPolicyDecided | EventApprovalRequested | EventPolicyDenied
    | EventToolStarted | EventToolOutput | EventToolCompleted | EventToolFailed

  datatype Event = Event(
    kind: EventKind,
    tool: string,
    callID: string,
    approvalID: Id,
    input: GoMap,
    decision: Option<Decision>,
    cause: Cause)

  function Plain(kind: EventKind): Event { Event(kind, "", "", NO_ID, Null, None, NoError) }

  function OfApproval(kind: EventKind, id: Id): Event { Plain(kind).(approvalID := id) }

  function OfTool(kind: EventKind, p: Proposal): Event { Plain(kind).(tool := p.tool, callID := p.id) }

  /** What can be observed of a run, in order. `Logged` events reach the run log, `Lost` ones were meant for it
      and could not be written, `Streamed` ones go to the client only. `Decided` is the policy's answer about
      one call. `Executed.approval` is the approval an execution rests on, or NO_ID. */
  datatype Act =
    | Logged(event: Event)
    | Lost(event: Event)
    | Streamed(event: Event)
    | Decided(callID: string, tool: string, input: GoMap, decision: Decision)
    | PlannerCalled(asked: PlanInput)
    | Created(record: Record)
    | ResolvedAs(approval: Id, approve: bool)
    | Executed(callID: string, tool: string, input: GoMap, approval: Id)
    | Restarted

  // ---------- plans and oracles ----------

  datatype PlanDecision = Unset | DecideAnswer | DecideTool | DecideContinue | DecideStop | Unsupported

  datatype Plan = Plan(
    decision: PlanDecision,
    useRunner: bool,
    preamble: bool,
    message: string,
    proposal: Option<Proposal>)

  datatype PlanInput = PlanInput(
    userMessage: string,
    stepIndex: nat,
    lastResult: Option<ToolResult>,
    lastProposal: Option<Proposal>)

  datatype ExecOutcome = ExecOutcome(result: Option<ToolResult>, failed: bool)

  datatype Env = Env(
    policy: PolicyConfig,
    red: Redactor,
    crash: nat -> bool,
    storeOk: nat -> bool,
    ackOk: nat -> bool,
    messageOk: nat -> bool,
    eventOk: nat -> bool,
    context: nat -> Option<seq<string>>,
    plan: (nat, PlanInput) -> Option<Plan>,
    answer: (nat, seq<string>) -> Option<string>,
    infer: (nat, Proposal) -> Option<Inference>,
    registered: string -> bool,
    execute: (nat, string, GoMap) -> ExecOutcome)

  // ---------- the world of one run ----------

  datatype World = World(
    dead: bool,
    clock: nat,
    run: Option<RunState>,
    steps: seq<Step>,
    approvals: map<Id, Record>,
    trace: seq<Act>)

  /** Nothing observed is ever taken back. */
  predicate Grew(a: World, b: World) { a.trace <= b.trace }

  function Note(w: World, act: Act): (r: World)
    ensures Grew(w, r)
  {
    if w.dead then w else w.(trace := w.trace + [act])
  }

  /** Time passes and an oracle is consulted; the process may die instead. */
  function Tick(env: Env, w: World): (r: World)
    ensures Grew(w, r)
  {
    if w.dead then w else w.(dead := env.crash(w.clock), clock := w.clock + 1)
  }

  /** What becomes of an event meant for the run log: a failed write is not reported to anyone. */
  function Written(env: Env, now: nat, event: Event): Act { if env.eventOk(now) then Logged(event) else Lost(event) }

  /** Appending to the run log takes time like every other effect. */
  function Log(env: Env, w: World, event: Event): (r: World)
    ensures Grew(w, r)
  {
    Note(Tick(env, w), Written(env, w.clock, event))
  }

  /** What a write leaves, and whether it was reported as done: the store may keep what it reports as failed. */
  datatype Ack = Ack(w: World, ok: bool)

  /** The write at this tick is kept, and the caller is told so. */
  predicate Acked(env: Env, now: nat) { env.storeOk(now) && env.ackOk(now) }

  function SaveStep(env: Env, w: World, step: Step): (r: Ack)
    ensures Grew(w, r.w)
  {
    var t := Tick(env, w);
    if t.dead || !env.storeOk(w.clock) then Ack(t, false)
    else Ack(t.(steps := Upsert(t.steps, StoredStep(env.red, step))), env.ackOk(w.clock))
  }

  function SaveState(env: Env, w: World, st: RunState): (r: Ack)
    ensures Grew(w, r.w)
  {
    var t := Tick(env, w);
    if t.dead || !env.storeOk(w.clock) then Ack(t, false)
    else Ack(t.(run := Some(StoredState(env.red, st))), env.ackOk(w.clock))
  }

  // ---------- steps and transitions ----------

  /** A run in progress: the world and the state held in memory. */
  datatype At = At(w: World, st: RunState)

  /** The same run, with as much of its budget spent. */
  predicate SameBudget(a: RunState, b: RunState)
  {
    a.runID == b.runID && a.stepCount == b.stepCount && a.maxSteps == b.maxSteps
  }

  datatype Recorded = Recorded(w: World, st: RunState, step: Step, ok: bool)

  datatype Body = Body(proposal: Option<Proposal>, approval: Option<Record>, result: Option<ToolResult>, error: Cause)

  const EMPTY := Body(None, None, None, NoError)

  function RecordStep(env: Env, w: World, st: RunState, kind: StepKind, status: StepStatus, body: Body): (r: Recorded)
    ensures SameBudget(r.st, st)
    ensures Grew(w, r.w)
  {
    var step := Step(w.clock, st.runID, st.stepIndex + 1, kind, status, body.proposal, body.approval, body.result, body.error);
    var st' := st.(currentStep := kind, stepIndex := step.index, updatedAt := w.clock);
    var a := SaveStep(env, w, step);
    if !a.ok then Recorded(a.w, st', step, false)
    else
      var b := SaveState(env, a.w, st');
      Recorded(b.w, st', step, b.ok)
  }

  /** A save that fails here is lost without notice. */
  function Transition(env: Env, w: World, st: RunState, status: RunStatus, step: Step): (t: At)
    ensures SameBudget(t.st, st)
    ensures Grew(w, t.w)
  {
    var st' := st.(status := status, currentStep := step.kind, stepIndex := step.index, updatedAt := w.clock);
    At(Log(env, SaveState(env, w, st').w, OfApproval(RunStateChanged, st'.approvalID)), st')
  }

  function Fail(env: Env, w: World, st: RunState, cause: Cause): (r: At)
    ensures Grew(w, r.w)
  {
    var r := RecordStep(env, w, st.(error := cause), Finalize, StepFailed, EMPTY.(error := cause));
    var t := if r.ok then Transition(env, r.w, r.st, Failed, r.step) else At(r.w, r.st);
    At(Log(env, t.w, Plain(RunFailed).(cause := cause)), t.st)
  }

  /** How a call ends: `ok` is the absence of an error. */
  datatype Out = Out(w: World, st: RunState, ok: bool)

  function Abort(env: Env, w: World, st: RunState, cause: Cause): (r: Out)
    ensures Grew(w, r.w)
  {
    var f := Fail(env, w, st, cause);
    Out(f.w, f.st, false)
  }

  // ---------- the router ----------

  datatype Execution = Execution(w: World, ok: bool, result: Option<ToolResult>)

  function Execute(env: Env, w: World, p: Proposal, approval: Id): (r: Execution)
    ensures Grew(w, r.w)
  {
    if !env.registered(p.tool) then Execution(w, false, None)
    else
      var started := Log(env, w, OfTool(EventToolStarted, p));
      var t := Tick(env, started);
      if t.dead then Execution(t, false, None)
      else
        var input := CloneMap(p.input);
        var ran := Note(t, Executed(p.id, p.tool, input, approval));
        var outcome := env.execute(started.clock, p.tool, input);
        var result := if outcome.result.Some? && outcome.result.value.callID == ""
          then Some(outcome.result.value.(callID := p.id)) else outcome.result;
        var shown := if result.Some? then Log(env, ran, OfTool(EventToolOutput, p)) else ran;
        var done := Log(env, shown, OfTool(if outcome.failed then EventToolFailed else EventToolCompleted, p));
        Execution(done, !outcome.failed, result)
  }

  datatype Routed = Routed(w: World, ok: bool, inference: Inference, decision: Decision, approval: Option<Record>, result: Option<ToolResult>)

  const NO_INFERENCE := Inference([], "", false, false, 0.0, "")
  const NO_DECISION := Decision(false, false, "", "", "", Deny)

  function Unrouted(w: World): Routed { Routed(w, false, NO_INFERENCE, NO_DECISION, None, None) }

  /** ApprovalCenter.Create with the next generated id. */
  function CreateApproval(env: Env, w: World, runID: Id, p: Proposal, inference: Inference, decision: Decision): (r: (World, Option<Record>))
    ensures Grew(w, r.0)
  {
    var draft := Draft(w.clock, runID, p, inference, decision);
    var t := Tick(env, w);
    if t.dead || draft.None? then (t, None)
    else
      var record := CloneRecord(draft.value);
      (Note(t.(approvals := t.approvals[w.clock := draft.value]), Created(record)), Some(record))
  }

  function Denial(p: Proposal, decision: Decision): ToolResult
  {
    ToolResult(p.id, Obj(map["status" := Str("denied"), "reason" := Str(decision.reason)]), decision.reason)
  }

  function Propose(env: Env, w: World, runID: Id, p: Proposal): (r: Routed)
    ensures Grew(w, r.w)
  {
    var proposed := Log(env, w, OfTool(EventToolProposed, p).(input := CloneMap(p.input)));
    var t := Tick(env, proposed);
    var inferred := env.infer(proposed.clock, p);
    if t.dead || inferred.None? then Unrouted(t)
    else
      var inference := inferred.value;
      var told := Log(env, t, OfTool(EventEffectInferred, p));
      var decision := Decide(env.policy, p, inference);
      var decided := Log(env, Note(told, DecidedOn(p, decision)), OfTool(EventPolicyDecided, p).(decision := Some(decision)));
      Dispatch(env, decided, runID, p, inference, decision)
  }

  function DecidedOn(p: Proposal, decision: Decision): Act { Decided(p.id, p.tool, CloneMap(p.input), decision) }

  /** The three branches a decision can take. */
  function Dispatch(env: Env, w: World, runID: Id, p: Proposal, inference: Inference, decision: Decision): (r: Routed)
    ensures Grew(w, r.w)
  {
    if decision.requiresApproval then
      var (created, record) := CreateApproval(env, w, runID, p, inference, decision);
      if record.None? then Unrouted(created)
      else Routed(Log(env, created, OfApproval(EventApprovalRequested, record.value.id)), true, inference, decision, record, None)
    else if !decision.allowed then
      Routed(Log(env, w, OfTool(EventPolicyDenied, p).(decision := Some(decision))), true, inference, decision, None, Some(Denial(p, decision)))
    else
      var e := Execute(env, w, p, NO_ID);
      if e.ok then Routed(e.w, true, inference, decision, None, e.result) else Unrouted(e.w)
  }

  function ExecuteApproved(env: Env, w: World, id: Id): (r: Execution)
    ensures Grew(w, r.w)
  {
    if w.dead || id !in w.approvals then Execution(w, false, None)
    else
      var record := CloneRecord(w.approvals[id]);
      if record.status != Approved || !HashVerifies(w.approvals[id]) then Execution(w, false, None)
      else Execute(env, w, record.proposal.(input := CloneMap(record.snapshot)), id)
  }

  /** ExecuteReadOnly: it never reads whether the decision allows anything. */
  function ExecuteReadOnly(env: Env, w: World, p: Proposal): Execution
  {
    var t := Tick(env, w);
    var inferred := env.infer(w.clock, p);
    if t.dead || inferred.None? then Execution(t, false, None)
    else
      var decision := Decide(env.policy, p, inferred.value);
      var decided := Note(t, DecidedOn(p, decision));
      if decision.requiresApproval then Execution(decided, false, None) else Execute(env, decided, p, NO_ID)
  }

  // ---------- the planning loop ----------

  /** normalizePlan: an unset decision is read off the rest of the plan. */
  function NormalizePlan(plan: Plan, last: Option<ToolResult>): Plan
  {
    var cloned := if plan.proposal.Some? then plan.(proposal := Some(CloneProposal(plan.proposal.value))) else plan;
    if plan.decision != Unset then cloned
    else if plan.proposal.Some? then cloned.(decision := DecideTool)
    else if plan.message != "" then cloned.(decision := DecideAnswer)
    else if last.Some? then cloned.(decision := DecideStop)
    else cloned.(decision := DecideAnswer)
  }

  /** One turn of the loop either goes round again or ends the call. */
  datatype Turn = Again(w: World, st: RunState, last: Option<ToolResult>) | Halt(out: Out)

  function PersistAssistant(env: Env, w: World): (r: Ack)
    ensures Grew(w, r.w)
  {
    var t := Tick(env, w);
    if t.dead || !env.messageOk(w.clock) then Ack(t, false) else Ack(Log(env, t, Plain(AssistantMessage)), true)
  }

  function Complete(env: Env, w: World, st: RunState): (r: Out)
    ensures Grew(w, r.w)
  {
    var r := RecordStep(env, w, st, Summarize, StepCompleted, EMPTY);
    if !r.ok then Abort(env, r.w, r.st, StoreFailed)
    else
      var t := Transition(env, r.w, r.st, Summarizing, r.step);
      var m := PersistAssistant(env, t.w);
      if !m.ok then Abort(env, m.w, t.st, MessageFailed)
      else
        var f := RecordStep(env, m.w, t.st, Finalize, StepCompleted, EMPTY);
        if !f.ok then Abort(env, f.w, f.st, StoreFailed)
        else
          var c := Transition(env, f.w, f.st, Completed, f.step);
          Out(Log(env, c.w, Plain(RunCompleted)), c.st, true)
  }

  function Pause(env: Env, w: World, st: RunState, record: Record): (r: Turn)
    ensures Grew(w, if r.Again? then r.w else r.out.w)
  {
    var r := RecordStep(env, w, st.(approvalID := record.id), RequestApproval, StepPaused, Body(st.proposal, Some(CloneRecord(record)), None, NoError));
    if !r.ok then Halt(Abort(env, r.w, r.st, StoreFailed))
    else
      var t := Transition(env, r.w, r.st, ApprovalRequested, r.step);
      var shown := Note(t.w, Streamed(OfApproval(EventApprovalRequested, record.id)));
      var p := Transition(env, shown, t.st, PausedForApproval, r.step);
      var m := PersistAssistant(env, p.w);
      if !m.ok then Halt(Abort(env, m.w, p.st, MessageFailed))
      else Halt(Out(Log(env, m.w, OfApproval(RunPaused, record.id)), p.st, true))
  }

  function Finish(env: Env, w: World, st: RunState, proposal: Proposal, result: Option<ToolResult>): (t: Turn)
    ensures t.Again? ==> SameBudget(t.st, st)
    ensures Grew(w, if t.Again? then t.w else t.out.w)
  {
    var failed := result.Some? && result.value.error != "";
    var cause := if failed then ToolError(result.value.error) else NoError;
    var r := RecordStep(env, w, st, ExecuteTool, if failed then StepFailed else StepCompleted, Body(Some(proposal), None, result, cause));
    if !r.ok then Halt(Abort(env, r.w, r.st, StoreFailed))
    else
      var t := Transition(env, r.w, r.st, ToolExecuting, r.step);
      var st' := if failed then t.st.(toolResult := result, error := cause) else t.st.(toolResult := result);
      var u := Transition(env, t.w, st', if failed then ToolFailed else ToolCompleted, r.step);
      Again(if result.Some? then Note(u.w, Streamed(Plain(EventToolOutput))) else u.w, u.st, result)
  }

  function AfterRouting(env: Env, routed: Routed, st: RunState, proposal: Proposal): (t: Turn)
    ensures t.Again? ==> SameBudget(t.st, st)
    ensures Grew(routed.w, if t.Again? then t.w else t.out.w)
  {
    var r := RecordStep(env, routed.w, st, InferEffect, StepCompleted, EMPTY.(proposal := Some(proposal)));
    if !r.ok then Halt(Abort(env, r.w, r.st, StoreFailed))
    else
      var t := Transition(env, r.w, r.st, EffectInferred, r.step);
      var d := RecordStep(env, t.w, t.st, DecidePolicy, StepCompleted, EMPTY.(proposal := Some(proposal)));
      if !d.ok then Halt(Abort(env, d.w, d.st, StoreFailed))
      else
        var u := Transition(env, d.w, d.st, PolicyDecided, d.step);
        if routed.approval.Some? then Pause(env, u.w, u.st, routed.approval.value)
        else Finish(env, u.w, u.st, proposal, routed.result)
  }

  function UseTool(env: Env, w: World, st: RunState, p: Proposal): (t: Turn)
    ensures t.Again? ==> SameBudget(t.st, st)
    ensures Grew(w, if t.Again? then t.w else t.out.w)
  {
    var proposal := CloneProposal(p);
    var r := RecordStep(env, w, st.(proposal := Some(proposal)), ProposeTool, StepCompleted, EMPTY.(proposal := Some(proposal)));
    if !r.ok then Halt(Abort(env, r.w, r.st, StoreFailed))
    else
      var t := Transition(env, r.w, r.st, ToolProposed, r.step);
      var routed := Propose(env, t.w, st.runID, p);
      assert Grew(w, routed.w);
      if !routed.ok then Halt(Abort(env, routed.w, t.st, RouterFailed))
      else AfterRouting(env, routed, t.st, proposal)
  }

  function Follow(env: Env, w: World, st: RunState, last: Option<ToolResult>, plan: Plan): (t: Turn)
    ensures t.Again? ==> SameBudget(t.st, st)
    ensures Grew(w, if t.Again? then t.w else t.out.w)
  {
    match plan.decision
    case DecideContinue =>
      var r := RecordStep(env, w, st, ContinueStep, StepCompleted, EMPTY);
      if !r.ok then Halt(Abort(env, r.w, r.st, StoreFailed))
      else
        var t := Transition(env, r.w, r.st, PlanMade, r.step);
        Again(t.w, t.st, last)
    case DecideAnswer =>
      if plan.useRunner || plan.message == "" then
        var t := Tick(env, w);
        if t.dead || env.answer(w.clock, st.context).None? then Halt(Abort(env, t, st, RunnerFailed))
        else Halt(Complete(env, t, st))
      else Halt(Complete(env, w, st))
    case DecideStop => Halt(Complete(env, w, st))
    case DecideTool =>
      if plan.proposal.None? then Halt(Abort(env, w, st, MissingProposal))
      else UseTool(env, w, st, plan.proposal.value)
    case _ => Halt(Abort(env, w, st, UnsupportedDecision))
  }

  function PlanInputOf(st: RunState, last: Option<ToolResult>): PlanInput
  {
    PlanInput(st.userMessage, st.stepCount, last, st.proposal)
  }

  function PlanBody(plan: Plan): Body { EMPTY.(proposal := plan.proposal) }

  /** One pass through the body of the loop, with budget left: going round again has spent one unit. */
  function Turnover(env: Env, w: World, st0: RunState, last: Option<ToolResult>): (turn: Turn)
    ensures turn.Again? ==> SameBudget(turn.st, st0.(stepCount := st0.stepCount + 1))
    ensures Grew(w, if turn.Again? then turn.w else turn.out.w)
  {
    var st := st0.(stepCount := st0.stepCount + 1);
    var input := PlanInputOf(st, last);
    var t := Tick(env, w);
    var called := Note(t, PlannerCalled(input));
    var answer := env.plan(w.clock, input);
    if t.dead || answer.None? then Halt(Abort(env, called, st, PlannerFailed))
    else
      var plan := NormalizePlan(answer.value, last);
      var r := RecordStep(env, called, st, PlanStep, StepCompleted, PlanBody(plan));
      if !r.ok then Halt(Abort(env, r.w, r.st, StoreFailed))
      else
        var u := Transition(env, r.w, r.st, PlanMade, r.step);
        Follow(env, if plan.preamble then Log(env, u.w, Plain(AssistantDelta)) else u.w, u.st, last, plan)
  }

  /** continueWorkflow: it terminates whatever the planner answers. */
  function ContinueRun(env: Env, w: World, st: RunState, last: Option<ToolResult>): (r: Out)
    decreases st.maxSteps - st.stepCount
    ensures Grew(w, r.w)
  {
    if st.stepCount >= st.maxSteps then Abort(env, w, st, MaxStepsExceeded)
    else
      match Turnover(env, w, st, last)
      case Halt(out) => out
      case Again(w', st', last') => ContinueRun(env, w', st', last')
  }

  // ---------- the calls ----------

  function InitialState(rid: Id, message: string, maxSteps: nat, now: nat): RunState
  {
    RunState(rid, Received, BuildContext, 0, 0, maxSteps, message, [], None, NO_ID, None, NoError, now)
  }

  /** maxWorkflowSteps: 0 stands for "not configured". */
  function Budget(configured: nat): nat { if configured > 0 then configured else 6 }

  function StartRun(env: Env, w: World, rid: Id, message: string, configured: nat): (r: Out)
    ensures Grew(w, r.w)
  {
    var st := InitialState(rid, message, Budget(configured), w.clock);
    var s := SaveState(env, w, st);
    if !s.ok then Out(s.w, st, false)
    else
      var started := Log(env, s.w, Plain(RunStarted));
      var m := Tick(env, started);
      if m.dead || !env.messageOk(started.clock) then Out(m, st, false)
      else
        var t := Tick(env, m);
        var built := env.context(m.clock);
        if t.dead || built.None? then Abort(env, t, st, ContextFailed)
        else
          var r := RecordStep(env, t, st.(context := built.value), BuildContext, StepCompleted, EMPTY);
          if !r.ok then Abort(env, r.w, r.st, StoreFailed)
          else
            var c := Transition(env, r.w, r.st, ContextBuilt, r.step);
            ContinueRun(env, c.w, c.st, None)
  }

  /** The record of the last step in the listing that carries the approval. */
  function LatestApproval(steps: seq<Step>, id: Id): Option<Record>
  {
    if steps == [] then None
    else
      var last := steps[|steps| - 1];
      if last.approval.Some? && last.approval.value.id == id then last.approval
      else LatestApproval(steps[..|steps| - 1], id)
  }

  /** The record in the store, or else the one rebuilt from the durable log. */
  function HydrateApproval(w: World, id: Id): (r: (World, Option<Record>))
    ensures Grew(w, r.0)
  {
    if w.dead then (w, None)
    else if id in w.approvals then (w, Some(CloneRecord(w.approvals[id])))
    else
      match LatestApproval(w.steps, id)
      case None => (w, None)
      case Some(record) =>
        if record.id == NO_ID then (w, None)
        else (w.(approvals := w.approvals[id := CloneRecord(record)]), Some(CloneRecord(CloneRecord(record))))
  }

  function ResolveApproval(w: World, id: Id, approve: bool, reason: string): (r: (World, Option<Record>))
    ensures Grew(w, r.0)
  {
    if w.dead then (w, None)
    else
      match Resolution(w.approvals, id, approve, reason)
      case None => (w, None)
      case Some(record) => (Note(w.(approvals := Settle(w.approvals, id, approve, reason)), ResolvedAs(id, approve)), Some(record))
  }

  function ApprovalBody(record: Record): Body { EMPTY.(approval := Some(CloneRecord(record))) }

  function RejectPaused(env: Env, w: World, st: RunState, id: Id): (r: Out)
    ensures Grew(w, r.w)
  {
    var (w1, rejected) := ResolveApproval(w, id, false, "rejected from workflow");
    if rejected.None? then Abort(env, w1, st, ResolveFailed)
    else
      var r := RecordStep(env, w1, st, RequestApproval, StepCancelled, ApprovalBody(rejected.value));
      if !r.ok then Abort(env, r.w, r.st, StoreFailed)
      else
        var t := Transition(env, r.w, r.st, ApprovalRejected, r.step);
        CloseRejected(env, Log(env, t.w, OfApproval(EventApprovalRejected, id)), t.st)
  }

  function CloseRejected(env: Env, w: World, st: RunState): (r: Out)
    ensures Grew(w, r.w)
  {
    var s := RecordStep(env, w, st, Summarize, StepCompleted, EMPTY);
    if !s.ok then Abort(env, s.w, s.st, StoreFailed)
    else
      var u := Transition(env, s.w, s.st, Summarizing, s.step);
      var m := PersistAssistant(env, u.w);
      if !m.ok then Abort(env, m.w, u.st, MessageFailed)
      else
        var f := RecordStep(env, m.w, u.st, Finalize, StepCompleted, EMPTY);
        if !f.ok then Abort(env, f.w, f.st, StoreFailed)
        else
          var c := Transition(env, f.w, f.st, ApprovalRejected, f.step);
          Out(Log(env, c.w, Plain(RunCompleted)), c.st, true)
  }

  function ExecuteBody(approval: Record, resolved: Record, result: Option<ToolResult>, cause: Cause): Body
  {
    Body(Some(approval.proposal), Some(CloneRecord(resolved)), result, cause)
  }

  function ApprovePaused(env: Env, w: World, st: RunState, approval: Record): (r: Out)
    ensures Grew(w, r.w)
  {
    var (w1, approved) := ResolveApproval(w, approval.id, true, "");
    if approved.None? then Abort(env, w1, st, ResolveFailed)
    else
      var r := RecordStep(env, w1, st, RequestApproval, StepCompleted, ApprovalBody(approved.value));
      if !r.ok then Abort(env, r.w, r.st, StoreFailed)
      else
        var t := Transition(env, r.w, r.st, ApprovalApproved, r.step);
        var u := Transition(env, Log(env, t.w, OfApproval(EventApprovalApproved, approval.id)), t.st, ToolExecuting, r.step);
        RunApproved(env, u.w, u.st, approval, approved.value)
  }

  function RunApproved(env: Env, w: World, st: RunState, approval: Record, approved: Record): (r: Out)
    ensures Grew(w, r.w)
  {
    var e := ExecuteApproved(env, w, approval.id);
    if !e.ok then AfterFailure(env, e.w, st.(error := RouterFailed), ExecuteBody(approval, approved, None, RouterFailed))
    else AfterSuccess(env, e.w, st.(toolResult := e.result), ExecuteBody(approval, approved, e.result, NoError), e.result)
  }

  function AfterFailure(env: Env, w: World, st: RunState, body: Body): (r: Out)
    ensures Grew(w, r.w)
  {
    var x := RecordStep(env, w, st, ExecuteTool, StepFailed, body);
    var y := if x.ok then Transition(env, x.w, x.st, ToolFailed, x.step) else At(x.w, x.st);
    Abort(env, y.w, y.st, RouterFailed)
  }

  function AfterSuccess(env: Env, w: World, st: RunState, body: Body, result: Option<ToolResult>): (r: Out)
    ensures Grew(w, r.w)
  {
    var x := RecordStep(env, w, st, ExecuteTool, StepCompleted, body);
    if !x.ok then Abort(env, x.w, x.st, StoreFailed)
    else
      var y := Transition(env, x.w, x.st, ToolCompleted, x.step);
      var shown := if result.Some? then Note(y.w, Streamed(OfApproval(EventToolOutput, st.approvalID))) else y.w;
      var cleared := y.st.(approvalID := NO_ID);
      var s := SaveState(env, shown, cleared);
      if !s.ok then Out(s.w, cleared, false) else ContinueRun(env, s.w, cleared, result)
  }

  const NO_STATE := InitialState(NO_ID, "", 0, 0)

  function ResumeRun(env: Env, w: World, rid: Id, id: Id, approve: bool): (r: Out)
    ensures Grew(w, r.w)
  {
    if w.dead || w.run.None? then Out(w, NO_STATE, false)
    else
      var st := w.run.value;
      if st.approvalID != id || st.status != PausedForApproval then Out(w, st, false)
      else
        var (h, approval) := HydrateApproval(w, id);
        if approval.None? || approval.value.runID != rid then Out(h, st, false)
        else if approve then ApprovePaused(env, h, st, approval.value)
        else RejectPaused(env, h, st, id)
  }

  predicate Terminal(status: RunStatus) { status in {Completed, Failed, Cancelled} }

  function CancelRun(env: Env, w: World): (r: Out)
    ensures Grew(w, r.w)
  {
    if w.dead || w.run.None? then Out(w, NO_STATE, false)
    else
      var st := w.run.value;
      if Terminal(st.status) then Out(w, st, false)
      else
        var (w1, _) := if st.approvalID != NO_ID then ResolveApproval(w, st.approvalID, false, "run cancelled") else (w, None);
        var r := RecordStep(env, w1, st, CancelStep, StepCancelled, EMPTY);
        if !r.ok then Out(r.w, r.st, false)
        else
          var t := Transition(env, r.w, r.st, Cancelled, r.step);
          Out(Log(env, t.w, Plain(RunCancelled)), t.st, true)
  }

  /** A new process on the same durable store. */
  function Restart(w: World): (r: World)
    ensures Grew(w, r)
  {
    w.(dead := false, approvals := map[], trace := w.trace + [Restarted])
  }

  // ---------- whole sessions ----------

  datatype Call = Resume(approval: Id, approve: bool) | Cancel | Reboot

  function Apply(env: Env, rid: Id, w: World, call: Call): (r: World)
    ensures Grew(w, r)
  {
    match call
    case Resume(id, approve) => ResumeRun(env, w, rid, id, approve).w
    case Cancel => CancelRun(env, w).w
    case Reboot => Restart(w)
  }

  function ApplyAll(env: Env, rid: Id, w: World, calls: seq<Call>): (r: World)
    ensures Grew(w, r)
  {
    if calls == [] then w
    else Apply(env, rid, ApplyAll(env, rid, w, calls[..|calls| - 1]), calls[|calls| - 1])
  }

  datatype Setup = Setup(rid: Id, message: string, configured: nat, clock: nat, others: map<Id, Record>)

  /** Before the run exists: an empty log, and possibly approvals of other runs in the store. */
  ghost predicate Fresh(setup: Setup)
  {
    && setup.clock > 0
    && (forall id :: id in setup.others ==> 0 < id < setup.clock && setup.others[id].runID != setup.rid)
  }

  function Genesis(setup: Setup): World
  {
    World(false, setup.clock, None, [], setup.others, [])
  }

  /** One Run, followed by any number of resumptions, cancellations and restarts in any order. */
  function Session(env: Env, setup: Setup, calls: seq<Call>): World
  {
    ApplyAll(env, setup.rid, StartRun(env, Genesis(setup), setup.rid, setup.message, setup.configured).w, calls)
  }
}
