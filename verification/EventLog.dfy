/** What the event log says of approvals and executions in every session, whatever crashes or is lost. */
module EventLog {
  import opened Base
  import opened Json
  import opened Types
  import opened Approvals
  import opened Policy
  import opened RunStates
  import opened Machine
  import opened History
  import opened Projections
  import Safety
  import CrashSafety
  import Lifecycle

  /** The executions that rest on no approval. */
  function FreeRuns(trace: seq<Act>): seq<Act>
  {
    if trace == [] then []
    else FreeRuns(Init(trace)) + if Last(trace).Executed? && Last(trace).approval == NO_ID then [Last(trace)] else []
  }

  /** The execution is of a proposal with exactly this input, on which the policy, given something the
      inferrer said of it, decides to execute without asking. */
  ghost predicate FreelyDecided(env: Env, act: Act)
  {
    exists n: nat, p: Proposal ::
      && act == Executed(p.id, p.tool, CloneMap(p.input), NO_ID) && env.infer(n, p).Some?
      && AutoExecutes(Decide(env.policy, p, env.infer(n, p).value))
  }

  /** The ids of the approval.requested events, empty ones included. */
  function RequestedIds(trace: seq<Act>): seq<Id>
  {
    if trace == [] then []
    else
      RequestedIds(Init(trace)) +
      match Last(trace)
      case Logged(e) => if e.kind == EventApprovalRequested then [e.approvalID] else []
      case _ => []
  }

  /** The approvals on which something was executed. */
  function UsedIds(trace: seq<Act>): seq<Id>
  {
    if trace == [] then []
    else UsedIds(Init(trace)) + if Last(trace).Executed? && Last(trace).approval != NO_ID then [Last(trace).approval] else []
  }

  /** The policy's answers, and the policy.decided events that report them. */
  function Decisions(trace: seq<Act>): seq<Act>
  {
    if trace == [] then []
    else
      Decisions(Init(trace)) +
      match Last(trace)
      case Logged(e) => if e.kind == EventPolicyDecided then [Last(trace)] else []
      case Decided(_, _, _, _) => [Last(trace)]
      case _ => []
  }

  /** This is really what the policy decides about this call on something the inferrer said of it. */
  ghost predicate Reported(env: Env, act: Act)
  {
    exists n: nat, p: Proposal ::
      && env.infer(n, p).Some?
      && var d := Decide(env.policy, p, env.infer(n, p).value);
         match act
         case Logged(e) => p.tool == e.tool && p.id == e.callID && e.decision == Some(d)
         case _ => act == DecidedOn(p, d)
  }

  /** The id of an approval is the tick it was created at; its announcement is the next effect. */
  ghost predicate Landed(env: Env, id: Id) { !env.crash(id + 1) && env.eventOk(id + 1) }

  /** The approvals whose announcement neither a crash nor a failed write has swallowed, in order. */
  ghost function Announced(env: Env, ids: seq<Id>): seq<Id>
  {
    if ids == [] then [] else Announced(env, Init(ids)) + if Landed(env, Last(ids)) then [Last(ids)] else []
  }

  lemma AnnouncedAppend(env: Env, ids: seq<Id>, id: Id)
    ensures Announced(env, ids + [id]) == Announced(env, ids) + if Landed(env, id) then [id] else []
  {
    assert Init(ids + [id]) == ids;
  }

  /** The decisions, the approvals announced, created and used, the free executions and the planner calls so far. */
  datatype Ledger = Ledger(decisions: seq<Act>, asked: seq<Id>, created: seq<Id>, used: seq<Id>, free: seq<Act>, planned: nat)

  function LedgerOf(w: World): Ledger
  {
    Ledger(Decisions(w.trace), RequestedIds(w.trace), CreatedIds(w.trace), UsedIds(w.trace), FreeRuns(w.trace), PlannerCalls(w.trace))
  }

  function Entered(l: Ledger, act: Act): Ledger
  {
    match act
    case Logged(e) =>
      if e.kind == EventApprovalRequested then l.(asked := l.asked + [e.approvalID])
      else if e.kind == EventPolicyDecided then l.(decisions := l.decisions + [act])
      else l
    case Decided(_, _, _, _) => l.(decisions := l.decisions + [act])
    case PlannerCalled(_) => l.(planned := l.planned + 1)
    case Created(r) => l.(created := l.created + [r.id])
    case Executed(_, _, _, id) => if id == NO_ID then l.(free := l.free + [act]) else l.(used := l.used + [id])
    case _ => l
  }

  lemma NoteEnters(w: World, act: Act)
    ensures LedgerOf(Note(w, act)) == if w.dead then LedgerOf(w) else Entered(LedgerOf(w), act)
  {
    AppendUnfolds(w.trace, act);
    assert RequestedIds(w.trace) + [] == RequestedIds(w.trace);
    assert Decisions(w.trace) + [] == Decisions(w.trace);
    assert CreatedIds(w.trace) + [] == CreatedIds(w.trace);
    assert UsedIds(w.trace) + [] == UsedIds(w.trace);
    assert FreeRuns(w.trace) + [] == FreeRuns(w.trace);
  }

  ghost predicate Same(a: World, b: World) { LedgerOf(a) == LedgerOf(b) }

  /** The announced approvals are the created ones whose announcement landed, free executions and approvals
      together are paid for by planner calls, and every decision and every free execution is the policy's. */
  ghost predicate Even(env: Env, l: Ledger, due: nat)
  {
    && l.asked == Announced(env, l.created) && |l.free| + |l.created| + due <= l.planned
    && (forall act :: act in l.decisions ==> Reported(env, act))
    && (forall act :: act in l.free ==> FreelyDecided(env, act))
  }

  lemma QuietNote(w: World, act: Act)
    requires Entered(LedgerOf(w), act) == LedgerOf(w)
    ensures Same(w, Note(w, act))
  {
    NoteEnters(w, act);
  }

  /** An event of which the ledger takes no notice, whether it reaches the run log or not. */
  lemma QuietLog(env: Env, w: World, e: Event)
    requires e.kind != EventApprovalRequested && e.kind != EventPolicyDecided
    ensures Same(w, Log(env, w, e))
  {
    hide LedgerOf;
    SameTrace(w, Tick(env, w));
    QuietNote(Tick(env, w), Written(env, w.clock, e));
  }

  // ---------- what leaves the ledger alone ----------

  lemma RecordSame(env: Env, w: World, st: RunState, kind: StepKind, status: StepStatus, body: Body)
    ensures Same(w, RecordStep(env, w, st, kind, status, body).w)
  {
    hide Upsert, StoredStep, StoredState, LedgerOf;
    assert RecordStep(env, w, st, kind, status, body).w.trace == w.trace;
    SameTrace(w, RecordStep(env, w, st, kind, status, body).w);
  }

  lemma SameTrace(a: World, b: World)
    requires a.trace == b.trace
    ensures Same(a, b)
  {}

  lemma TransitionSame(env: Env, w: World, st: RunState, status: RunStatus, step: Step)
    ensures Same(w, Transition(env, w, st, status, step).w)
  {
    hide StoredState, LedgerOf;
    var st' := st.(status := status, currentStep := step.kind, stepIndex := step.index, updatedAt := w.clock);
    var s := SaveState(env, w, st').w;
    SameTrace(w, s);
    QuietLog(env, s, OfApproval(RunStateChanged, st'.approvalID));
  }

  lemma StageSame(env: Env, w: World, st: RunState, kind: StepKind, status: StepStatus, body: Body, next: RunStatus)
    ensures var r := RecordStep(env, w, st, kind, status, body);
      Same(w, r.w) && Same(w, Transition(env, r.w, r.st, next, r.step).w) && Same(w, Abort(env, r.w, r.st, StoreFailed).w)
  {
    hide RecordStep, Transition, Abort, LedgerOf;
    RecordSame(env, w, st, kind, status, body);
    var r := RecordStep(env, w, st, kind, status, body);
    TransitionSame(env, r.w, r.st, next, r.step);
    AbortSame(env, r.w, r.st, StoreFailed);
  }

  lemma AbortSame(env: Env, w: World, st: RunState, cause: Cause)
    ensures Same(w, Abort(env, w, st, cause).w)
  {
    hide RecordStep, Transition, LedgerOf;
    var st1, body := st.(error := cause), EMPTY.(error := cause);
    RecordSame(env, w, st1, Finalize, StepFailed, body);
    var r := RecordStep(env, w, st1, Finalize, StepFailed, body);
    TransitionSame(env, r.w, r.st, Failed, r.step);
    var t := if r.ok then Transition(env, r.w, r.st, Failed, r.step) else At(r.w, r.st);
    QuietLog(env, t.w, Plain(RunFailed).(cause := cause));
  }

  lemma AssistantSame(env: Env, w: World, st: RunState)
    ensures var m := PersistAssistant(env, w); Same(w, m.w) && Same(w, Abort(env, m.w, st, MessageFailed).w)
  {
    hide Abort, LedgerOf;
    SameTrace(w, Tick(env, w));
    QuietLog(env, Tick(env, w), Plain(AssistantMessage));
    AbortSame(env, PersistAssistant(env, w).w, st, MessageFailed);
  }

  lemma CompleteSame(env: Env, w: World, st: RunState)
    ensures Same(w, Complete(env, w, st).w)
  {
    hide RecordStep, Transition, Abort, PersistAssistant, LedgerOf;
    StageSame(env, w, st, Summarize, StepCompleted, EMPTY, Summarizing);
    var r := RecordStep(env, w, st, Summarize, StepCompleted, EMPTY);
    var t := Transition(env, r.w, r.st, Summarizing, r.step);
    AssistantSame(env, t.w, t.st);
    var m := PersistAssistant(env, t.w);
    StageSame(env, m.w, t.st, Finalize, StepCompleted, EMPTY, Completed);
    var f := RecordStep(env, m.w, t.st, Finalize, StepCompleted, EMPTY);
    QuietLog(env, Transition(env, f.w, f.st, Completed, f.step).w, Plain(RunCompleted));
  }

  function WorldOf(t: Turn): World { match t case Again(w, _, _) => w case Halt(out) => out.w }

  lemma PauseSame(env: Env, w: World, st: RunState, record: Record)
    ensures Same(w, WorldOf(Pause(env, w, st, record)))
  {
    hide RecordStep, Transition, Abort, PersistAssistant, LedgerOf, CloneRecord;
    var st1, body := st.(approvalID := record.id), Body(st.proposal, Some(CloneRecord(record)), None, NoError);
    StageSame(env, w, st1, RequestApproval, StepPaused, body, ApprovalRequested);
    var r := RecordStep(env, w, st1, RequestApproval, StepPaused, body);
    var t := Transition(env, r.w, r.st, ApprovalRequested, r.step);
    var act := Streamed(OfApproval(EventApprovalRequested, record.id));
    QuietNote(t.w, act);
    TransitionSame(env, Note(t.w, act), t.st, PausedForApproval, r.step);
    var q := Transition(env, Note(t.w, act), t.st, PausedForApproval, r.step);
    AssistantSame(env, q.w, q.st);
    QuietLog(env, PersistAssistant(env, q.w).w, OfApproval(RunPaused, record.id));
  }

  lemma FinishSame(env: Env, w: World, st: RunState, p: Proposal, result: Option<ToolResult>)
    ensures Same(w, WorldOf(Finish(env, w, st, p, result)))
  {
    hide RecordStep, Transition, Abort, LedgerOf;
    var failed := result.Some? && result.value.error != "";
    var cause := if failed then ToolError(result.value.error) else NoError;
    var status := if failed then StepFailed else StepCompleted;
    var body := Body(Some(p), None, result, cause);
    StageSame(env, w, st, ExecuteTool, status, body, ToolExecuting);
    var r := RecordStep(env, w, st, ExecuteTool, status, body);
    var t := Transition(env, r.w, r.st, ToolExecuting, r.step);
    var st' := if failed then t.st.(toolResult := result, error := cause) else t.st.(toolResult := result);
    var next := if failed then ToolFailed else ToolCompleted;
    TransitionSame(env, t.w, st', next, r.step);
    QuietNote(Transition(env, t.w, st', next, r.step).w, Streamed(Plain(EventToolOutput)));
  }

  lemma AfterRoutingSame(env: Env, routed: Routed, st: RunState, p: Proposal)
    ensures Same(routed.w, WorldOf(AfterRouting(env, routed, st, p)))
  {
    hide RecordStep, Transition, Abort, Pause, Finish, LedgerOf;
    var body := EMPTY.(proposal := Some(p));
    StageSame(env, routed.w, st, InferEffect, StepCompleted, body, EffectInferred);
    var r := RecordStep(env, routed.w, st, InferEffect, StepCompleted, body);
    var t := Transition(env, r.w, r.st, EffectInferred, r.step);
    StageSame(env, t.w, t.st, DecidePolicy, StepCompleted, body, PolicyDecided);
    var d := RecordStep(env, t.w, t.st, DecidePolicy, StepCompleted, body);
    var u := Transition(env, d.w, d.st, PolicyDecided, d.step);
    if routed.approval.Some? { PauseSame(env, u.w, u.st, routed.approval.value); }
    FinishSame(env, u.w, u.st, p, routed.result);
  }

  // ---------- what is entered ----------

  lemma ExecuteEnters(env: Env, w: World, p: Proposal, id: Id)
    ensures var l, e := LedgerOf(w), LedgerOf(Execute(env, w, p, id).w);
      || e == l
      || e == (if id == NO_ID then l.(free := l.free + [Executed(p.id, p.tool, CloneMap(p.input), id)]) else l.(used := l.used + [id]))
  {
    hide LedgerOf, CloneMap, Log;
    if env.registered(p.tool) {
      var started := Log(env, w, OfTool(EventToolStarted, p));
      QuietLog(env, w, OfTool(EventToolStarted, p));
      var t := Tick(env, started);
      SameTrace(started, t);
      if !t.dead {
        var act := Executed(p.id, p.tool, CloneMap(p.input), id);
        NoteEnters(t, act);
        var ran := Note(t, act);
        var outcome := env.execute(started.clock, p.tool, CloneMap(p.input));
        QuietLog(env, ran, OfTool(EventToolOutput, p));
        var shown := if outcome.result.Some? then Log(env, ran, OfTool(EventToolOutput, p)) else ran;
        QuietLog(env, shown, OfTool(if outcome.failed then EventToolFailed else EventToolCompleted, p));
      }
    }
  }

  /** Routing performs `run` freely, if it may, or creates and announces one approval, or neither. */
  ghost predicate RoutedOnce(env: Env, l: Ledger, after: Ledger, run: Act, may: bool)
  {
    || after == l
    || (may && after == l.(free := l.free + [run]))
    || exists id :: after == l.(asked := l.asked + Announced(env, [id]), created := l.created + [id])
  }

  lemma DraftId(id: Id, rid: Id, p: Proposal, inference: Inference, d: Decision)
    requires Draft(id, rid, p, inference, d).Some?
    ensures Draft(id, rid, p, inference, d).value.id == id
  {
    hide CloneMap, HashMap, NormalizedInput;
  }

  /** The effect right after a creation is its announcement. */
  lemma AnnounceEnters(env: Env, w: World, id: Id)
    requires !w.dead && w.clock == id + 1
    ensures var l := LedgerOf(w); LedgerOf(Log(env, w, OfApproval(EventApprovalRequested, id))) == l.(asked := l.asked + Announced(env, [id]))
  {
    hide LedgerOf, Announced;
    var t, e := Tick(env, w), OfApproval(EventApprovalRequested, id);
    SameTrace(w, t);
    NoteEnters(t, Written(env, w.clock, e));
    AnnouncedOne(env, id);
    assert LedgerOf(w).asked + [] == LedgerOf(w).asked;
  }

  lemma AnnouncedOne(env: Env, id: Id)
    ensures Announced(env, [id]) == if Landed(env, id) then [id] else []
  {
    AnnouncedAppend(env, [], id);
    assert [] + [id] == [id];
  }

  lemma DispatchEnters(env: Env, w: World, rid: Id, p: Proposal, inference: Inference, d: Decision)
    ensures RoutedOnce(env, LedgerOf(w), LedgerOf(Dispatch(env, w, rid, p, inference, d).w),
                       Executed(p.id, p.tool, CloneMap(p.input), NO_ID), AutoExecutes(d))
  {
    hide LedgerOf, CloneMap, Execute, Draft, Log;
    if d.requiresApproval {
      var draft := Draft(w.clock, rid, p, inference, d);
      var t := Tick(env, w);
      SameTrace(w, t);
      if !t.dead && draft.Some? {
        DraftId(w.clock, rid, p, inference, d);
        var id := draft.value.id;
        var filed := t.(approvals := t.approvals[w.clock := draft.value]);
        SameTrace(w, filed);
        NoteEnters(filed, Created(CloneRecord(draft.value)));
        var created := Note(filed, Created(CloneRecord(draft.value)));
        AnnounceEnters(env, created, id);
        var l := LedgerOf(w);
        assert LedgerOf(Dispatch(env, w, rid, p, inference, d).w) == l.(asked := l.asked + Announced(env, [id]), created := l.created + [id]);
      }
    } else if !d.allowed {
      QuietLog(env, w, OfTool(EventPolicyDenied, p).(decision := Some(d)));
    } else {
      ExecuteEnters(env, w, p, NO_ID);
    }
  }

  /** The same with the policy's permission, after the policy has spoken. */
  ghost predicate DecidedBy(env: Env, l: Ledger, after: Ledger, run: Act, may: bool, told: seq<Act>)
  {
    && (may ==> FreelyDecided(env, run)) && (forall act :: act in told ==> Reported(env, act))
    && RoutedOnce(env, l.(decisions := l.decisions + told), after, run, may)
  }

  ghost predicate RoutedDecided(env: Env, l: Ledger, after: Ledger)
  {
    exists run: Act, may: bool, told: seq<Act> :: DecidedBy(env, l, after, run, may, told)
  }

  lemma NothingRouted(env: Env, l: Ledger)
    ensures RoutedDecided(env, l, l)
  {
    assert l.(decisions := l.decisions + []) == l;
    assert RoutedOnce(env, l, l, Restarted, false);
    assert DecidedBy(env, l, l, Restarted, false, []);
  }

  lemma ProposeEnters(env: Env, w: World, rid: Id, p: Proposal)
    ensures RoutedDecided(env, LedgerOf(w), LedgerOf(Propose(env, w, rid, p).w))
  {
    hide LedgerOf, CloneMap, Dispatch, Decide, FreelyDecided, Reported, RoutedOnce, RoutedDecided, Log;
    var l := LedgerOf(w);
    var first := OfTool(EventToolProposed, p).(input := CloneMap(p.input));
    QuietLog(env, w, first);
    var proposed := Log(env, w, first);
    var t := Tick(env, proposed);
    SameTrace(proposed, t);
    var inferred := env.infer(proposed.clock, p);
    if !t.dead && inferred.Some? {
      var d := Decide(env.policy, p, inferred.value);
      QuietLog(env, t, OfTool(EventEffectInferred, p));
      var told := Log(env, t, OfTool(EventEffectInferred, p));
      var acts := SpeakEnters(env, told, proposed.clock, p);
      var decided := Log(env, Note(told, DecidedOn(p, d)), OfTool(EventPolicyDecided, p).(decision := Some(d)));
      DispatchEnters(env, decided, rid, p, inferred.value, d);
      DecidedSo(env, l, LedgerOf(Propose(env, w, rid, p).w), Executed(p.id, p.tool, CloneMap(p.input), NO_ID), AutoExecutes(d), acts);
    } else {
      NothingRouted(env, l);
    }
  }

  /** The policy's answer, and the event that reports it, if both still happen. */
  lemma SpeakEnters(env: Env, w: World, n: nat, p: Proposal) returns (acts: seq<Act>)
    requires env.infer(n, p).Some?
    ensures var d := Decide(env.policy, p, env.infer(n, p).value);
      var after := Log(env, Note(w, DecidedOn(p, d)), OfTool(EventPolicyDecided, p).(decision := Some(d))); var l := LedgerOf(w);
      && LedgerOf(after) == l.(decisions := l.decisions + acts) && (forall act :: act in acts ==> Reported(env, act))
      && (AutoExecutes(d) ==> FreelyDecided(env, Executed(p.id, p.tool, CloneMap(p.input), NO_ID)))
  {
    hide LedgerOf, CloneMap, Decide;
    var d := Decide(env.policy, p, env.infer(n, p).value);
    var e := OfTool(EventPolicyDecided, p).(decision := Some(d));
    var answer := DecidedOn(p, d);
    NoteEnters(w, answer);
    var answered := Note(w, answer);
    var t := Tick(env, answered);
    SameTrace(answered, t);
    NoteEnters(t, Written(env, answered.clock, e));
    assert Reported(env, answer) && Reported(env, Logged(e));
    hide Reported;
    var l := LedgerOf(w);
    acts := (if w.dead then [] else [answer]) + if !t.dead && env.eventOk(answered.clock) then [Logged(e)] else [];
    assert l.decisions + acts == LedgerOf(Log(env, answered, e)).decisions;
  }

  lemma DecidedSo(env: Env, l: Ledger, after: Ledger, run: Act, may: bool, told: seq<Act>)
    requires (may ==> FreelyDecided(env, run)) && forall act :: act in told ==> Reported(env, act)
    requires RoutedOnce(env, l.(decisions := l.decisions + told), after, run, may)
    ensures RoutedDecided(env, l, after)
  {
    hide Reported, FreelyDecided, RoutedOnce;
    assert DecidedBy(env, l, after, run, may, told);
  }

  lemma UseToolEnters(env: Env, w: World, st: RunState, p: Proposal)
    ensures RoutedDecided(env, LedgerOf(w), LedgerOf(WorldOf(UseTool(env, w, st, p))))
  {
    NothingRouted(env, LedgerOf(w));
    hide RoutedDecided;
    hide RecordStep, Transition, Abort, Propose, AfterRouting, LedgerOf, CloneMap;
    var proposal := CloneProposal(p);
    var st1, body := st.(proposal := Some(proposal)), EMPTY.(proposal := Some(proposal));
    StageSame(env, w, st1, ProposeTool, StepCompleted, body, ToolProposed);
    var r := RecordStep(env, w, st1, ProposeTool, StepCompleted, body);
    var t := Transition(env, r.w, r.st, ToolProposed, r.step);
    ProposeEnters(env, t.w, st.runID, p);
    var routed := Propose(env, t.w, st.runID, p);
    AbortSame(env, routed.w, t.st, RouterFailed);
    AfterRoutingSame(env, routed, t.st, proposal);
  }

  lemma FollowEnters(env: Env, w: World, st: RunState, last: Option<ToolResult>, plan: Plan)
    ensures RoutedDecided(env, LedgerOf(w), LedgerOf(WorldOf(Follow(env, w, st, last, plan))))
  {
    NothingRouted(env, LedgerOf(w));
    hide RoutedDecided;
    hide RecordStep, Transition, Abort, Complete, UseTool, LedgerOf;
    StageSame(env, w, st, ContinueStep, StepCompleted, EMPTY, PlanMade);
    SameTrace(w, Tick(env, w));
    AbortSame(env, Tick(env, w), st, RunnerFailed);
    CompleteSame(env, Tick(env, w), st);
    CompleteSame(env, w, st);
    AbortSame(env, w, st, MissingProposal);
    AbortSame(env, w, st, UnsupportedDecision);
    if plan.proposal.Some? { UseToolEnters(env, w, st, plan.proposal.value); }
  }

  lemma OnceIsEven(env: Env, l: Ledger, after: Ledger, run: Act, may: bool)
    requires Even(env, l, 1) && RoutedOnce(env, l, after, run, may) && (may ==> FreelyDecided(env, run))
    ensures Even(env, after, 0) && after.used == l.used
  {
    hide FreelyDecided, Reported, Announced;
    if |after.created| > |l.created| {
      var id :| after == l.(asked := l.asked + Announced(env, [id]), created := l.created + [id]);
      OneMoreAnnounced(env, l.created, id);
    }
  }

  lemma OneMoreAnnounced(env: Env, ids: seq<Id>, id: Id)
    ensures Announced(env, ids + [id]) == Announced(env, ids) + Announced(env, [id])
  {
    AnnouncedAppend(env, ids, id);
    AnnouncedAppend(env, [], id);
    assert [] + [id] == [id];
  }

  lemma RoutedIsEven(env: Env, l: Ledger, after: Ledger)
    requires Even(env, l, 1) && RoutedDecided(env, l, after)
    ensures Even(env, after, 0) && after.used == l.used
  {
    hide FreelyDecided, Reported, RoutedOnce;
    var run: Act, may: bool, told: seq<Act> :| DecidedBy(env, l, after, run, may, told);
    OnceIsEven(env, l.(decisions := l.decisions + told), after, run, may);
  }

  lemma CalledIsEven(env: Env, l: Ledger, after: Ledger, input: PlanInput)
    requires Even(env, l, 0) && after == Entered(l, PlannerCalled(input))
    ensures Even(env, after, 1) && after.used == l.used && Even(env, after, 0)
  {
    hide Reported, FreelyDecided;
  }

  lemma TurnoverEnters(env: Env, w: World, st0: RunState, last: Option<ToolResult>)
    requires Even(env, LedgerOf(w), 0)
    ensures var after := LedgerOf(WorldOf(Turnover(env, w, st0, last))); Even(env, after, 0) && after.used == LedgerOf(w).used
  {
    hide RecordStep, Transition, Abort, Follow, LedgerOf, NormalizePlan, RoutedDecided, Even;
    var st := st0.(stepCount := st0.stepCount + 1);
    var input := PlanInputOf(st, last);
    var t := Tick(env, w);
    SameTrace(w, t);
    NoteEnters(t, PlannerCalled(input));
    var called := Note(t, PlannerCalled(input));
    if !t.dead { CalledIsEven(env, LedgerOf(w), LedgerOf(called), input); }
    AbortSame(env, called, st, PlannerFailed);
    var answer := env.plan(w.clock, input);
    if !t.dead && answer.Some? {
      var plan := NormalizePlan(answer.value, last);
      StageSame(env, called, st, PlanStep, StepCompleted, PlanBody(plan), PlanMade);
      var r := RecordStep(env, called, st, PlanStep, StepCompleted, PlanBody(plan));
      var u := Transition(env, r.w, r.st, PlanMade, r.step);
      QuietLog(env, u.w, Plain(AssistantDelta));
      hide Log;
      var told := if plan.preamble then Log(env, u.w, Plain(AssistantDelta)) else u.w;
      FollowEnters(env, told, u.st, last, plan);
      RoutedIsEven(env, LedgerOf(told), LedgerOf(WorldOf(Follow(env, told, u.st, last, plan))));
    }
  }

  lemma {:induction false} ContinueEnters(env: Env, w: World, st: RunState, last: Option<ToolResult>)
    requires Even(env, LedgerOf(w), 0)
    ensures var after := LedgerOf(ContinueRun(env, w, st, last).w); Even(env, after, 0) && after.used == LedgerOf(w).used
    decreases st.maxSteps - st.stepCount
  {
    hide Turnover, Abort, LedgerOf;
    if st.stepCount >= st.maxSteps {
      AbortSame(env, w, st, MaxStepsExceeded);
    } else {
      TurnoverEnters(env, w, st, last);
      match Turnover(env, w, st, last)
      case Halt(_) =>
      case Again(w', st', last') => ContinueEnters(env, w', st', last');
    }
  }

  // ---------- the calls ----------

  lemma StartEnters(env: Env, w: World, rid: Id, message: string, configured: nat)
    requires Even(env, LedgerOf(w), 0)
    ensures Even(env, LedgerOf(StartRun(env, w, rid, message, configured).w), 0)
  {
    hide LedgerOf, Abort, ContinueRun, RecordStep, Transition, StoredState;
    var st := InitialState(rid, message, Budget(configured), w.clock);
    var s := SaveState(env, w, st);
    SameTrace(w, s.w);
    QuietLog(env, s.w, Plain(RunStarted));
    var started := Log(env, s.w, Plain(RunStarted));
    var m := Tick(env, started);
    SameTrace(started, m);
    var t := Tick(env, m);
    SameTrace(m, t);
    AbortSame(env, t, st, ContextFailed);
    var built := env.context(m.clock);
    if built.Some? {
      var st1 := st.(context := built.value);
      StageSame(env, t, st1, BuildContext, StepCompleted, EMPTY, ContextBuilt);
      var r := RecordStep(env, t, st1, BuildContext, StepCompleted, EMPTY);
      var c := Transition(env, r.w, r.st, ContextBuilt, r.step);
      ContinueEnters(env, c.w, c.st, None);
    }
  }

  lemma HydrateSame(w: World, id: Id)
    ensures Same(w, HydrateApproval(w, id).0)
  {
    hide LedgerOf, LatestApproval, CloneRecord;
    SameTrace(w, HydrateApproval(w, id).0);
  }

  lemma ResolveSame(w: World, id: Id, approve: bool, reason: string)
    ensures Same(w, ResolveApproval(w, id, approve, reason).0)
    ensures !Settleable(w, id) ==> ResolveApproval(w, id, approve, reason).1.None?
  {
    hide LedgerOf, Settle, CloneRecord;
    var settled := w.(approvals := Settle(w.approvals, id, approve, reason));
    SameTrace(w, settled);
    QuietNote(settled, ResolvedAs(id, approve));
  }

  lemma RejectSame(env: Env, w: World, st: RunState, id: Id)
    ensures Same(w, RejectPaused(env, w, st, id).w)
  {
    hide LedgerOf, Abort, RecordStep, Transition, ResolveApproval, CloseRejected, ApprovalBody;
    ResolveSame(w, id, false, "rejected from workflow");
    var (w1, rejected) := ResolveApproval(w, id, false, "rejected from workflow");
    AbortSame(env, w1, st, ResolveFailed);
    if rejected.Some? {
      var body := ApprovalBody(rejected.value);
      StageSame(env, w1, st, RequestApproval, StepCancelled, body, ApprovalRejected);
      var r := RecordStep(env, w1, st, RequestApproval, StepCancelled, body);
      var t := Transition(env, r.w, r.st, ApprovalRejected, r.step);
      QuietLog(env, t.w, OfApproval(EventApprovalRejected, id));
      CloseSame(env, Log(env, t.w, OfApproval(EventApprovalRejected, id)), t.st);
    }
  }

  lemma CloseSame(env: Env, w: World, st: RunState)
    ensures Same(w, CloseRejected(env, w, st).w)
  {
    hide RecordStep, Transition, Abort, PersistAssistant, LedgerOf;
    StageSame(env, w, st, Summarize, StepCompleted, EMPTY, Summarizing);
    var r := RecordStep(env, w, st, Summarize, StepCompleted, EMPTY);
    var t := Transition(env, r.w, r.st, Summarizing, r.step);
    AssistantSame(env, t.w, t.st);
    var m := PersistAssistant(env, t.w);
    StageSame(env, m.w, t.st, Finalize, StepCompleted, EMPTY, ApprovalRejected);
    var f := RecordStep(env, m.w, t.st, Finalize, StepCompleted, EMPTY);
    QuietLog(env, Transition(env, f.w, f.st, ApprovalRejected, f.step).w, Plain(RunCompleted));
  }

  /** Nothing but approval `id` has been used since, and that at most once. */
  ghost predicate MayUse(a: World, b: World, id: Id)
  {
    LedgerOf(b).used == LedgerOf(a).used || LedgerOf(b).used == LedgerOf(a).used + [id]
  }

  /** A resolution of the approval would succeed. */
  predicate Settleable(w: World, id: Id) { id in w.approvals && w.approvals[id].status == Pending }

  /** Executing on an approval uses it, and is not free. */
  lemma ExecuteApprovedEnters(env: Env, w: World, id: Id)
    requires id != NO_ID
    ensures var l, e := LedgerOf(w), LedgerOf(ExecuteApproved(env, w, id).w); e == l || e == l.(used := l.used + [id])
  {
    hide LedgerOf, Execute, CloneMap, HashMap;
    if !w.dead && id in w.approvals {
      var record := CloneRecord(w.approvals[id]);
      ExecuteEnters(env, w, record.proposal.(input := CloneMap(record.snapshot)), id);
    }
  }

  lemma AfterFailureSame(env: Env, w: World, st: RunState, body: Body)
    ensures Same(w, AfterFailure(env, w, st, body).w)
  {
    hide LedgerOf, Abort, RecordStep, Transition;
    StageSame(env, w, st, ExecuteTool, StepFailed, body, ToolFailed);
    var x := RecordStep(env, w, st, ExecuteTool, StepFailed, body);
    var y := if x.ok then Transition(env, x.w, x.st, ToolFailed, x.step) else At(x.w, x.st);
    AbortSame(env, y.w, y.st, RouterFailed);
  }

  lemma AfterSuccessEnters(env: Env, w: World, st: RunState, body: Body, result: Option<ToolResult>)
    requires Even(env, LedgerOf(w), 0)
    ensures var after := LedgerOf(AfterSuccess(env, w, st, body, result).w); Even(env, after, 0) && after.used == LedgerOf(w).used
  {
    hide LedgerOf, Abort, RecordStep, Transition, ContinueRun, StoredState;
    StageSame(env, w, st, ExecuteTool, StepCompleted, body, ToolCompleted);
    var x := RecordStep(env, w, st, ExecuteTool, StepCompleted, body);
    var y := Transition(env, x.w, x.st, ToolCompleted, x.step);
    var act := Streamed(OfApproval(EventToolOutput, st.approvalID));
    QuietNote(y.w, act);
    var shown := if result.Some? then Note(y.w, act) else y.w;
    var cleared := y.st.(approvalID := NO_ID);
    var s := SaveState(env, shown, cleared);
    SameTrace(shown, s.w);
    ContinueEnters(env, s.w, cleared, result);
  }

  lemma ApproveEnters(env: Env, w: World, st: RunState, approval: Record)
    requires Even(env, LedgerOf(w), 0) && approval.id != NO_ID
    ensures Even(env, LedgerOf(ApprovePaused(env, w, st, approval).w), 0)
    ensures MayUse(w, ApprovePaused(env, w, st, approval).w, approval.id)
    ensures !Settleable(w, approval.id) ==> LedgerOf(ApprovePaused(env, w, st, approval).w).used == LedgerOf(w).used
  {
    hide LedgerOf, Abort, RecordStep, Transition, ResolveApproval, ApprovalBody, RunApproved;
    var id := approval.id;
    ResolveSame(w, id, true, "");
    var (w1, approved) := ResolveApproval(w, id, true, "");
    AbortSame(env, w1, st, ResolveFailed);
    if approved.Some? {
      var body := ApprovalBody(approved.value);
      StageSame(env, w1, st, RequestApproval, StepCompleted, body, ApprovalApproved);
      var r := RecordStep(env, w1, st, RequestApproval, StepCompleted, body);
      var t := Transition(env, r.w, r.st, ApprovalApproved, r.step);
      QuietLog(env, t.w, OfApproval(EventApprovalApproved, id));
      var said := Log(env, t.w, OfApproval(EventApprovalApproved, id));
      TransitionSame(env, said, t.st, ToolExecuting, r.step);
      var u := Transition(env, said, t.st, ToolExecuting, r.step);
      RunApprovedEnters(env, u.w, u.st, approval, approved.value);
    }
  }

  lemma RunApprovedEnters(env: Env, w: World, st: RunState, approval: Record, approved: Record)
    requires Even(env, LedgerOf(w), 0) && approval.id != NO_ID
    ensures Even(env, LedgerOf(RunApproved(env, w, st, approval, approved).w), 0)
    ensures MayUse(w, RunApproved(env, w, st, approval, approved).w, approval.id)
  {
    hide LedgerOf, ExecuteApproved, AfterFailure, AfterSuccess, ExecuteBody;
    ExecuteApprovedEnters(env, w, approval.id);
    var e := ExecuteApproved(env, w, approval.id);
    if e.ok {
      AfterSuccessEnters(env, e.w, st.(toolResult := e.result), ExecuteBody(approval, approved, e.result, NoError), e.result);
    } else {
      AfterFailureSame(env, e.w, st.(error := RouterFailed), ExecuteBody(approval, approved, None, RouterFailed));
    }
  }

  lemma ResumeEnters(env: Env, rid: Id, w: World, id: Id, approve: bool)
    requires Safety.Inv(rid, w) && Even(env, LedgerOf(w), 0)
    ensures Even(env, LedgerOf(ResumeRun(env, w, rid, id, approve).w), 0)
    ensures var h := HydrateApproval(w, id).0; var after := ResumeRun(env, w, rid, id, approve).w;
      MayUse(w, after, id) && (!Settleable(h, id) ==> LedgerOf(after).used == LedgerOf(w).used)
  {
    hide LedgerOf, HydrateApproval, ApprovePaused, RejectPaused, Safety.Inv;
    if !w.dead && w.run.Some? {
      HydrateSame(w, id);
      HydratedId(rid, w, id);
      var (h, approval) := HydrateApproval(w, id);
      if approval.Some? && approval.value.runID == rid {
        ApproveEnters(env, h, w.run.value, approval.value);
        RejectSame(env, h, w.run.value, id);
      }
    }
  }

  lemma HydratedId(rid: Id, w: World, id: Id)
    requires Safety.Inv(rid, w)
    ensures var (_, approval) := HydrateApproval(w, id);
      approval.Some? && approval.value.runID == rid ==> approval.value.id == id != NO_ID
  {
    if !w.dead && id !in w.approvals && LatestApproval(w.steps, id).Some? {
      Safety.LatestSound(rid, w.clock, w.trace, w.steps, id);
    }
  }

  lemma CancelSame(env: Env, w: World)
    ensures Same(w, CancelRun(env, w).w)
  {
    hide LedgerOf, ResolveApproval, RecordStep, Transition, Abort;
    if !w.dead && w.run.Some? {
      var st := w.run.value;
      ResolveSame(w, st.approvalID, false, "run cancelled");
      var (w1, _) := if st.approvalID != NO_ID then ResolveApproval(w, st.approvalID, false, "run cancelled") else (w, None);
      StageSame(env, w1, st, CancelStep, StepCancelled, EMPTY, Cancelled);
      var r := RecordStep(env, w1, st, CancelStep, StepCancelled, EMPTY);
      QuietLog(env, Transition(env, r.w, r.st, Cancelled, r.step).w, Plain(RunCancelled));
    }
  }

  lemma RestartSame(w: World)
    ensures Same(w, Restart(w))
  {
    var alive := w.(dead := false, approvals := map[]);
    SameTrace(w, alive);
    NoteEnters(alive, Restarted);
    SameTrace(Note(alive, Restarted), Restart(w));
  }

  lemma {:induction false} CallsEnter(env: Env, rid: Id, w: World, calls: seq<Call>)
    requires Safety.Inv(rid, w) && Even(env, LedgerOf(w), 0)
    ensures Even(env, LedgerOf(ApplyAll(env, rid, w, calls)), 0)
  {
    hide LedgerOf, Safety.Inv, ResumeRun, CancelRun, Restart;
    if calls != [] {
      var front := calls[..|calls| - 1];
      CallsEnter(env, rid, w, front);
      Safety.CallsKeep(env, rid, w, front);
      var before := ApplyAll(env, rid, w, front);
      match calls[|calls| - 1]
      case Resume(id, approve) => ResumeEnters(env, rid, before, id, approve);
      case Cancel => CancelSame(env, before);
      case Reboot => RestartSame(before);
    }
  }

  lemma SessionEnters(env: Env, setup: Setup, calls: seq<Call>)
    requires Fresh(setup)
    ensures Even(env, LedgerOf(Session(env, setup, calls)), 0)
  {
    assert Even(env, LedgerOf(Genesis(setup)), 0);
    hide LedgerOf, Safety.Inv, StartRun, ApplyAll, Genesis;
    StartEnters(env, Genesis(setup), setup.rid, setup.message, setup.configured);
    Safety.StartKeeps(env, setup);
    CallsEnter(env, setup.rid, StartRun(env, Genesis(setup), setup.rid, setup.message, setup.configured).w, calls);
  }

  // ---------- the theorems ----------

  function NonZero(ids: seq<Id>): seq<Id>
  {
    if ids == [] then [] else NonZero(Init(ids)) + if Last(ids) == NO_ID then [] else [Last(ids)]
  }

  lemma {:induction false} EventsAreRequests(trace: seq<Act>)
    ensures ApprovalsFromEvents(trace) == NonZero(RequestedIds(trace))
  {
    if trace != [] {
      EventsAreRequests(Init(trace));
      var before, last := RequestedIds(Init(trace)), Last(trace);
      if last.Logged? && last.event.kind == EventApprovalRequested {
        assert Init(before + [last.event.approvalID]) == before;
      } else {
        assert RequestedIds(trace) == before;
      }
    }
  }

  lemma {:induction false} AllNonZero(ids: seq<Id>)
    requires forall id :: id in ids ==> id != NO_ID
    ensures NonZero(ids) == ids
  {
    if ids != [] {
      assert ids == Init(ids) + [Last(ids)];
      assert Last(ids) in ids;
      forall id | id in Init(ids) ensures id != NO_ID {
        assert id in ids;
      }
      AllNonZero(Init(ids));
    }
  }

  lemma {:induction false} AnnouncedIsAll(env: Env, ids: seq<Id>)
    ensures forall id :: id in Announced(env, ids) ==> id in ids
    ensures |Announced(env, ids)| <= |ids|
    ensures Announced(env, ids) == ids <==> forall id :: id in ids ==> Landed(env, id)
  {
    hide Landed;
    if ids != [] {
      var front, last := Init(ids), Last(ids);
      AnnouncedIsAll(env, front);
      assert ids == front + [last];
      if Landed(env, last) && Announced(env, ids) == ids {
        assert Announced(env, front) == Init(Announced(env, ids)) == front;
      }
    }
  }

  /** In every session the approval.requested events of the run log name, in order and each once, exactly the
      approvals created whose announcement was not swallowed: neither did the process die right after the
      creation nor did the write fail. So they name all of them if and only if that befell none. Router and
      runtime both announce an approval, but only one of the two events is written to the run log. */
  lemma EventsNameTheCreated(env: Env, setup: Setup, calls: seq<Call>)
    requires Fresh(setup)
    ensures var trace := Session(env, setup, calls).trace; var ids := CreatedIds(trace);
      && (forall i, j :: 0 <= i < j < |ids| ==> ids[i] != ids[j])
      && ApprovalsFromEvents(trace) == Announced(env, ids)
      && (ApprovalsFromEvents(trace) == ids <==> forall id :: id in ids ==> Landed(env, id))
  {
    hide Session, Landed;
    var w := Session(env, setup, calls);
    SessionEnters(env, setup, calls);
    EventsAreRequests(w.trace);
    Safety.SessionKeeps(env, setup, calls);
    Lifecycle.CreatedOnce(w.trace);
    AnnouncedIsAll(env, CreatedIds(w.trace));
    assert forall id :: id in CreatedIds(w.trace) ==> id != NO_ID;
    AllNonZero(Announced(env, CreatedIds(w.trace)));
  }

  lemma {:induction false} RunsSplit(trace: seq<Act>)
    ensures ExecutorCalls(trace) == |FreeRuns(trace)| + |UsedIds(trace)|
    ensures forall id :: id != NO_ID ==> Executions(trace, id) == multiset(UsedIds(trace))[id]
    ensures forall id :: id in UsedIds(trace) ==> id != NO_ID && Executions(trace, id) > 0
  {
    if trace != [] { RunsSplit(Init(trace)); }
  }

  /** No more distinct elements than there is room for. */
  lemma {:induction false} Pigeons(few: seq<Id>, many: seq<Id>)
    requires forall id :: id in few ==> id in many && multiset(few)[id] == 1
    ensures |few| <= |many|
  {
    var a, b := multiset(few), multiset(many);
    forall id ensures a[id] <= b[id] {
      if id in a { assert id in few && id in many && id in b; }
    }
    assert a <= b;
    assert b == a + (b - a);
    assert |b| == |a| + |b - a|;
  }

  /** In every session the executor runs at most as often as the planner. */
  lemma ExecutorsNeverOutrunPlanner(env: Env, setup: Setup, calls: seq<Call>)
    requires Fresh(setup)
    ensures var trace := Session(env, setup, calls).trace; ExecutorCalls(trace) <= PlannerCalls(trace)
  {
    hide Session;
    var w := Session(env, setup, calls);
    SessionEnters(env, setup, calls);
    RunsSplit(w.trace);
    Safety.SessionKeeps(env, setup, calls);
    Lifecycle.CreatedOnce(w.trace);
    forall id | id in UsedIds(w.trace) ensures id in CreatedIds(w.trace) && multiset(UsedIds(w.trace))[id] == 1 {
      CrashSafety.AtMostOnce(env, setup, calls, id);
      UsedWasCreated(w.trace, id);
    }
    Pigeons(UsedIds(w.trace), CreatedIds(w.trace));
  }

  lemma {:induction false} UsedWasCreated(trace: seq<Act>, id: Id)
    requires Mediated(trace) && id != NO_ID && Executions(trace, id) > 0
    ensures id in CreatedIn(trace)
  {
    hide AutoDecided, AskDecided, LastDecision, HashVerifies;
    if !(Last(trace).Executed? && Last(trace).approval == id) {
      UsedWasCreated(Init(trace), id);
    }
  }

  /** In every session every answer of the policy, and every policy decision in the run log, is what the policy
      decides about that call, on something the inferrer said of it. */
  lemma EveryDecisionIsThePolicys(env: Env, setup: Setup, calls: seq<Call>, act: Act)
    requires Fresh(setup) && act in Session(env, setup, calls).trace
    requires act.Decided? || (act.Logged? && act.event.kind == EventPolicyDecided)
    ensures Reported(env, act)
  {
    hide Session, Reported;
    SessionEnters(env, setup, calls);
    DecisionListed(Session(env, setup, calls).trace, act);
  }

  lemma {:induction false} DecisionListed(trace: seq<Act>, act: Act)
    requires act in trace && (act.Decided? || (act.Logged? && act.event.kind == EventPolicyDecided))
    ensures act in Decisions(trace)
  {
    if Last(trace) != act {
      assert trace == Init(trace) + [Last(trace)];
      DecisionListed(Init(trace), act);
    }
  }

  /** In every session every execution without an approval is of a proposal with exactly that input, on which
      the policy decides to execute without asking, given something the inferrer said of it. */
  lemma EveryFreeRunIsDecided(env: Env, setup: Setup, calls: seq<Call>, act: Act)
    requires Fresh(setup) && act in Session(env, setup, calls).trace && act.Executed? && act.approval == NO_ID
    ensures FreelyDecided(env, act)
  {
    hide Session, FreelyDecided;
    SessionEnters(env, setup, calls);
    FreeRunListed(Session(env, setup, calls).trace, act);
  }

  lemma {:induction false} FreeRunListed(trace: seq<Act>, act: Act)
    requires act in trace && act.Executed? && act.approval == NO_ID
    ensures act in FreeRuns(trace)
  {
    if Last(trace) != act {
      assert trace == Init(trace) + [Last(trace)];
      FreeRunListed(Init(trace), act);
    }
  }
}
