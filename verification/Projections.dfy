/** What a reader of the run log can count and list (internal/evals/replay.go), and the same lists read
    off the step log. */
module Projections {
  import opened Base
  import opened Types
  import opened RunStates
  import opened Machine
  import opened History

  /** The tools of the tool.proposed events. Events that were only streamed to the client are not in the
      run log. */
  function ProposedTools(trace: seq<Act>): seq<string>
  {
    if trace == [] then []
    else
      ProposedTools(Init(trace)) +
      match Last(trace)
      case Logged(e) => if e.kind == EventToolProposed then [e.tool] else []
      case _ => []
  }

  /** toolsFromEvents: the same without the empty names. */
  function ToolsFromEvents(trace: seq<Act>): seq<string>
  {
    if trace == [] then []
    else
      ToolsFromEvents(Init(trace)) +
      match Last(trace)
      case Logged(e) => if e.kind == EventToolProposed && e.tool != "" then [e.tool] else []
      case _ => []
  }

  function NonEmpty(names: seq<string>): seq<string>
  {
    if names == [] then [] else NonEmpty(Init(names)) + if Last(names) == "" then [] else [Last(names)]
  }

  lemma {:induction false} ToolsAreNonEmpty(trace: seq<Act>)
    ensures ToolsFromEvents(trace) == NonEmpty(ProposedTools(trace))
  {
    if trace != [] {
      ToolsAreNonEmpty(Init(trace));
      var before := ProposedTools(Init(trace));
      var last := Last(trace);
      if last.Logged? && last.event.kind == EventToolProposed {
        assert Init(before + [last.event.tool]) == before;
      } else {
        assert ProposedTools(trace) == before;
      }
    }
  }

  /** approvalsFromEvents: the ids named by the approval.requested events. */
  function ApprovalsFromEvents(trace: seq<Act>): seq<Id>
  {
    if trace == [] then []
    else
      ApprovalsFromEvents(Init(trace)) +
      match Last(trace)
      case Logged(e) => if e.kind == EventApprovalRequested && e.approvalID != NO_ID then [e.approvalID] else []
      case _ => []
  }

  /** The approvals actually created, in order. */
  function CreatedIds(trace: seq<Act>): seq<Id>
  {
    if trace == [] then []
    else CreatedIds(Init(trace)) + if Last(trace).Created? then [Last(trace).record.id] else []
  }

  function PlannerCalls(trace: seq<Act>): nat
  {
    if trace == [] then 0 else PlannerCalls(Init(trace)) + if Last(trace).PlannerCalled? then 1 else 0
  }

  function ExecutorCalls(trace: seq<Act>): nat
  {
    if trace == [] then 0 else ExecutorCalls(Init(trace)) + if Last(trace).Executed? then 1 else 0
  }

  /** Everything above at once. */
  datatype Tally = Tally(tools: seq<string>, asked: seq<Id>, created: seq<Id>, planned: nat, ran: nat)

  function TallyOf(trace: seq<Act>): Tally
  {
    Tally(ProposedTools(trace), ApprovalsFromEvents(trace), CreatedIds(trace), PlannerCalls(trace), ExecutorCalls(trace))
  }

  function Counted(t: Tally, act: Act): Tally
  {
    match act
    case Logged(e) =>
      if e.kind == EventToolProposed then t.(tools := t.tools + [e.tool])
      else if e.kind == EventApprovalRequested && e.approvalID != NO_ID then t.(asked := t.asked + [e.approvalID])
      else t
    case PlannerCalled(_) => t.(planned := t.planned + 1)
    case Created(r) => t.(created := t.created + [r.id])
    case Executed(_, _, _, _) => t.(ran := t.ran + 1)
    case _ => t
  }

  lemma TallyAppend(trace: seq<Act>, act: Act)
    ensures TallyOf(trace + [act]) == Counted(TallyOf(trace), act)
  {
    AppendUnfolds(trace, act);
    assert ProposedTools(trace) + [] == ProposedTools(trace);
    assert ApprovalsFromEvents(trace) + [] == ApprovalsFromEvents(trace);
    assert CreatedIds(trace) + [] == CreatedIds(trace);
  }

  /** The tools of the propose_tool steps; None where the step's proposal could not be stored. */
  function ToolsFromSteps(steps: seq<Step>): seq<Option<string>>
  {
    if steps == [] then []
    else ToolsFromSteps(Init(steps)) + ToolOf(Last(steps))
  }

  function ToolOf(step: Step): seq<Option<string>>
  {
    if step.kind != ProposeTool then []
    else if step.proposal.None? then [None]
    else [Some(step.proposal.value.tool)]
  }

  /** The approvals the paused steps wait for. */
  function WaitsFromSteps(steps: seq<Step>): seq<Id>
  {
    if steps == [] then []
    else WaitsFromSteps(Init(steps)) + WaitOf(Last(steps))
  }

  function WaitOf(step: Step): seq<Id>
  {
    if step.status == StepPaused && step.approval.Some? then [step.approval.value.id] else []
  }

  /** The step log names the same tools in the same order, wherever it could store the proposal. */
  ghost predicate Agree(names: seq<string>, stored: seq<Option<string>>)
  {
    && |names| == |stored|
    && (forall k :: 0 <= k < |names| && stored[k].Some? ==> stored[k].value == names[k])
  }
}
