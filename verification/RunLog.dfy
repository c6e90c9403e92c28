/** The step log as a language: which sequences of steps a run can leave behind, how long they get, and
    how they compare with the documented graph (internal/agent/runtime.go, internal/einoapp/graph.go). */
module RunLog {
  import opened Base
  import opened Types
  import opened RunStates
  import opened History

  /** Where a run stands, read off its step log. `Stuck` stands for a log no run produces. */
  datatype Phase =
    | Start | Head | Planned | Proposed | Inferred | Decided | Waiting | Granted | Broken
    | Summed | Finished | Refused | RefusedSummed | Declined | Crashed | Abandoned | Stuck

  /** The next step's kind and status move the phase on. */
  function After(phase: Phase, kind: StepKind, status: StepStatus): Phase
  {
    match kind
    case BuildContext => if phase == Start && status == StepCompleted then Head else Stuck
    case PlanStep => if phase == Head && status == StepCompleted then Planned else Stuck
    case ContinueStep => if phase == Planned && status == StepCompleted then Head else Stuck
    case ProposeTool => if phase == Planned && status == StepCompleted then Proposed else Stuck
    case InferEffect => if phase == Proposed && status == StepCompleted then Inferred else Stuck
    case DecidePolicy => if phase == Inferred && status == StepCompleted then Decided else Stuck
    case RequestApproval =>
      if phase == Decided then (if status == StepPaused then Waiting else Stuck)
      else if phase != Waiting then Stuck
      else if status == StepCompleted then Granted
      else if status == StepCancelled then Refused
      else Stuck
    case ExecuteTool =>
      if phase == Decided then (if status == StepCompleted || status == StepFailed then Head else Stuck)
      else if phase != Granted then Stuck
      else if status == StepCompleted then Head
      else if status == StepFailed then Broken
      else Stuck
    case Summarize =>
      if status != StepCompleted then Stuck else if phase == Planned then Summed else if phase == Refused then RefusedSummed else Stuck
    case Finalize =>
      if status == StepCompleted then (if phase == Summed then Finished else if phase == RefusedSummed then Declined else Stuck)
      else if status == StepFailed && phase in {Start, Head, Planned, Proposed, Waiting, Broken, Summed, RefusedSummed} then Crashed
      else Stuck
    case CancelStep => if status == StepCancelled && phase in {Start, Waiting, Declined} then Abandoned else Stuck
  }

  function Track(steps: seq<Step>): Phase
  {
    if steps == [] then Start else After(Track(Init(steps)), Last(steps).kind, Last(steps).status)
  }

  function Plans(steps: seq<Step>): nat
  {
    if steps == [] then 0 else Plans(Init(steps)) + if Last(steps).kind == PlanStep then 1 else 0
  }

  lemma TrackAppend(steps: seq<Step>, step: Step)
    ensures Track(steps + [step]) == After(Track(steps), step.kind, step.status)
    ensures Plans(steps + [step]) == Plans(steps) + if step.kind == PlanStep then 1 else 0
  {
    assert Init(steps + [step]) == steps;
  }

  // ---------- length ----------

  /** How many steps a log can have in each phase beyond seven for every plan. */
  function Slack(phase: Phase): int
  {
    match phase
    case Start => 0
    case Head => 1
    case Planned => -5
    case Proposed => -4
    case Inferred => -3
    case Decided => -2
    case Waiting => -1
    case Granted => 0
    case Broken => 1
    case Summed => -4
    case Finished => -3
    case Refused => 0
    case RefusedSummed => 1
    case Declined => 2
    case Crashed => 2
    case Abandoned => 3
    case Stuck => 0
  }

  lemma StepFits(phase: Phase, kind: StepKind, status: StepStatus)
    requires After(phase, kind, status) != Stuck && phase != Stuck
    ensures Slack(phase) + 1 <= Slack(After(phase, kind, status)) + if kind == PlanStep then 7 else 0
  {}

  lemma SlackIsSmall(phase: Phase)
    ensures 0 <= Slack(Start) && Slack(phase) <= 3
  {}

  /** Seven steps a plan, at most three more. */
  lemma {:induction false} LengthBound(steps: seq<Step>)
    requires Track(steps) != Stuck
    ensures |steps| <= 7 * Plans(steps) + Slack(Track(steps))
    ensures |steps| <= 7 * Plans(steps) + 3
  {
    hide Slack;
    if steps != [] {
      LengthBound(Init(steps));
      StepFits(Track(Init(steps)), Last(steps).kind, Last(steps).status);
    }
    SlackIsSmall(Track(steps));
  }

  /** A step of a kind and a status, as far as the language of logs is concerned. */
  function Mark(kind: StepKind, status: StepStatus): Step { Step(0, 0, 0, kind, status, None, None, None, NoError) }

  /** A plan whose tool needs approval, and the approval with its execution. */
  const ASK: seq<Step> := [
    Mark(PlanStep, StepCompleted), Mark(ProposeTool, StepCompleted), Mark(InferEffect, StepCompleted),
    Mark(DecidePolicy, StepCompleted), Mark(RequestApproval, StepPaused)]
  const GRANT: seq<Step> := [Mark(RequestApproval, StepCompleted), Mark(ExecuteTool, StepCompleted)]

  lemma Appends(front: seq<Step>, a: Step, b: Step)
    ensures front + [a, b] == (front + [a]) + [b]
    ensures Track(front + [a, b]) == After(After(Track(front), a.kind, a.status), b.kind, b.status)
    ensures Plans(front + [a, b]) == Plans(front) + (if a.kind == PlanStep then 1 else 0) + (if b.kind == PlanStep then 1 else 0)
  {
    assert front + [a, b] == (front + [a]) + [b];
    TrackAppend(front, a);
    TrackAppend(front + [a], b);
  }

  lemma Asks(front: seq<Step>)
    requires Track(front) == Head
    ensures Track(front + ASK) == Waiting && Plans(front + ASK) == Plans(front) + 1
  {
    hide Track, Plans;
    Appends(front, ASK[0], ASK[1]);
    Appends(front + [ASK[0], ASK[1]], ASK[2], ASK[3]);
    TrackAppend(front + [ASK[0], ASK[1]] + [ASK[2], ASK[3]], ASK[4]);
    assert front + ASK == front + [ASK[0], ASK[1]] + [ASK[2], ASK[3]] + [ASK[4]];
  }

  /** A log of `n` approved rounds. */
  lemma {:induction false} Rounds(n: nat) returns (steps: seq<Step>)
    ensures Track(steps) == Head && Plans(steps) == n && |steps| == 7 * n + 1
  {
    if n == 0 {
      steps := [Mark(BuildContext, StepCompleted)];
      assert Init(steps) == [];
    } else {
      var earlier := Rounds(n - 1);
      Asks(earlier);
      Appends(earlier + ASK, GRANT[0], GRANT[1]);
      steps := earlier + ASK + GRANT;
    }
  }

  /** The refusal with the cancellation of the refused run. */
  lemma Refuses(front: seq<Step>) returns (steps: seq<Step>)
    requires Track(front) == Waiting
    ensures Track(steps) == Abandoned && Plans(steps) == Plans(front) && |steps| == |front| + 4
  {
    hide Track, Plans;
    var refused, summed := Mark(RequestApproval, StepCancelled), Mark(Summarize, StepCompleted);
    TrackAppend(front, refused);
    TrackAppend(front + [refused], summed);
    var closed, cancelled := Mark(Finalize, StepCompleted), Mark(CancelStep, StepCancelled);
    TrackAppend(front + [refused] + [summed], closed);
    steps := front + [refused] + [summed] + [closed] + [cancelled];
    TrackAppend(front + [refused] + [summed] + [closed], cancelled);
  }

  /** A log of `p` plans, the last of which is refused, and the refused run then cancelled. */
  lemma LongestLog(p: nat) returns (steps: seq<Step>)
    requires p > 0
    ensures Track(steps) == Abandoned && Plans(steps) == p && |steps| == 7 * p + 3
  {
    hide Track, Plans;
    var earlier := Rounds(p - 1);
    Asks(earlier);
    steps := Refuses(earlier + ASK);
  }

  /** The bound is reached: every budget admits a log of exactly 7p + 3 steps. */
  lemma BoundIsReached(p: nat)
    requires p > 0
    ensures exists steps :: Track(steps) == Abandoned && Plans(steps) == p && |steps| == 7 * p + 3
  {
    var steps := LongestLog(p);
    hide Track, Plans;
  }

  // ---------- the documented graph ----------

  datatype Node =
    | BuildContextNode | PlanNode | ContinueNode | ToolProposalNode | EffectInferenceNode
    | PolicyDecisionNode | ApprovalInterruptNode | ExecuteToolNode | SummarizeNode | PersistNode

  /** The edges of NewAgentGraph. */
  predicate Edge(from: Node, to: Node)
  {
    match from
    case BuildContextNode => to == PlanNode
    case PlanNode => to == ContinueNode || to == ToolProposalNode || to == SummarizeNode
    case ContinueNode => to == PlanNode
    case ToolProposalNode => to == EffectInferenceNode
    case EffectInferenceNode => to == PolicyDecisionNode
    case PolicyDecisionNode => to == ApprovalInterruptNode || to == ExecuteToolNode
    case ApprovalInterruptNode => to == ExecuteToolNode
    case ExecuteToolNode => to == PlanNode || to == SummarizeNode
    case SummarizeNode => to == PersistNode
    case PersistNode => false
  }

  /** The node a step stands for; the graph has none for a cancellation. */
  function NodeOf(kind: StepKind): Option<Node>
  {
    match kind
    case BuildContext => Some(BuildContextNode)
    case PlanStep => Some(PlanNode)
    case ContinueStep => Some(ContinueNode)
    case ProposeTool => Some(ToolProposalNode)
    case InferEffect => Some(EffectInferenceNode)
    case DecidePolicy => Some(PolicyDecisionNode)
    case RequestApproval => Some(ApprovalInterruptNode)
    case ExecuteTool => Some(ExecuteToolNode)
    case Summarize => Some(SummarizeNode)
    case Finalize => Some(PersistNode)
    case CancelStep => None
  }

  /** The nodes a log visits: a request and its resolution are one visit to the interrupt node. */
  function Visits(steps: seq<Step>): seq<Option<Node>>
  {
    if steps == [] then []
    else
      var earlier := Visits(Init(steps));
      var node := NodeOf(Last(steps).kind);
      if node == Some(ApprovalInterruptNode) && earlier != [] && Last(earlier) == node then earlier
      else earlier + [node]
  }

  ghost predicate Walk(nodes: seq<Option<Node>>)
  {
    && (forall k :: 0 <= k < |nodes| ==> nodes[k].Some?)
    && (forall k :: 0 < k < |nodes| ==> Edge(nodes[k - 1].value, nodes[k].value))
  }

  /** The phases a run passes through as long as nobody refuses, cancels or fails. */
  predicate OnTrack(phase: Phase)
  {
    phase in {Head, Planned, Proposed, Inferred, Decided, Waiting, Granted, Summed, Finished}
  }

  /** The step that leads to a phase. */
  predicate LeadsTo(q: Phase, a: Step)
  {
    match q
    case Start => false
    case Head => a.kind == BuildContext || a.kind == ContinueStep || a.kind == ExecuteTool
    case Planned => a.kind == PlanStep
    case Proposed => a.kind == ProposeTool
    case Inferred => a.kind == InferEffect
    case Decided => a.kind == DecidePolicy
    case Waiting => a.kind == RequestApproval && a.status == StepPaused
    case Granted => a.kind == RequestApproval && a.status == StepCompleted
    case Broken => a.kind == ExecuteTool
    case Summed => a.kind == Summarize
    case Finished => a.kind == Finalize
    case Refused => a.kind == RequestApproval && a.status == StepCancelled
    case RefusedSummed => a.kind == Summarize
    case Declined => a.kind == Finalize
    case Crashed => a.kind == Finalize
    case Abandoned => a.kind == CancelStep
    case Stuck => true
  }

  lemma StepLeads(before: Phase, a: Step)
    ensures LeadsTo(After(before, a.kind, a.status), a)
  {}

  lemma NotStart(steps: seq<Step>)
    requires steps != []
    ensures Track(steps) != Start
  {}

  lemma VisitsEnd(steps: seq<Step>)
    requires steps != []
    ensures Visits(steps) != [] && Last(Visits(steps)) == NodeOf(Last(steps).kind)
  {}

  /** On track, the next step follows an edge of the graph or resolves the request before it. */
  lemma StepFollows(phase: Phase, a: Step, b: Step)
    requires LeadsTo(phase, a) && OnTrack(phase) && OnTrack(After(phase, b.kind, b.status))
    ensures NodeOf(a.kind).Some? && NodeOf(b.kind).Some?
    ensures Edge(NodeOf(a.kind).value, NodeOf(b.kind).value) || (a.kind == RequestApproval && b.kind == RequestApproval)
  {}

  lemma Beginnings(phase: Phase, b: Step)
    requires !OnTrack(phase) && OnTrack(After(phase, b.kind, b.status))
    ensures phase == Start && b.kind == BuildContext
  {}

  lemma WalkOn(nodes: seq<Option<Node>>, node: Option<Node>)
    requires Walk(nodes) && nodes != [] && node.Some? && Edge(Last(nodes).value, node.value)
    ensures Walk(nodes + [node])
  {
    hide Edge;
  }

  /** Every log of a run that is under way, paused or completed is a walk through the documented graph,
      through any number of pauses, and ends at the node of its last step. */
  lemma {:induction false} GraphConformance(steps: seq<Step>)
    requires OnTrack(Track(steps))
    ensures steps != [] && Visits(steps) != [] && Walk(Visits(steps)) && Visits(steps)[0] == Some(BuildContextNode)
    ensures Last(Visits(steps)) == NodeOf(Last(steps).kind)
  {
    hide After, NodeOf, Edge, Walk;
    var front, b := Init(steps), Last(steps);
    VisitsEnd(steps);
    if OnTrack(Track(front)) {
      GraphConformance(front);
      StepLeads(Track(Init(front)), Last(front));
      StepFollows(Track(front), Last(front), b);
      if Visits(steps) != Visits(front) {
        RequestNode(Last(front), b);
        WalkOn(Visits(front), NodeOf(b.kind));
      }
    } else {
      Beginnings(Track(front), b);
      if front != [] { NotStart(front); }
      assert Visits(steps) == [NodeOf(BuildContext)];
      FirstNode();
    }
  }

  lemma FirstNode()
    ensures NodeOf(BuildContext) == Some(BuildContextNode) && Walk([NodeOf(BuildContext)])
  {}

  lemma RequestNode(a: Step, b: Step)
    ensures a.kind == RequestApproval && b.kind == RequestApproval ==> NodeOf(a.kind) == NodeOf(b.kind) == Some(ApprovalInterruptNode)
  {}

  /** The node of the last step tells a paused run from a completed one. */
  lemma LastNode(steps: seq<Step>)
    requires Track(steps) in {Waiting, Finished}
    ensures steps != [] && NodeOf(Last(steps).kind) == Some(if Track(steps) == Waiting then ApprovalInterruptNode else PersistNode)
  {
    StepLeads(Track(Init(steps)), Last(steps));
  }

  /** The graph has an edge for this pair of steps, or they are one visit to the interrupt node. */
  predicate Documented(a: Step, b: Step)
  {
    && NodeOf(a.kind).Some? && NodeOf(b.kind).Some?
    && (Edge(NodeOf(a.kind).value, NodeOf(b.kind).value) || (a.kind == RequestApproval && b.kind == RequestApproval))
  }

  /** A failure that does not follow a summary, a refusal that goes straight to the summary, a cancellation. */
  predicate Undocumented(a: Step, b: Step)
  {
    || b.kind == CancelStep
    || (b.kind == Finalize && b.status == StepFailed && a.kind != Summarize)
    || (a.kind == RequestApproval && a.status == StepCancelled && b.kind == Summarize)
  }

  /** The edges of a log that the graph does not have: a failure that does not follow a summary, a
      refusal going straight to the summary, and every cancellation. */
  lemma {:induction false} MissingEdges(steps: seq<Step>, k: nat)
    requires Track(steps) != Stuck && 0 < k < |steps|
    ensures Documented(steps[k - 1], steps[k]) <==> !Undocumented(steps[k - 1], steps[k])
  {
    if k == |steps| - 1 {
      var front := Init(steps);
      assert Last(front) == steps[k - 1];
      PairExactly(Track(Init(front)), steps[k - 1], steps[k]);
    } else {
      MissingEdges(Init(steps), k);
    }
  }

  lemma PairExactly(before: Phase, a: Step, b: Step)
    requires After(After(before, a.kind, a.status), b.kind, b.status) != Stuck
    ensures Documented(a, b) <==> !Undocumented(a, b)
  {
    StepLeads(before, a);
    NextExactly(After(before, a.kind, a.status), a, b);
  }

  lemma NextExactly(phase: Phase, a: Step, b: Step)
    requires LeadsTo(phase, a) && After(phase, b.kind, b.status) != Stuck && phase != Stuck
    ensures Documented(a, b) <==> !Undocumented(a, b)
  {}
}
