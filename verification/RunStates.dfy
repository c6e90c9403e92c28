/** Run snapshots and the durable step log: what is written, what redaction and the JSON round trip
    make of it, and in which order it is listed (internal/agent/workflow_state.go). */
module RunStates {
  import opened Base
  import opened Json
  import opened Types

  datatype RunStatus =
    | Received | ContextBuilt | PlanMade | ToolProposed | EffectInferred | PolicyDecided
    | ApprovalRequested | PausedForApproval | ApprovalApproved | ApprovalRejected
    | ToolExecuting | ToolCompleted | ToolFailed | Summarizing
    | Completed | Failed | Cancelled

  datatype StepKind =
    | BuildContext | PlanStep | ContinueStep | ProposeTool | InferEffect | DecidePolicy
    | RequestApproval | ExecuteTool | Summarize | Finalize | CancelStep

  datatype StepStatus = StepCompleted | StepPaused | StepFailed | StepCancelled

  /** Why a run or a step failed; the texts of the original's errors are not represented. */
  datatype Cause =
    | NoError | ContextFailed | StoreFailed | MaxStepsExceeded | PlannerFailed | RunnerFailed
    | UnsupportedDecision | MissingProposal | RouterFailed | MessageFailed | ResolveFailed | ToolError(text: string)

  datatype Step = Step(
    stepID: Id,
    runID: Id,
    index: nat,
    kind: StepKind,
    status: StepStatus,
    proposal: Option<Proposal>,
    approval: Option<Record>,
    result: Option<ToolResult>,
    error: Cause)

  datatype RunState = RunState(
    runID: Id,
    status: RunStatus,
    currentStep: StepKind,
    stepIndex: nat,
    stepCount: nat,
    maxSteps: nat,
    userMessage: string,
    context: seq<string>,
    proposal: Option<Proposal>,
    approvalID: Id,
    toolResult: Option<ToolResult>,
    error: Cause,
    updatedAt: nat)

  /** Redaction is an arbitrary rewriting of texts and of input maps. */
  datatype Redactor = Redactor(text: string -> string, input: GoMap -> GoMap)

  // ---------- persistence with redaction ----------

  function RedactCause(red: Redactor, cause: Cause): Cause
  {
    if cause.ToolError? then ToolError(red.text(cause.text)) else cause
  }

  function RedactProposal(red: Redactor, p: Proposal): Proposal
  {
    p.(input := red.input(CloneMap(p.input)))
  }

  function RedactResult(red: Redactor, r: ToolResult): ToolResult
  {
    r.(output := red.input(CloneMap(r.output)), error := red.text(r.error))
  }

  /** marshalToMap and back: a proposal that JSON refuses is stored as {} and read as absent. */
  function StoredProposal(red: Redactor, p: Option<Proposal>): Option<Proposal>
  {
    if p.None? then None
    else
      var r := RedactProposal(red, p.value);
      if Marshalable(r.input) then Some(r.(input := Canon(r.input))) else None
  }

  function StoredResult(red: Redactor, r: Option<ToolResult>): Option<ToolResult>
  {
    if r.None? then None
    else
      var s := RedactResult(red, r.value);
      if Marshalable(s.output) then Some(s.(output := Canon(s.output))) else None
  }

  /** What ListSteps gives back for a step that was saved. The approval is the one part stored
      unredacted: resuming needs the exact snapshot. */
  function StoredStep(red: Redactor, step: Step): Step
  {
    step.(proposal := StoredProposal(red, step.proposal),
          approval := if step.approval.Some? then Some(CloneRecord(step.approval.value)) else None,
          result := StoredResult(red, step.result),
          error := RedactCause(red, step.error))
  }

  /** The JSON half of a snapshot is lost as a whole when any part of it cannot be encoded. */
  predicate SnapshotEncodes(red: Redactor, st: RunState)
  {
    && (st.proposal.Some? ==> Marshalable(RedactProposal(red, st.proposal.value).input))
    && (st.toolResult.Some? ==> Marshalable(RedactResult(red, st.toolResult.value).output))
  }

  /** What Get gives back for a state that was saved. Identity, status, counters and the approval id
      live in columns of their own; the rest goes through the redacted JSON snapshot. */
  function StoredState(red: Redactor, st: RunState): RunState
  {
    var columns := st.(userMessage := red.text(st.userMessage), error := RedactCause(red, st.error));
    if SnapshotEncodes(red, st) then
      columns.(context := seq(|st.context|, k requires 0 <= k < |st.context| => red.text(st.context[k])),
               proposal := StoredProposal(red, st.proposal),
               toolResult := StoredResult(red, st.toolResult))
    else
      columns.(context := [], proposal := None, toolResult := None)
  }

  /** Whatever redaction does, the round trip keeps everything the control flow of a resume reads. */
  lemma StoredStateKeepsControl(red: Redactor, st: RunState)
    ensures var s := StoredState(red, st);
      && s.runID == st.runID && s.status == st.status && s.currentStep == st.currentStep
      && s.stepIndex == st.stepIndex && s.stepCount == st.stepCount && s.maxSteps == st.maxSteps
      && s.approvalID == st.approvalID
      && (s.proposal.Some? ==> st.proposal.Some? && s.proposal.value.tool == st.proposal.value.tool)
      && (s.proposal.Some? <==> st.proposal.Some? && SnapshotEncodes(red, st))
  {}

  /** An approval comes back from the log exactly as any reader of the approval store saw it. */
  lemma StoredApprovalIsExact(red: Redactor, step: Step, r: Record)
    requires step.approval == Some(CloneRecord(r))
    ensures StoredStep(red, step).approval == Some(CloneRecord(r))
  {
    CloneIdempotent(r.proposal.input);
    CloneIdempotent(r.snapshot);
  }

  // ---------- the step log ----------

  predicate SortedByIndex(steps: seq<Step>)
  {
    forall i, j :: 0 <= i < j < |steps| ==> steps[i].index <= steps[j].index
  }

  /** Insert behind every step whose index is not larger. */
  function InsertByIndex(steps: seq<Step>, step: Step): seq<Step>
  {
    if steps == [] || steps[|steps| - 1].index <= step.index then steps + [step]
    else InsertByIndex(steps[..|steps| - 1], step) + [steps[|steps| - 1]]
  }

  function SortByIndex(steps: seq<Step>): seq<Step>
  {
    if steps == [] then []
    else InsertByIndex(SortByIndex(steps[..|steps| - 1]), steps[|steps| - 1])
  }

  /** Overwrite the first step with the same id, or append. */
  function Put(steps: seq<Step>, step: Step): seq<Step>
  {
    if steps == [] then [step]
    else if steps[0].stepID == step.stepID then [step] + steps[1..]
    else [steps[0]] + Put(steps[1..], step)
  }

  function Upsert(steps: seq<Step>, step: Step): seq<Step>
  {
    SortByIndex(Put(steps, step))
  }

  lemma InsertKeeps(steps: seq<Step>, step: Step)
    ensures multiset(InsertByIndex(steps, step)) == multiset(steps) + multiset{step}
  {
    if steps != [] && steps[|steps| - 1].index > step.index {
      InsertKeeps(steps[..|steps| - 1], step);
      assert steps == steps[..|steps| - 1] + [steps[|steps| - 1]];
    }
  }

  lemma InsertMembers(steps: seq<Step>, step: Step)
    ensures forall s :: s in InsertByIndex(steps, step) <==> s in steps || s == step
  {
    if steps != [] && steps[|steps| - 1].index > step.index {
      InsertMembers(steps[..|steps| - 1], step);
      assert steps == steps[..|steps| - 1] + [steps[|steps| - 1]];
    }
  }

  lemma InsertSorts(steps: seq<Step>, step: Step)
    requires SortedByIndex(steps)
    ensures SortedByIndex(InsertByIndex(steps, step))
  {
    if steps != [] && steps[|steps| - 1].index > step.index {
      var front, last := steps[..|steps| - 1], steps[|steps| - 1];
      InsertSorts(front, step);
      InsertMembers(front, step);
      var inserted := InsertByIndex(front, step);
      assert InsertByIndex(steps, step) == inserted + [last];
      hide InsertByIndex;
      forall i | 0 <= i < |inserted| ensures inserted[i].index <= last.index {
        assert inserted[i] in inserted;
      }
    }
  }

  lemma {:induction false} SortSorts(steps: seq<Step>)
    ensures SortedByIndex(SortByIndex(steps))
    ensures multiset(SortByIndex(steps)) == multiset(steps)
  {
    hide InsertByIndex;
    if steps != [] {
      var front, last := steps[..|steps| - 1], steps[|steps| - 1];
      SortSorts(front);
      var sorted := SortByIndex(front);
      InsertSorts(sorted, last);
      InsertKeeps(sorted, last);
      hide SortedByIndex;
      assert steps == front + [last];
    }
  }

  lemma SortOfSorted(steps: seq<Step>)
    requires SortedByIndex(steps)
    ensures SortByIndex(steps) == steps
  {
    if steps != [] {
      SortOfSorted(steps[..|steps| - 1]);
      assert steps == steps[..|steps| - 1] + [steps[|steps| - 1]];
    }
  }

  ghost predicate FreshIn(id: Id, steps: seq<Step>) { forall s :: s in steps ==> s.stepID != id }

  lemma PutFresh(steps: seq<Step>, step: Step)
    requires FreshIn(step.stepID, steps)
    ensures Put(steps, step) == steps + [step]
  {
    if steps != [] {
      assert steps == [steps[0]] + steps[1..];
      assert forall s :: s in steps[1..] ==> s in steps;
      PutFresh(steps[1..], step);
    }
  }

  /** A step with a new id joins the log; nothing else comes or goes. */
  lemma UpsertFresh(steps: seq<Step>, step: Step)
    requires FreshIn(step.stepID, steps)
    ensures SortedByIndex(Upsert(steps, step))
    ensures forall s :: s in Upsert(steps, step) <==> s in steps || s == step
    ensures SortedByIndex(steps) && (forall s :: s in steps ==> s.index <= step.index) ==> Upsert(steps, step) == steps + [step]
  {
    PutFresh(steps, step);
    SortSorts(steps + [step]);
    forall s ensures s in Upsert(steps, step) <==> s in steps || s == step {
      assert s in multiset(Upsert(steps, step)) <==> s in multiset(steps + [step]);
    }
    if SortedByIndex(steps) && (forall s :: s in steps ==> s.index <= step.index) {
      SortOfSorted(steps + [step]);
    }
  }

  // ---------- the log refines a map from step id to step ----------

  ghost predicate UniqueIds(steps: seq<Step>)
  {
    forall i, j :: 0 <= i < j < |steps| ==> steps[i].stepID != steps[j].stepID
  }

  /** `m` and the log hold the same steps, each under its id. */
  ghost predicate Represents(steps: seq<Step>, m: map<Id, Step>)
  {
    && UniqueIds(steps)
    && (forall s :: s in steps <==> s.stepID in m && m[s.stepID] == s)
    && (forall id :: id in m ==> m[id].stepID == id)
  }

  lemma UniqueTail(steps: seq<Step>)
    requires UniqueIds(steps) && steps != []
    ensures UniqueIds(steps[1..])
    ensures forall s :: s in steps[1..] ==> s.stepID != steps[0].stepID
    ensures forall s :: s in steps <==> s == steps[0] || s in steps[1..]
  {
    assert steps == [steps[0]] + steps[1..];
  }

  lemma PutMembers(steps: seq<Step>, step: Step)
    requires UniqueIds(steps)
    ensures forall s :: s in Put(steps, step) <==> s == step || (s in steps && s.stepID != step.stepID)
  {
    if steps != [] {
      UniqueTail(steps);
      if steps[0].stepID != step.stepID {
        PutMembers(steps[1..], step);
        assert forall s :: s in Put(steps, step) <==> s == steps[0] || s in Put(steps[1..], step);
      } else {
        assert forall s :: s in Put(steps, step) <==> s == step || s in steps[1..];
      }
    }
  }

  lemma PutUnique(steps: seq<Step>, step: Step)
    requires UniqueIds(steps)
    ensures UniqueIds(Put(steps, step))
  {
    if steps != [] {
      UniqueTail(steps);
      if steps[0].stepID != step.stepID {
        PutUnique(steps[1..], step);
        PutMembers(steps[1..], step);
        var put := Put(steps[1..], step);
        assert forall j :: 0 <= j < |put| ==> put[j] in put;
      }
    }
  }

  lemma InsertUnique(steps: seq<Step>, step: Step)
    requires UniqueIds(steps) && FreshIn(step.stepID, steps)
    ensures UniqueIds(InsertByIndex(steps, step))
  {
    if steps != [] && steps[|steps| - 1].index > step.index {
      var front, last := steps[..|steps| - 1], steps[|steps| - 1];
      assert FreshIn(step.stepID, front);
      InsertUnique(front, step);
      InsertMembers(front, step);
      hide InsertByIndex;
      var inserted := InsertByIndex(front, step);
      forall i | 0 <= i < |inserted| ensures inserted[i].stepID != last.stepID {
        assert inserted[i] in inserted;
      }
    }
  }

  lemma SortUnique(a: seq<Step>)
    requires UniqueIds(a)
    ensures UniqueIds(SortByIndex(a))
    ensures forall s :: s in SortByIndex(a) <==> s in a
  {
    if a != [] {
      var front, last := a[..|a| - 1], a[|a| - 1];
      assert a == front + [last];
      SortUnique(front);
      InsertMembers(SortByIndex(front), last);
      assert FreshIn(last.stepID, SortByIndex(front));
      InsertUnique(SortByIndex(front), last);
    }
  }

  /** Saving a step is an update of the map, and the listing stays in ascending index order. */
  lemma UpsertRefinesMap(steps: seq<Step>, step: Step, m: map<Id, Step>)
    requires Represents(steps, m)
    ensures Represents(Upsert(steps, step), m[step.stepID := step])
    ensures SortedByIndex(Upsert(steps, step))
  {
    hide Put, SortByIndex, UniqueIds, SortedByIndex;
    var put := Put(steps, step);
    PutUnique(steps, step);
    PutMembers(steps, step);
    SortUnique(put);
    SortSorts(put);
  }
}
