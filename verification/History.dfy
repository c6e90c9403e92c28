/** Reading a run's past off its trace: which approvals were created and approved, what ran, and what
    each execution was allowed by. */
module History {
  import opened Base
  import opened Json
  import opened Types
  import opened Approvals
  import opened Policy
  import opened RunStates
  import opened Machine

  function Init<T>(s: seq<T>): seq<T>
    requires s != []
  {
    s[..|s| - 1]
  }

  function Last<T>(s: seq<T>): T
    requires s != []
  {
    s[|s| - 1]
  }

  /** The approvals created so far, as they were handed out. */
  function CreatedIn(trace: seq<Act>): map<Id, Record>
  {
    if trace == [] then map[]
    else
      var earlier := CreatedIn(Init(trace));
      if Last(trace).Created? then earlier[Last(trace).record.id := Last(trace).record] else earlier
  }

  predicate ApprovedIn(trace: seq<Act>, id: Id)
  {
    trace != [] && (Last(trace) == ResolvedAs(id, true) || ApprovedIn(Init(trace), id))
  }

  /** How often the executor ran on the strength of approval `id`. */
  function Executions(trace: seq<Act>, id: Id): nat
  {
    if trace == [] then 0
    else Executions(Init(trace), id) + if Last(trace).Executed? && Last(trace).approval == id then 1 else 0
  }

  /** The policy's last answer. */
  function LastDecision(trace: seq<Act>): Option<Act>
  {
    if trace == [] then None
    else if Last(trace).Decided? then Some(Last(trace))
    else LastDecision(Init(trace))
  }

  /** The last policy decision concerns this very call. */
  predicate DecidesOn(trace: seq<Act>, callID: string, tool: string)
  {
    var d := LastDecision(trace);
    d.Some? && d.value.Decided? && d.value.callID == callID && d.value.tool == tool
  }

  /** ... and lets it run without approval. */
  predicate AutoDecided(trace: seq<Act>, callID: string, tool: string)
  {
    DecidesOn(trace, callID, tool) && AutoExecutes(LastDecision(trace).value.decision)
  }

  /** ... or asks for approval. */
  predicate AskDecided(trace: seq<Act>, callID: string, tool: string)
  {
    DecidesOn(trace, callID, tool) && LastDecision(trace).value.decision.requiresApproval
  }

  /** An approval for this call was created and, later, approved. */
  predicate ApprovedFor(trace: seq<Act>, id: Id, callID: string, tool: string)
  {
    && id in CreatedIn(trace) && ApprovedIn(trace, id)
    && CreatedIn(trace)[id].proposal.id == callID && CreatedIn(trace)[id].proposal.tool == tool
  }

  /** What came before entitles the program to this act. */
  ghost predicate Justified(before: seq<Act>, act: Act)
  {
    match act
    case Executed(callID, tool, input, id) =>
      if id == NO_ID then
        AutoDecided(before, callID, tool) && input == LastDecision(before).value.input
      else
        && ApprovedFor(before, id, callID, tool)
        && input == CreatedIn(before)[id].snapshot && HashVerifies(CreatedIn(before)[id])
    case Created(r) =>
      && r.id !in CreatedIn(before) && AskDecided(before, r.proposal.id, r.proposal.tool)
      && r.snapshot == CloneMap(NormalizedInput(r.proposal.(input := LastDecision(before).value.input)))
    case Logged(e) =>
      e.kind == EventToolStarted ==>
        AutoDecided(before, e.callID, e.tool) || exists id :: ApprovedFor(before, id, e.callID, e.tool)
    case _ => true
  }

  /** Every act of the trace was justified when it happened. */
  ghost predicate Mediated(trace: seq<Act>)
  {
    trace != [] ==> Mediated(Init(trace)) && Justified(Init(trace), Last(trace))
  }

  /** The pointwise reading of Mediated. */
  lemma MediatedAt(trace: seq<Act>, k: nat)
    requires Mediated(trace) && k < |trace|
    ensures Justified(trace[..k], trace[k])
  {
    if k < |trace| - 1 {
      MediatedAt(Init(trace), k);
      assert Init(trace)[..k] == trace[..k];
    }
  }

  /** Acts that no function of this module looks at. */
  predicate Silent(act: Act)
  {
    match act
    case Logged(e) => e.kind != EventToolStarted
    case Lost(_) => true
    case Streamed(_) => true
    case PlannerCalled(_) => true
    case Restarted => true
    case _ => false
  }

  /** The two traces tell the same story to every function of this module. */
  ghost predicate SameStory(a: seq<Act>, b: seq<Act>)
  {
    && CreatedIn(a) == CreatedIn(b)
    && (forall id :: ApprovedIn(a, id) == ApprovedIn(b, id))
    && (forall id :: Executions(a, id) == Executions(b, id))
    && LastDecision(a) == LastDecision(b)
  }

  lemma AppendUnfolds(trace: seq<Act>, act: Act)
    ensures Init(trace + [act]) == trace && Last(trace + [act]) == act
  {}

  lemma SilentAct(trace: seq<Act>, act: Act)
    requires Silent(act) && Mediated(trace)
    ensures SameStory(trace, trace + [act]) && Mediated(trace + [act])
  {
    AppendUnfolds(trace, act);
  }

  /** A call executes on an approval at most as often as the whole trace does. */
  lemma ExecutionsMonotone(trace: seq<Act>, k: nat, id: Id)
    requires k <= |trace|
    ensures Executions(trace[..k], id) <= Executions(trace, id)
  {
    if k < |trace| {
      ExecutionsMonotone(Init(trace), k, id);
      assert Init(trace)[..k] == trace[..k];
    } else {
      assert trace[..k] == trace;
    }
  }
}
