/** From an approval id to the run that waits for it (ResumeApproval in internal/agent/runtime.go). */
module Lookup {
  import opened Base
  import opened Types
  import opened Approvals
  import opened RunStates
  import opened StateStore

  const RECENT: nat := 100

  /** The stored run is paused on the approval. */
  predicate WaitsFor(states: map<Id, RunState>, run: Id, approval: Id)
  {
    run in states && states[run].status == PausedForApproval && states[run].approvalID == approval
  }

  /** A hundred other paused runs, all at least as recent as this one. */
  ghost predicate Crowded(states: map<Id, RunState>, run: Id, approval: Id)
    requires run in states
  {
    exists others: seq<RunState> ::
      && |others| == RECENT && OneEach(others)
      && forall st :: st in others ==>
           && st.runID in states && st.runID != run && states[st.runID].status == PausedForApproval
           && states[st.runID].updatedAt >= states[run].updatedAt
  }

  /** The run an approval belongs to: the one its record in the store names, or else the first of the hundred
      most recent paused runs that waits for it. None means that no paused run waits for it, except for runs
      that a hundred others crowd out. */
  method FindRun(center: ApprovalCenter, store: InMemoryRunStateStore, approval: Id) returns (run: Option<Id>)
    requires store.Valid()
    ensures approval in center.approvals && center.approvals[approval].runID != NO_ID ==> run == Some(center.approvals[approval].runID)
    ensures !(approval in center.approvals && center.approvals[approval].runID != NO_ID) ==>
      && (run.Some? ==> WaitsFor(store.states, run.value, approval))
      && (run.None? ==> forall r :: WaitsFor(store.states, r, approval) ==> Crowded(store.states, r, approval))
  {
    var record := center.Get(approval);
    if record.Some? && record.value.runID != NO_ID {
      return Some(record.value.runID);
    }
    var items := store.ListByStatus({PausedForApproval}, RECENT);
    var i := 0;
    while i < |items|
      invariant 0 <= i <= |items|
      invariant forall j :: 0 <= j < i ==> items[j].approvalID != approval
    {
      if items[i].approvalID == approval {
        return Some(items[i].runID);
      }
      i := i + 1;
    }
    run := None;
    forall r | WaitsFor(store.states, r, approval) ensures Crowded(store.states, r, approval) {
      var st := CloneState(store.states[r]);
      assert st !in items;
      assert |items| == RECENT && OneEach(items);
      forall other | other in items
        ensures other.runID in store.states && other.runID != r && store.states[other.runID].status == PausedForApproval
        ensures store.states[other.runID].updatedAt >= store.states[r].updatedAt
      {
        assert other == CloneState(store.states[other.runID]);
      }
    }
  }
}
