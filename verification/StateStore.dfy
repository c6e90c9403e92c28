/** The two run-state stores (internal/agent/workflow_state.go): the in-memory one, and the durable one with
    its redacted records. */
module StateStore {
  import opened Base
  import opened Json
  import opened Types
  import opened RunStates

  function CloneState(st: RunState): RunState
  {
    st.(proposal := if st.proposal.Some? then Some(CloneProposal(st.proposal.value)) else None,
        toolResult := if st.toolResult.Some? then Some(CloneResult(st.toolResult.value)) else None)
  }

  function CloneStep(s: Step): Step
  {
    s.(proposal := if s.proposal.Some? then Some(CloneProposal(s.proposal.value)) else None,
       approval := if s.approval.Some? then Some(CloneRecord(s.approval.value)) else None,
       result := if s.result.Some? then Some(CloneResult(s.result.value)) else None)
  }

  // ---------- most recent first ----------

  predicate RecentFirst(items: seq<RunState>)
  {
    forall i, j :: 0 <= i < j < |items| ==> items[i].updatedAt >= items[j].updatedAt
  }

  function InsertRecent(items: seq<RunState>, st: RunState): seq<RunState>
  {
    if items == [] || items[|items| - 1].updatedAt >= st.updatedAt then items + [st]
    else InsertRecent(items[..|items| - 1], st) + [items[|items| - 1]]
  }

  lemma InsertRecentKeeps(items: seq<RunState>, st: RunState)
    ensures forall x :: x in InsertRecent(items, st) <==> x in items || x == st
    ensures |InsertRecent(items, st)| == |items| + 1
    ensures RecentFirst(items) ==> RecentFirst(InsertRecent(items, st))
  {
    if items != [] && items[|items| - 1].updatedAt < st.updatedAt {
      var front, last := items[..|items| - 1], items[|items| - 1];
      InsertRecentKeeps(front, st);
      assert items == front + [last];
      var inserted := InsertRecent(front, st);
      if RecentFirst(items) {
        forall i | 0 <= i < |inserted| ensures inserted[i].updatedAt >= last.updatedAt {
          assert inserted[i] in inserted;
        }
      }
    }
  }

  /** No run is listed twice. */
  predicate OneEach(items: seq<RunState>)
  {
    forall i, j :: 0 <= i < j < |items| ==> items[i].runID != items[j].runID
  }

  lemma InsertRecentOneEach(items: seq<RunState>, st: RunState)
    requires OneEach(items) && forall x :: x in items ==> x.runID != st.runID
    ensures OneEach(InsertRecent(items, st))
  {
    if items != [] && items[|items| - 1].updatedAt < st.updatedAt {
      var front, last := items[..|items| - 1], items[|items| - 1];
      InsertRecentOneEach(front, st);
      InsertRecentKeeps(front, st);
      var inserted := InsertRecent(front, st);
      forall i | 0 <= i < |inserted| ensures inserted[i].runID != last.runID {
        assert inserted[i] in inserted;
      }
    }
  }

  /** The state matches; an empty list of statuses asks for all. */
  predicate Wanted(statuses: set<RunStatus>, st: RunState) { statuses == {} || st.status in statuses }

  class InMemoryRunStateStore {
    var states: map<Id, RunState>
    var steps: map<Id, seq<Step>>

    constructor ()
      ensures states == map[] && steps == map[]
    {
      states := map[];
      steps := map[];
    }

    /** Every state is filed under its own run, and every log is a listing of some map from ids to steps. */
    ghost predicate Valid()
      reads this
    {
      && (forall id :: id in states ==> states[id].runID == id)
      && (forall id :: id in steps ==> SortedByIndex(steps[id]) && UniqueIds(steps[id]))
    }

    method Save(state: RunState)
      requires Valid()
      modifies this
      ensures Valid() && states == old(states)[state.runID := CloneState(state)] && steps == old(steps)
    {
      states := states[state.runID := CloneState(state)];
    }

    method Get(id: Id) returns (found: Option<RunState>)
      ensures found == if id in states then Some(CloneState(states[id])) else None
    {
      if id !in states {
        return None;
      }
      found := Some(CloneState(states[id]));
    }

    /** The `limit` most recently updated matching states, newest first; a limit of 0 asks for all. */
    method ListByStatus(statuses: set<RunStatus>, limit: nat) returns (items: seq<RunState>)
      requires Valid()
      ensures RecentFirst(items) && OneEach(items)
      ensures forall st :: st in items ==> st.runID in states && st == CloneState(states[st.runID]) && Wanted(statuses, st)
      ensures limit > 0 ==> |items| <= limit
      ensures forall id :: id in states && Wanted(statuses, states[id]) && CloneState(states[id]) !in items ==>
                limit > 0 && |items| == limit && forall st :: st in items ==> st.updatedAt >= states[id].updatedAt
    {
      items := Collect(statuses);
      if limit > 0 && |items| > limit {
        ghost var all := items;
        items := items[..limit];
        forall id | id in states && Wanted(statuses, states[id]) && CloneState(states[id]) !in items
          ensures forall st :: st in items ==> st.updatedAt >= states[id].updatedAt
        {
          assert CloneState(states[id]) in all;
        }
      }
    }

    /** The loop over the map, in whatever order it yields, and the sort. */
    method Collect(statuses: set<RunStatus>) returns (items: seq<RunState>)
      requires Valid()
      ensures RecentFirst(items) && OneEach(items)
      ensures forall st :: st in items <==> st.runID in states && st == CloneState(states[st.runID]) && Wanted(statuses, st)
    {
      items := [];
      var ids := states.Keys;
      while ids != {}
        invariant ids <= states.Keys
        invariant RecentFirst(items) && OneEach(items)
        invariant forall st :: st in items <==> st.runID in states.Keys - ids && st == CloneState(states[st.runID]) && Wanted(statuses, st)
        decreases |ids|
      {
        var id :| id in ids;
        ids := ids - {id};
        var st := CloneState(states[id]);
        if Wanted(statuses, st) {
          InsertRecentKeeps(items, st);
          InsertRecentOneEach(items, st);
          items := InsertRecent(items, st);
        }
      }
    }

    /** Upsert by id, then sort: the log goes on representing the map from ids to steps. */
    method SaveStep(step: Step)
      requires Valid()
      modifies this
      ensures Valid() && states == old(states)
      ensures var log := if step.runID in old(steps) then old(steps)[step.runID] else [];
        && steps == old(steps)[step.runID := Upsert(log, CloneStep(step))]
        && forall m :: Represents(log, m) ==> Represents(steps[step.runID], m[step.stepID := CloneStep(step)])
    {
      var log := if step.runID in steps then steps[step.runID] else [];
      var items := Replace(log, CloneStep(step));
      items := SortByIndex(items);
      steps := steps[step.runID := items];
      SortedUpsert(log, CloneStep(step));
      forall m | Represents(log, m) ensures Represents(items, m[step.stepID := CloneStep(step)]) {
        UpsertRefinesMap(log, CloneStep(step), m);
      }
    }

    /** The loop that overwrites the step with the same id, or appends. */
    method Replace(log: seq<Step>, step: Step) returns (items: seq<Step>)
      ensures items == Put(log, step)
    {
      items := log;
      var replaced := false;
      var i := 0;
      while i < |items|
        invariant 0 <= i <= |items| && items == log
        invariant Put(log, step) == log[..i] + Put(log[i..], step)
      {
        if items[i].stepID == step.stepID {
          items := items[i := step];
          assert log[i..][1..] == log[i + 1..];
          assert items == log[..i] + ([step] + log[i + 1..]);
          replaced := true;
          break;
        }
        assert log[i..][1..] == log[i + 1..];
        assert log[..i + 1] == log[..i] + [log[i]];
        i := i + 1;
      }
      if !replaced {
        assert log[|log|..] == [];
        items := items + [step];
      }
    }

    method ListSteps(id: Id) returns (items: seq<Step>)
      requires Valid()
      ensures var log := if id in steps then steps[id] else [];
        |items| == |log| && SortedByIndex(items) && forall i :: 0 <= i < |log| ==> items[i] == CloneStep(log[i])
    {
      var log := if id in steps then steps[id] else [];
      items := [];
      var i := 0;
      while i < |log|
        invariant 0 <= i <= |log| && |items| == i
        invariant forall j :: 0 <= j < i ==> items[j] == CloneStep(log[j])
      {
        items := items + [CloneStep(log[i])];
        i := i + 1;
      }
      SortOfSorted(items);
      items := SortByIndex(items);
    }
  }

  lemma SortedUpsert(log: seq<Step>, step: Step)
    requires UniqueIds(log)
    ensures SortedByIndex(Upsert(log, step)) && UniqueIds(Upsert(log, step))
  {
    hide Put, SortByIndex, UniqueIds, SortedByIndex;
    PutUnique(log, step);
    SortUnique(Put(log, step));
    SortSorts(Put(log, step));
  }

  // ---------- the durable store ----------

  /** The JSON half of a run record: what of the sanitized state is not in a column of its own. */
  datatype Snapshot = Snapshot(context: seq<string>, proposal: Option<Proposal>, result: Option<ToolResult>)

  datatype RunRecord = RunRecord(
    runID: Id, status: RunStatus, currentStep: StepKind, stepIndex: nat, stepCount: nat, maxSteps: nat,
    userMessage: string, approvalID: Id, error: Cause, updatedAt: nat, json: Option<Snapshot>)

  /** A part of a record in its encoded form; one that JSON refuses is stored as an empty map. */
  function Encoded(p: Proposal): Option<Proposal>
  {
    if Marshalable(p.input) then Some(p.(input := Canon(p.input))) else None
  }

  function EncodedResult(r: ToolResult): Option<ToolResult>
  {
    if Marshalable(r.output) then Some(r.(output := Canon(r.output))) else None
  }

  /** toRunRecord */
  function ToRunRecord(red: Redactor, st: RunState): RunRecord
  {
    var proposal := if st.proposal.Some? then Some(RedactProposal(red, st.proposal.value)) else None;
    var result := if st.toolResult.Some? then Some(RedactResult(red, st.toolResult.value)) else None;
    var encodes := (proposal.Some? ==> Encoded(proposal.value).Some?) && (result.Some? ==> EncodedResult(result.value).Some?);
    RunRecord(st.runID, st.status, st.currentStep, st.stepIndex, st.stepCount, st.maxSteps,
              red.text(st.userMessage), st.approvalID, RedactCause(red, st.error), st.updatedAt,
              if !encodes then None
              else Some(Snapshot(seq(|st.context|, k requires 0 <= k < |st.context| => red.text(st.context[k])),
                                 if proposal.Some? then Encoded(proposal.value) else None,
                                 if result.Some? then EncodedResult(result.value) else None)))
  }

  /** runStateFromRecord: the columns override whatever the snapshot says. */
  function FromRunRecord(r: RunRecord): RunState
  {
    var s := if r.json.Some? then r.json.value else Snapshot([], None, None);
    RunState(r.runID, r.status, r.currentStep, r.stepIndex, r.stepCount, r.maxSteps, r.userMessage, s.context, s.proposal,
             r.approvalID, s.result, r.error, r.updatedAt)
  }

  /** The round trip through a record is the durable form of the state. */
  lemma RunRecordRoundTrip(red: Redactor, st: RunState)
    ensures FromRunRecord(ToRunRecord(red, st)) == StoredState(red, st)
  {}

  /** A second round trip changes nothing further, provided redaction is done with its own output and JSON
      accepts what it yields. */
  lemma RoundTripSettles(red: Redactor, st: RunState)
    requires forall t :: red.text(red.text(t)) == red.text(t)
    requires forall m: GoMap :: Marshalable(red.input(m)) && red.input(m).Obj? && red.input(Canon(red.input(m))) == Canon(red.input(m))
    ensures StoredState(red, StoredState(red, st)) == StoredState(red, st)
  {
    var once := StoredState(red, st);
    if st.proposal.Some? { InputSettles(red, CloneMap(st.proposal.value.input)); }
    if st.toolResult.Some? { InputSettles(red, CloneMap(st.toolResult.value.output)); }
    assert StoredState(red, once).context == once.context;
  }

  lemma InputSettles(red: Redactor, m: GoMap)
    requires Marshalable(red.input(m)) && red.input(m).Obj? && red.input(Canon(red.input(m))) == Canon(red.input(m))
    ensures var c := Canon(red.input(m)); Marshalable(c) && Canon(c) == c && CloneMap(c) == c
  {
    CanonIsCanonical(red.input(m));
    CanonicalIsFixed(Canon(red.input(m)));
  }

  /** The repositories behind the durable store: a map of run records and, per run, a list of step records in
      ascending index order. A step record reads back as the stored form of the step. */
  class PersistentRunStateStore {
    const red: Redactor
    var runs: map<Id, RunRecord>
    var logs: map<Id, seq<Step>>

    constructor (redactor: Redactor)
      ensures red == redactor && runs == map[] && logs == map[]
    {
      red := redactor;
      runs := map[];
      logs := map[];
    }

    /** What Get and ListSteps give back. */
    function RunOf(id: Id): Option<RunState>
      reads this
    {
      if id in runs then Some(FromRunRecord(runs[id])) else None
    }

    function LogOf(id: Id): seq<Step>
      reads this
    {
      if id in logs then logs[id] else []
    }

    method Save(state: RunState)
      modifies this
      ensures RunOf(state.runID) == Some(StoredState(red, state))
      ensures logs == old(logs) && forall id :: id != state.runID ==> RunOf(id) == old(RunOf(id))
    {
      runs := runs[state.runID := ToRunRecord(red, state)];
      RunRecordRoundTrip(red, state);
    }

    method Get(id: Id) returns (found: Option<RunState>)
      ensures found == RunOf(id)
    {
      if id !in runs {
        return None;
      }
      found := Some(FromRunRecord(runs[id]));
    }

    method SaveStep(step: Step)
      modifies this
      ensures LogOf(step.runID) == Upsert(old(LogOf(step.runID)), StoredStep(red, step))
      ensures runs == old(runs) && forall id :: id != step.runID ==> LogOf(id) == old(LogOf(id))
    {
      logs := logs[step.runID := Upsert(LogOf(step.runID), StoredStep(red, step))];
    }

    method ListSteps(id: Id) returns (items: seq<Step>)
      ensures items == LogOf(id)
    {
      items := LogOf(id);
    }
  }
}
