/** Several callers resolving one approval of one run at the same time (internal/agent/runtime.go,
    internal/agent/approval.go, internal/tools/router.go): each is a small program whose steps are the
    calls protected by a lock or sent to the store, and the scheduler may interleave them in any way and
    let any write fail, or be kept and yet reported as failed. */
module Interleaving {
  import opened Base
  import opened Json
  import opened Types
  import opened Approvals
  import opened RunStates
  import Machine

  /** ResumeRun with approval, ResumeRun with rejection, CancelRun. */
  datatype Role = Approver | Rejecter | Canceller

  /** The next step of a caller; a caller also remembers the status and the approval id it loaded. */
  datatype Counter =
    | Load                  // read the run's state
    | Fetch                 // look the approval up in the store
    | List                  // not there: look it up in the step log
    | Overwrite(found: Record)  // Hydrate
    | Refetch
    | Peek                  // CancelRun looks before it rejects
    | Resolve               // the compare-and-set
    | RecordVerdict(verdict: Option<Record>)  // save the step that carries the verdict
    | SaveRun               // save the run's state beside it
    | Announce              // transition to approved, rejected or cancelled
    | Begin                 // transition to executing
    | Check                 // ExecuteApproved reads the record
    | Verify                // ... and then its hash
    | Execute
    | Closing               // everything after: further steps, failures, planning
    | Done

  datatype Caller = Caller(role: Role, next: Counter, seen: RunStatus, waits: Id)

  /** What a reader of the whole history could note about this approval. */
  datatype What = Won(approve: bool) | Ran

  datatype Noted = Noted(who: nat, what: What)

  datatype Shared = Shared(
    status: RunStatus,
    waitingFor: Id,
    center: map<Id, Record>,
    log: seq<Record>,
    noted: seq<Noted>)

  datatype System = System(shared: Shared, callers: seq<Caller>)

  /** One choice of the scheduler: who moves, whether its write is kept and whether it is reported as done, and
      what the rest of the run writes once this approval is behind it. */
  datatype Choice = Choice(who: nat, kept: bool, told: bool, status: RunStatus, waitingFor: Id, finished: bool)

  /** The latest record of the approval in the log. */
  function LatestRecord(log: seq<Record>, id: Id): Option<Record>
  {
    if log == [] then None
    else if log[|log| - 1].id == id then Some(log[|log| - 1])
    else LatestRecord(log[..|log| - 1], id)
  }

  function Reason(role: Role): string
  {
    match role case Approver => "" case Rejecter => "rejected from workflow" case Canceller => "run cancelled"
  }

  datatype Moved = Moved(shared: Shared, caller: Caller)

  /** Where a caller goes after a write whose error it looks at. */
  function AfterWrite(c: Caller, choice: Choice, next: Counter): Counter
  {
    if choice.kept && choice.told then next else if c.role == Canceller then Done else Closing
  }

  /** One step of one caller. */
  function Move(rid: Id, id: Id, s: Shared, c: Caller, choice: Choice): Moved
  {
    match c.next
    case Load =>
      var c' := c.(seen := s.status, waits := s.waitingFor);
      if c.role == Canceller then
        if Machine.Terminal(s.status) then Moved(s, c'.(next := Done))
        else Moved(s, c'.(next := if s.waitingFor == id then Peek else RecordVerdict(None)))
      else if s.waitingFor != id || s.status != PausedForApproval then Moved(s, c'.(next := Done))
      else Moved(s, c'.(next := Fetch))
    case Fetch =>
      if id !in s.center then Moved(s, c.(next := List))
      else Moved(s, c.(next := if s.center[id].runID == rid then Resolve else Done))
    case List =>
      match LatestRecord(s.log, id) {
        case None => Moved(s, c.(next := Done))
        case Some(found) => Moved(s, c.(next := Overwrite(found)))
      }
    case Overwrite(found) =>
      Moved(s.(center := s.center[id := CloneRecord(found)]), c.(next := Refetch))
    case Refetch =>
      Moved(s, c.(next := if id in s.center && s.center[id].runID == rid then Resolve else Done))
    case Peek =>
      Moved(s, c.(next := if id in s.center && s.center[id].status == Pending then Resolve else RecordVerdict(None)))
    case Resolve =>
      var approve, reason := c.role == Approver, Reason(c.role);
      var resolved := Resolution(s.center, id, approve, reason);
      if resolved.Some? then
        Moved(s.(center := Settle(s.center, id, approve, reason), noted := s.noted + [Noted(choice.who, Won(approve))]),
              c.(next := RecordVerdict(if c.role == Canceller then None else resolved)))
      else Moved(s, c.(next := if c.role == Canceller then RecordVerdict(None) else Closing))
    case RecordVerdict(verdict) =>
      Moved(if choice.kept && verdict.Some? then s.(log := s.log + [CloneRecord(verdict.value)]) else s,
            c.(next := AfterWrite(c, choice, SaveRun)))
    case SaveRun =>
      Moved(if choice.kept then s.(status := c.seen, waitingFor := c.waits) else s, c.(next := AfterWrite(c, choice, Announce)))
    case Announce =>
      var status := match c.role case Approver => ApprovalApproved case Rejecter => ApprovalRejected case Canceller => Cancelled;
      var s' := if choice.kept then s.(status := status, waitingFor := c.waits) else s;
      Moved(s', c.(next := match c.role case Approver => Begin case Rejecter => Closing case Canceller => Done))
    case Begin =>
      Moved(if choice.kept then s.(status := ToolExecuting, waitingFor := c.waits) else s, c.(next := Check))
    case Check =>
      Moved(s, c.(next := if id in s.center && s.center[id].status == Approved then Verify else Closing))
    case Verify =>
      Moved(s, c.(next := if id in s.center && HashVerifies(s.center[id]) then Execute else Closing))
    case Execute =>
      Moved(s.(noted := s.noted + [Noted(choice.who, Ran)]), c.(next := Closing))
    case Closing =>
      Moved(if choice.kept then s.(status := choice.status, waitingFor := choice.waitingFor) else s,
            c.(next := if choice.finished then Done else Closing))
    case Done => Moved(s, c)
  }

  function Step(rid: Id, id: Id, sys: System, choice: Choice): System
  {
    if choice.who >= |sys.callers| then sys
    else
      var m := Move(rid, id, sys.shared, sys.callers[choice.who], choice);
      System(m.shared, sys.callers[choice.who := m.caller])
  }

  function Run(rid: Id, id: Id, sys: System, schedule: seq<Choice>): System
  {
    if schedule == [] then sys
    else Step(rid, id, Run(rid, id, sys, schedule[..|schedule| - 1]), schedule[|schedule| - 1])
  }

  /** Nobody has started; the approval is in the store, in whatever state. */
  ghost predicate Ready(id: Id, sys: System)
  {
    && id in sys.shared.center && sys.shared.noted == []
    && (forall j :: 0 <= j < |sys.callers| ==> sys.callers[j].next == Load)
  }

  /** An approver between winning the approval and executing it. */
  predicate InWindow(c: Caller)
  {
    c.role == Approver && (c.next.RecordVerdict? || c.next in {SaveRun, Announce, Begin, Check, Verify, Execute})
  }

  /** Only approvers execute, only cancellers peek, and nobody is rebuilding the approval from the log. */
  predicate WellPlaced(c: Caller)
  {
    && !c.next.List? && !c.next.Overwrite? && !c.next.Refetch?
    && (c.next in {Begin, Check, Verify, Execute} ==> c.role == Approver)
    && (c.next == Peek ==> c.role == Canceller)
  }

  /** All that can ever have been noted: nothing, one verdict, or an approval and its one execution, both
      by the same caller. */
  ghost predicate Orderly(noted: seq<Noted>)
  {
    || noted == []
    || (|noted| == 1 && noted[0].what.Won?)
    || (|noted| == 2 && noted[0].what == Won(true) && noted[1] == Noted(noted[0].who, Ran))
  }

  ghost predicate Inv(id: Id, sys: System)
  {
    var s := sys.shared;
    && id in s.center && Orderly(s.noted)
    && (s.noted != [] ==> s.center[id].status == (if s.noted[0].what.approve then Approved else Rejected))
    && (forall j :: 0 <= j < |sys.callers| ==>
          && WellPlaced(sys.callers[j])
          && (InWindow(sys.callers[j]) ==> s.noted == [Noted(j, Won(true))]))
  }

  /** No move but resolving and executing notes anything or changes the approval, and none but resolving
      leads into the window. */
  lemma QuietMove(rid: Id, id: Id, s: Shared, c: Caller, choice: Choice)
    requires id in s.center && WellPlaced(c) && c.next != Resolve && c.next != Execute
    ensures var m := Move(rid, id, s, c, choice);
      && m.shared.noted == s.noted && m.shared.center == s.center
      && WellPlaced(m.caller) && (InWindow(m.caller) ==> InWindow(c))
  {
    hide LatestRecord, HashVerifies;
  }

  lemma ResolveMoves(rid: Id, id: Id, s: Shared, c: Caller, choice: Choice)
    requires id in s.center && Orderly(s.noted) && WellPlaced(c) && c.next == Resolve
    requires s.noted != [] ==> s.center[id].status == (if s.noted[0].what.approve then Approved else Rejected)
    ensures var m, won := Move(rid, id, s, c, choice), Noted(choice.who, Won(c.role == Approver));
      && id in m.shared.center && WellPlaced(m.caller)
      && if s.center[id].status == Pending then
           && s.noted == [] && m.shared.noted == [won]
           && m.shared.center[id].status == (if c.role == Approver then Approved else Rejected)
         else m.shared == s && !InWindow(m.caller)
  {
    hide CloneMap;
  }

  /** What one step can do to the approval. */
  lemma MoveKeeps(rid: Id, id: Id, s: Shared, c: Caller, choice: Choice)
    requires id in s.center && Orderly(s.noted) && WellPlaced(c)
    requires s.noted != [] ==> s.center[id].status == (if s.noted[0].what.approve then Approved else Rejected)
    requires InWindow(c) ==> s.noted == [Noted(choice.who, Won(true))]
    ensures var m := Move(rid, id, s, c, choice);
      && id in m.shared.center && Orderly(m.shared.noted) && WellPlaced(m.caller)
      && (m.shared.noted != [] ==> m.shared.center[id].status == (if m.shared.noted[0].what.approve then Approved else Rejected))
      && (InWindow(m.caller) ==> m.shared.noted == [Noted(choice.who, Won(true))])
      && (m.shared.noted == s.noted || s.noted == [] || InWindow(c))
  {
    match c.next
    case Resolve => ResolveMoves(rid, id, s, c, choice);
    case Execute =>
    case _ => QuietMove(rid, id, s, c, choice);
  }

  lemma StepKeeps(rid: Id, id: Id, sys: System, choice: Choice)
    requires Inv(id, sys)
    ensures Inv(id, Step(rid, id, sys, choice))
  {
    hide CloneMap, HashMap, LatestRecord;
    if choice.who < |sys.callers| {
      var after, s := Step(rid, id, sys, choice), sys.shared;
      var c := sys.callers[choice.who];
      MoveKeeps(rid, id, s, c, choice);
      hide Move;
      forall j | 0 <= j < |after.callers| && InWindow(after.callers[j])
        ensures after.shared.noted == [Noted(j, Won(true))]
      {
        if j != choice.who {
          assert InWindow(sys.callers[j]);
        }
      }
    }
  }

  lemma {:induction false} RunKeeps(rid: Id, id: Id, sys: System, schedule: seq<Choice>)
    requires Inv(id, sys)
    ensures Inv(id, Run(rid, id, sys, schedule))
  {
    hide Inv, Step;
    if schedule != [] {
      RunKeeps(rid, id, sys, schedule[..|schedule| - 1]);
      StepKeeps(rid, id, Run(rid, id, sys, schedule[..|schedule| - 1]), schedule[|schedule| - 1]);
    }
  }

  /** For any number of callers and any interleaving, with any writes failing: at most one resolution
      succeeds, so the approval is never both approved and rejected; the executor runs at most once, only
      for the caller whose approval succeeded; and the store shows the one verdict. */
  lemma AtMostOneVerdict(rid: Id, id: Id, sys: System, schedule: seq<Choice>)
    requires Ready(id, sys)
    ensures var s := Run(rid, id, sys, schedule).shared;
      && Orderly(s.noted) && id in s.center
      && (s.noted != [] ==> s.center[id].status == (if s.noted[0].what.approve then Approved else Rejected))
  {
    hide Run, Orderly;
    assert Orderly([]) by { Nothing(); }
    RunKeeps(rid, id, sys, schedule);
  }

  lemma Nothing() ensures Orderly([]) {}

  // ---------- concurrent hydration ----------

  function Executions(noted: seq<Noted>): nat
  {
    if noted == [] then 0
    else Executions(noted[..|noted| - 1]) + if noted[|noted| - 1].what == Ran then 1 else 0
  }

  ghost predicate AlwaysAtMostOnce(rid: Id, id: Id, sys: System)
  {
    forall schedule :: Executions(Run(rid, id, sys, schedule).shared.noted) <= 1
  }

  /** Two approvers of a paused run, whose log knows the approval as pending. */
  ghost predicate Contested(rid: Id, id: Id, sys: System)
  {
    && sys.shared.status == PausedForApproval && sys.shared.waitingFor == id && sys.shared.noted == []
    && (forall j :: 0 <= j < |sys.callers| ==> sys.callers[j].next == Load)
    && |sys.callers| >= 2 && sys.callers[0].role == Approver && sys.callers[1].role == Approver
    && (id in sys.shared.center ==> sys.shared.center[id].runID == rid)
    && LatestRecord(sys.shared.log, id).Some?
    && var r := LatestRecord(sys.shared.log, id).value;
    && r.runID == rid && r.status == Pending && HashVerifies(r) && CloneRecord(r) == r
  }

  function Go(who: nat): Choice { Choice(who, true, true, Failed, NO_ID, true) }

  /** `n` moves of one caller in a row. */
  function Solo(who: nat, n: nat): seq<Choice>
  {
    if n == 0 then [] else Solo(who, n - 1) + [Go(who)]
  }

  function Straight(rid: Id, id: Id, s: Shared, c: Caller, who: nat, n: nat): Moved
  {
    if n == 0 then Moved(s, c)
    else
      var m := Straight(rid, id, s, c, who, n - 1);
      Move(rid, id, m.shared, m.caller, Go(who))
  }

  lemma {:induction false} SoloRuns(rid: Id, id: Id, sys: System, schedule: seq<Choice>, who: nat, n: nat)
    requires who < |sys.callers|
    ensures |Run(rid, id, sys, schedule).callers| == |sys.callers|
    ensures var before := Run(rid, id, sys, schedule); var m := Straight(rid, id, before.shared, before.callers[who], who, n);
      Run(rid, id, sys, schedule + Solo(who, n)) == System(m.shared, before.callers[who := m.caller])
  {
    Crowd(rid, id, sys, schedule);
    var before := Run(rid, id, sys, schedule);
    hide Move;
    if n == 0 {
      assert schedule + Solo(who, n) == schedule;
      assert before.callers[who := before.callers[who]] == before.callers;
    } else {
      SoloRuns(rid, id, sys, schedule, who, n - 1);
      var longer := schedule + Solo(who, n);
      assert longer[..|longer| - 1] == schedule + Solo(who, n - 1);
      assert longer[|longer| - 1] == Go(who);
    }
  }

  lemma {:induction false} Crowd(rid: Id, id: Id, sys: System, schedule: seq<Choice>)
    ensures |Run(rid, id, sys, schedule).callers| == |sys.callers|
  {
    hide Move;
    if schedule != [] { Crowd(rid, id, sys, schedule[..|schedule| - 1]); }
  }

  /** A caller that misses the approval in the store comes to hold the log's record of it. */
  lemma Misses(rid: Id, id: Id, s: Shared, c: Caller, who: nat)
    requires c.role == Approver && c.next == Load && s.status == PausedForApproval && s.waitingFor == id
    requires id !in s.center && LatestRecord(s.log, id).Some?
    ensures var m := Straight(rid, id, s, c, who, 3);
      m.shared == s && m.caller == Caller(Approver, Overwrite(LatestRecord(s.log, id).value), PausedForApproval, id)
  {
    hide LatestRecord, CloneRecord, HashVerifies;
    assert Straight(rid, id, s, c, who, 1) == Moved(s, Caller(Approver, Fetch, PausedForApproval, id));
    assert Straight(rid, id, s, c, who, 2) == Moved(s, Caller(Approver, List, PausedForApproval, id));
  }

  lemma {:induction false} StraightAdds(rid: Id, id: Id, s: Shared, c: Caller, who: nat, k: nat, n: nat)
    ensures var m := Straight(rid, id, s, c, who, k);
      Straight(rid, id, s, c, who, k + n) == Straight(rid, id, m.shared, m.caller, who, n)
  {
    hide Move;
    if n > 0 { StraightAdds(rid, id, s, c, who, k, n - 1); }
  }

  lemma OneMove(rid: Id, id: Id, s: Shared, c: Caller, who: nat)
    ensures Straight(rid, id, s, c, who, 1) == Move(rid, id, s, c, Go(who))
  {
    hide Move;
    assert Straight(rid, id, s, c, who, 0) == Moved(s, c);
  }

  /** Overwriting, reading back and winning. */
  lemma Wins(rid: Id, id: Id, s: Shared, found: Record, who: nat)
    requires found.id == id && found.runID == rid && found.status == Pending && CloneRecord(found) == found
    ensures var m := Straight(rid, id, s, Caller(Approver, Overwrite(found), PausedForApproval, id), who, 3);
      && m.caller == Caller(Approver, m.caller.next, PausedForApproval, id) && m.caller.next.RecordVerdict? && m.shared.noted == s.noted + [Noted(who, Won(true))]
      && m.shared.center == s.center[id := Resolved(found, true, "")]
  {
    hide LatestRecord, HashVerifies, CloneRecord;
    var c := Caller(Approver, Overwrite(found), PausedForApproval, id);
    var stored := s.(center := s.center[id := found]);
    StraightAdds(rid, id, s, c, who, 1, 2);
    StraightAdds(rid, id, stored, c.(next := Refetch), who, 1, 1);
    OneMove(rid, id, s, c, who);
    OneMove(rid, id, stored, c.(next := Refetch), who);
    OneMove(rid, id, stored, c.(next := Resolve), who);
    assert stored.center[id := Resolved(found, true, "")] == s.center[id := Resolved(found, true, "")];
  }

  /** Recording the verdict. */
  lemma Records(rid: Id, id: Id, s: Shared, verdict: Option<Record>, who: nat)
    ensures var m := Straight(rid, id, s, Caller(Approver, RecordVerdict(verdict), PausedForApproval, id), who, 4);
      m.caller == Caller(Approver, Check, PausedForApproval, id) && m.shared.noted == s.noted && m.shared.center == s.center
  {
    hide LatestRecord, HashVerifies, CloneRecord, Straight;
    var c := Caller(Approver, RecordVerdict(verdict), PausedForApproval, id);
    OneMove(rid, id, s, c, who);
    var m1 := Straight(rid, id, s, c, who, 1);
    OneMove(rid, id, m1.shared, m1.caller, who);
    StraightAdds(rid, id, s, c, who, 1, 1);
    var m2 := Straight(rid, id, s, c, who, 2);
    OneMove(rid, id, m2.shared, m2.caller, who);
    StraightAdds(rid, id, s, c, who, 2, 1);
    var m3 := Straight(rid, id, s, c, who, 3);
    OneMove(rid, id, m3.shared, m3.caller, who);
    StraightAdds(rid, id, s, c, who, 3, 1);
  }

  /** Executing what the store has as approved. */
  lemma Proceeds(rid: Id, id: Id, s: Shared, who: nat)
    requires id in s.center && s.center[id].status == Approved && HashVerifies(s.center[id])
    ensures var m := Straight(rid, id, s, Caller(Approver, Check, PausedForApproval, id), who, 3);
      m.shared == s.(noted := s.noted + [Noted(who, Ran)])
  {
    hide LatestRecord, HashVerifies, CloneRecord, Straight;
    var c := Caller(Approver, Check, PausedForApproval, id);
    OneMove(rid, id, s, c, who);
    StraightAdds(rid, id, s, c, who, 1, 2);
    OneMove(rid, id, s, c.(next := Verify), who);
    StraightAdds(rid, id, s, c.(next := Verify), who, 1, 1);
    OneMove(rid, id, s, c.(next := Execute), who);
  }

  /** From there it overwrites the store, wins the approval and executes it, whatever the store held. */
  lemma Executes(rid: Id, id: Id, s: Shared, found: Record, who: nat)
    requires found.id == id && found.runID == rid && found.status == Pending && HashVerifies(found) && CloneRecord(found) == found
    ensures var m := Straight(rid, id, s, Caller(Approver, Overwrite(found), PausedForApproval, id), who, 10);
      m.shared.noted == s.noted + [Noted(who, Won(true))] + [Noted(who, Ran)]
  {
    var c := Caller(Approver, Overwrite(found), PausedForApproval, id);
    Wins(rid, id, s, found, who);
    hide Move, Straight, CloneRecord, HashMap;
    var m3 := Straight(rid, id, s, c, who, 3);
    Records(rid, id, m3.shared, m3.caller.next.verdict, who);
    StraightAdds(rid, id, s, c, who, 3, 4);
    var m7 := Straight(rid, id, s, c, who, 7);
    Proceeds(rid, id, m7.shared, who);
    StraightAdds(rid, id, s, c, who, 7, 3);
  }

  /** Two moves of the race: a caller moves alone in the middle of a run. */
  lemma Turns(rid: Id, id: Id, sys: System, schedule: seq<Choice>, now: System, who: nat, n: nat, m: Moved)
    requires Run(rid, id, sys, schedule) == now && who < |now.callers|
    requires m == Straight(rid, id, now.shared, now.callers[who], who, n)
    ensures Run(rid, id, sys, schedule + Solo(who, n)) == System(m.shared, now.callers[who := m.caller])
  {
    Crowd(rid, id, sys, schedule);
    SoloRuns(rid, id, sys, schedule, who, n);
  }

  /** Both callers read the log while the approval is pending there; the second one then overwrites what
      the first one approved. */
  lemma Race(rid: Id, id: Id, sys: System)
    requires Contested(rid, id, sys) && id !in sys.shared.center
    ensures !AlwaysAtMostOnce(rid, id, sys)
  {
    hide Move, LatestRecord, HashVerifies, CloneRecord, Straight, Run, Solo;
    var s, found := sys.shared, LatestRecord(sys.shared.log, id).value;
    var ready := Caller(Approver, Overwrite(found), PausedForApproval, id);
    RunsNothing(rid, id, sys);
    LatestIs(s.log, id);
    Misses(rid, id, s, sys.callers[0], 0);
    Turns(rid, id, sys, [], sys, 0, 3, Moved(s, ready));
    var one := System(s, sys.callers[0 := ready]);
    Misses(rid, id, s, sys.callers[1], 1);
    Turns(rid, id, sys, [] + Solo(0, 3), one, 1, 3, Moved(s, ready));
    var two := System(s, one.callers[1 := ready]);
    var m := Straight(rid, id, s, ready, 0, 10);
    Executes(rid, id, s, found, 0);
    Turns(rid, id, sys, [] + Solo(0, 3) + Solo(1, 3), two, 0, 10, m);
    var three := System(m.shared, two.callers[0 := m.caller]);
    var n := Straight(rid, id, m.shared, ready, 1, 10);
    Executes(rid, id, m.shared, found, 1);
    Turns(rid, id, sys, [] + Solo(0, 3) + Solo(1, 3) + Solo(0, 10), three, 1, 10, n);
    TwoExecutions(n.shared.noted);
    assert Executions(Run(rid, id, sys, [] + Solo(0, 3) + Solo(1, 3) + Solo(0, 10) + Solo(1, 10)).shared.noted) == 2;
  }

  lemma LatestIs(log: seq<Record>, id: Id)
    ensures LatestRecord(log, id).Some? ==> LatestRecord(log, id).value.id == id
  {}

  lemma RunsNothing(rid: Id, id: Id, sys: System)
    ensures Run(rid, id, sys, []) == sys
  {}

  lemma ExecutionsAppend(noted: seq<Noted>, n: Noted)
    ensures Executions(noted + [n]) == Executions(noted) + if n.what == Ran then 1 else 0
  {
    assert (noted + [n])[..|noted|] == noted;
  }

  lemma TwoExecutions(noted: seq<Noted>)
    requires noted == [] + [Noted(0, Won(true))] + [Noted(0, Ran)] + [Noted(1, Won(true))] + [Noted(1, Ran)]
    ensures Executions(noted) == 2
  {
    ExecutionsAppend([], Noted(0, Won(true)));
    ExecutionsAppend([] + [Noted(0, Won(true))], Noted(0, Ran));
    ExecutionsAppend([] + [Noted(0, Won(true))] + [Noted(0, Ran)], Noted(1, Won(true)));
    ExecutionsAppend([] + [Noted(0, Won(true))] + [Noted(0, Ran)] + [Noted(1, Won(true))], Noted(1, Ran));
  }

  lemma OrderlyCounts(noted: seq<Noted>)
    requires Orderly(noted)
    ensures Executions(noted) <= 1
  {
    if noted != [] {
      ExecutionsAppend([], noted[0]);
      assert |noted| == 1 ==> noted == [] + [noted[0]];
      assert |noted| == 2 ==> noted == [] + [noted[0]] + [noted[1]];
      if |noted| == 2 { ExecutionsAppend([] + [noted[0]], noted[1]); }
    }
  }

  /** Two approvers of one paused run can never execute it twice if and only if the approval is in the
      store when they start, so that nobody has to rebuild it from the log. */
  lemma AtMostOnceExactly(rid: Id, id: Id, sys: System)
    requires Contested(rid, id, sys)
    ensures AlwaysAtMostOnce(rid, id, sys) <==> id in sys.shared.center
  {
    if id in sys.shared.center {
      forall schedule ensures Executions(Run(rid, id, sys, schedule).shared.noted) <= 1 {
        AtMostOneVerdict(rid, id, sys, schedule);
        OrderlyCounts(Run(rid, id, sys, schedule).shared.noted);
      }
    } else {
      Race(rid, id, sys);
    }
  }
}
