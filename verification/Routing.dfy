/** When a router call reaches the executor (internal/tools/router.go). */
module Routing {
  import opened Base
  import opened Json
  import opened Types
  import opened Approvals
  import opened Policy
  import opened Machine
  import opened History
  import opened Projections

  /** The calls to the executor between two worlds. */
  function Ran(before: World, after: World): int
  {
    ExecutorCalls(after.trace) - ExecutorCalls(before.trace)
  }

  lemma RanAppend(w: World, act: Act)
    ensures Ran(w, Note(w, act)) == if !w.dead && act.Executed? then 1 else 0
  {
    AppendUnfolds(w.trace, act);
  }

  /** Writing to the run log, or failing to, runs nothing. */
  lemma LogRan(env: Env, w: World, e: Event)
    ensures Ran(w, Log(env, w, e)) == 0
    ensures Log(env, w, e).dead == (w.dead || env.crash(w.clock)) && Log(env, w, e).clock == w.clock + if w.dead then 0 else 1
    ensures Log(env, w, e).approvals == w.approvals
  {
    RanAppend(Tick(env, w), Written(env, w.clock, e));
  }

  /** The process lives through the next `n` effects. */
  predicate Lives(env: Env, w: World, n: nat)
  {
    !w.dead && forall k :: w.clock <= k < w.clock + n ==> !env.crash(k)
  }

  /** The executor is reached exactly when the tool exists and the process survives until then. */
  lemma ExecuteReaches(env: Env, w: World, p: Proposal, id: Id)
    ensures Ran(w, Execute(env, w, p, id).w) == if env.registered(p.tool) && Lives(env, w, 2) then 1 else 0
  {
    hide ExecutorCalls, CloneMap, Ran, Log;
    RanAdds(w, w, w);
    if env.registered(p.tool) {
      LogRan(env, w, OfTool(EventToolStarted, p));
      var started := Log(env, w, OfTool(EventToolStarted, p));
      var t := Tick(env, started);
      RanSame(w, t, started);
      if !t.dead {
        var act := Executed(p.id, p.tool, CloneMap(p.input), id);
        RanAppend(t, act);
        var ran := Note(t, act);
        LogRan(env, ran, OfTool(EventToolOutput, p));
        var outcome := env.execute(started.clock, p.tool, CloneMap(p.input));
        var shown := if outcome.result.Some? then Log(env, ran, OfTool(EventToolOutput, p)) else ran;
        LogRan(env, shown, OfTool(if outcome.failed then EventToolFailed else EventToolCompleted, p));
        RanAdds(w, t, ran);
        RanAdds(ran, ran, ran);
        RanAdds(w, ran, shown);
        RanAdds(w, shown, Execute(env, w, p, id).w);
      }
    }
  }

  lemma RanAdds(a: World, b: World, c: World)
    ensures Ran(a, c) == Ran(a, b) + Ran(b, c)
    ensures b.trace == a.trace ==> Ran(a, b) == 0
  {}

  lemma RanSame(a: World, b: World, c: World)
    requires b.trace == c.trace
    ensures Ran(a, b) == Ran(a, c) && (a == c ==> Ran(a, b) == 0)
  {}

  /** An approval or a denial reaches nobody; otherwise the tool runs. */
  lemma DispatchReaches(env: Env, w: World, rid: Id, p: Proposal, inference: Inference, d: Decision)
    ensures Ran(w, Dispatch(env, w, rid, p, inference, d).w) == if AutoExecutes(d) && env.registered(p.tool) && Lives(env, w, 2) then 1 else 0
  {
    hide ExecutorCalls, CloneMap, Ran, Draft, Execute, Log;
    if d.requiresApproval {
      var (created, record) := CreateApproval(env, w, rid, p, inference, d);
      var draft := Draft(w.clock, rid, p, inference, d);
      var t := Tick(env, w);
      if !t.dead && draft.Some? {
        var filed := t.(approvals := t.approvals[w.clock := draft.value]);
        RanSame(w, filed, w);
        RanAppend(filed, Created(CloneRecord(draft.value)));
        RanAdds(w, filed, created);
        LogRan(env, created, OfApproval(EventApprovalRequested, record.value.id));
        RanAdds(w, created, Log(env, created, OfApproval(EventApprovalRequested, record.value.id)));
      }
      RanAdds(w, t, t);
    } else if !d.allowed {
      LogRan(env, w, OfTool(EventPolicyDenied, p).(decision := Some(d)));
    } else {
      ExecuteReaches(env, w, p, NO_ID);
    }
  }

  /** What the policy says about this call on the inferrer's answer at one tick, if there is one. */
  function DecisionAt(env: Env, now: nat, p: Proposal): Option<Decision>
  {
    if env.infer(now, p).None? then None else Some(Decide(env.policy, p, env.infer(now, p).value))
  }

  /** A proposal reaches the executor, once, exactly when the tool exists, the inferrer answers, the policy lets
      the call run, and the process lives through the six effects until then. */
  lemma ProposeReaches(env: Env, w: World, rid: Id, p: Proposal)
    ensures var d := DecisionAt(env, w.clock + 1, p);
      Ran(w, Propose(env, w, rid, p).w) == if d.Some? && AutoExecutes(d.value) && env.registered(p.tool) && Lives(env, w, 6) then 1 else 0
  {
    hide ExecutorCalls, CloneMap, Ran, Decide, Dispatch, Log;
    var first := OfTool(EventToolProposed, p).(input := CloneMap(p.input));
    LogRan(env, w, first);
    var proposed := Log(env, w, first);
    var t := Tick(env, proposed);
    RanSame(w, t, proposed);
    var inferred := env.infer(proposed.clock, p);
    if !t.dead && inferred.Some? {
      var d := Decide(env.policy, p, inferred.value);
      LogRan(env, t, OfTool(EventEffectInferred, p));
      var told := Log(env, t, OfTool(EventEffectInferred, p));
      RanAdds(w, t, told);
      RanAppend(told, DecidedOn(p, d));
      var answered := Note(told, DecidedOn(p, d));
      RanAdds(w, told, answered);
      var e := OfTool(EventPolicyDecided, p).(decision := Some(d));
      LogRan(env, answered, e);
      var decided := Log(env, answered, e);
      RanAdds(w, answered, decided);
      DispatchReaches(env, decided, rid, p, inferred.value, d);
      RanAdds(w, decided, Propose(env, w, rid, p).w);
    }
  }

  lemma ReadOnlyReaches(env: Env, w: World, p: Proposal)
    ensures var d := DecisionAt(env, w.clock, p);
      Ran(w, ExecuteReadOnly(env, w, p).w) == if d.Some? && !d.value.requiresApproval && env.registered(p.tool) && Lives(env, w, 3) then 1 else 0
  {
    hide ExecutorCalls, CloneMap, Ran, Decide, Execute;
    var t := Tick(env, w);
    RanSame(w, t, w);
    RanAdds(w, w, t);
    var inferred := env.infer(w.clock, p);
    if !t.dead && inferred.Some? {
      var act := DecidedOn(p, Decide(env.policy, p, inferred.value));
      RanAppend(t, act);
      var decided := Note(t, act);
      RanAdds(w, t, decided);
      ExecuteReaches(env, decided, p, NO_ID);
      RanAdds(w, decided, Execute(env, decided, p, NO_ID).w);
    }
  }

  /** ExecuteReadOnly never reads whether the decision allows anything. Two calls of the same proposal, one by
      each entry point, wherever and whenever, of which the inferrer says the same and which the process both
      survives or neither: they agree about executing exactly when the decision is not a denial of a call that
      was within reach. */
  lemma ReadOnlyAgreesExactly(env: Env, w: World, v: World, rid: Id, p: Proposal)
    requires env.infer(v.clock, p) == env.infer(w.clock + 1, p) && Lives(env, v, 3) == Lives(env, w, 6)
    ensures var d := DecisionAt(env, v.clock, p);
      Ran(v, ExecuteReadOnly(env, v, p).w) == Ran(w, Propose(env, w, rid, p).w)
      <==> !(d.Some? && !d.value.allowed && !d.value.requiresApproval && env.registered(p.tool) && Lives(env, v, 3))
  {
    hide Decide, Propose, ExecuteReadOnly, Ran, Lives;
    ProposeReaches(env, w, rid, p);
    ReadOnlyReaches(env, v, p);
  }

  /** An approved snapshot runs exactly when the store has the approval as approved, its hash verifies and
      the tool exists; and only the stored snapshot runs. */
  lemma ExecuteApprovedReaches(env: Env, w: World, id: Id)
    ensures Ran(w, ExecuteApproved(env, w, id).w)
         == if id in w.approvals && w.approvals[id].status == Approved && HashVerifies(w.approvals[id])
               && env.registered(w.approvals[id].proposal.tool) && Lives(env, w, 2) then 1 else 0
  {
    hide ExecutorCalls, CloneMap, Ran, Execute, HashMap;
    if !w.dead && id in w.approvals {
      var record := CloneRecord(w.approvals[id]);
      ExecuteReaches(env, w, record.proposal.(input := CloneMap(record.snapshot)), id);
    }
    RanAdds(w, w, w);
  }
}
