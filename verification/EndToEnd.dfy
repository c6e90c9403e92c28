/** The whole chain at once: what this program's inferrer and policy let a session execute without an
    approval, under any configuration, with any crashes and lost writes
    (internal/agent/effect_inference.go, internal/agent/policy.go, internal/tools/router.go). */
module EndToEnd {
  import opened Base
  import opened Json
  import opened Types
  import opened Policy
  import opened Machine
  import opened EffectInference
  import InferencePolicy
  import EventLog
  import Routing

  /** The router consults this program's inferrer, each time with the skills and servers registered then. */
  ghost predicate Infers(env: Env, sites: nat -> Site)
  {
    forall n: nat, p: Proposal :: env.infer(n, p) == Infer(sites(n), p)
  }

  /** The executed call, as it was proposed. */
  ghost predicate Proposes(p: Proposal, act: Act)
  {
    act == Executed(p.id, p.tool, CloneMap(p.input), NO_ID)
  }

  /** Whatever runs without an approval is a proposal for which the inferrer saw no need for one, nothing
      sensitive and no unknown effect, with the confidence the profile in force asks for; and that profile
      executes automatically and neither denies nor asks for any of its effects. */
  lemma FreeRunsAreClear(env: Env, sites: nat -> Site, setup: Setup, calls: seq<Call>, act: Act)
    requires Fresh(setup) && Infers(env, sites)
    requires act in Session(env, setup, calls).trace && act.Executed? && act.approval == NO_ID
    ensures exists n, p ::
      && Proposes(p, act) && Infer(sites(n), p).Some?
      && var r, profile := Infer(sites(n), p).value, ResolveProfile(env.policy, p);
      && !r.approvalRequired && !r.sensitive && r.confidence >= Threshold(env.policy, profile)
      && profile.autoExecuteReadonly && UNKNOWN_EFFECT !in r.effects && forall e :: e in r.effects ==> Clean(profile, e)
  {
    hide Session, Infer, ResolveProfile, Judge, Clean, CloneMap;
    EventLog.EveryFreeRunIsDecided(env, setup, calls, act);
    var n: nat, p: Proposal :|
      && act == Executed(p.id, p.tool, CloneMap(p.input), NO_ID) && env.infer(n, p).Some?
      && AutoExecutes(Decide(env.policy, p, env.infer(n, p).value));
    var r, profile := Infer(sites(n), p).value, ResolveProfile(env.policy, p);
    assert env.infer(n, p) == Infer(sites(n), p);
    AutoExecutesExactly(profile, Threshold(env.policy, profile), r);
    UnknownIsNotClean(profile);
    assert Proposes(p, act);
  }

  lemma UnknownIsNotClean(profile: Profile)
    ensures !Clean(profile, UNKNOWN_EFFECT)
  {
    hide AnyMatches, EffectNeedsApproval;
  }

  /** No shell command ever runs without an approval: in every session, under every policy and every profile
      a proposal may name. */
  lemma ShellNeverRunsFree(env: Env, sites: nat -> Site, setup: Setup, calls: seq<Call>, act: Act)
    requires Fresh(setup) && Infers(env, sites)
    requires act in Session(env, setup, calls).trace && act.Executed? && act.tool == "shell.exec"
    ensures act.approval != NO_ID
  {
    hide Session, Infer, ResolveProfile, Clean, CloneMap;
    if act.approval == NO_ID {
      FreeRunsAreClear(env, sites, setup, calls, act);
      var n, p :| Proposes(p, act) && Infer(sites(n), p).Some? && !Infer(sites(n), p).value.approvalRequired;
      InferencePolicy.ShellAsks(sites(n), p);
    }
  }

  /** Apart from the two tools that run what others registered, whatever runs without an approval only
      reads: every effect inferred for it is in the vocabulary of reading calls. */
  lemma FreeRunsOnlyRead(env: Env, sites: nat -> Site, setup: Setup, calls: seq<Call>, act: Act)
    requires Fresh(setup) && Infers(env, sites)
    requires act in Session(env, setup, calls).trace && act.Executed? && act.approval == NO_ID
    requires act.tool != "mcp.call_tool" && act.tool != "skill.run"
    ensures exists n, p ::
      && Proposes(p, act) && Infer(sites(n), p).Some? && !Infer(sites(n), p).value.sensitive
      && forall e :: e in Infer(sites(n), p).value.effects ==> e in READING
  {
    hide Session, Infer, ResolveProfile, Clean, CloneMap, READING;
    if act.tool == "shell.exec" {
      ShellNeverRunsFree(env, sites, setup, calls, act);
    }
    FreeRunsAreClear(env, sites, setup, calls, act);
    var n, p :|
      && Proposes(p, act) && Infer(sites(n), p).Some?
      && !Infer(sites(n), p).value.approvalRequired && !Infer(sites(n), p).value.sensitive;
    InferencePolicy.InferredAsksOrReads(sites(n), p);
  }

  /** With this program's inferrer and its own profiles, a proposal for any tool but those two reaches the
      executor, once, exactly when inference asks for no approval, the profile in force is not the strict one,
      the tool exists and the process lives that long. */
  lemma RouterRunsAsInferred(env: Env, sites: nat -> Site, cfg: PolicyConfig, w: World, rid: Id, p: Proposal)
    requires Infers(env, sites) && env.policy == Normalized(cfg) && |cfg.profiles| == 0
    requires p.tool != "mcp.call_tool" && p.tool != "skill.run"
    ensures Infer(sites(w.clock + 1), p).Some?
    ensures Routing.Ran(w, Propose(env, w, rid, p).w)
         == if !Infer(sites(w.clock + 1), p).value.approvalRequired && InferencePolicy.ChosenName(cfg, p) != "strict"
               && env.registered(p.tool) && Routing.Lives(env, w, 6) then 1 else 0
  {
    hide Infer, Decide, Normalized, Propose, Routing.Ran, InferencePolicy.ChosenName;
    var site := sites(w.clock + 1);
    assert env.infer(w.clock + 1, p) == Infer(site, p);
    Routing.ProposeReaches(env, w, rid, p);
    InferencePolicy.DecidesAsInferred(cfg, site, p);
  }
}
