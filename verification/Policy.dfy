/** The policy engine: from inferred effects to execute, ask or deny (internal/agent/policy.go), and the
    built-in profiles it reads (internal/config/config.go). */
module Policy {
  import opened Base
  import opened Json
  import opened Types

  datatype Profile = Profile(
    name: string,
    autoExecuteReadonly: bool,
    requireApprovalFor: seq<string>,
    denyEffects: seq<string>,
    minConfidence: real)

  datatype PolicyConfig = PolicyConfig(
    minConfidence: real,
    activeProfile: string,
    profiles: map<string, Profile>)

  const UNKNOWN_EFFECT := "unknown.effect"
  const FALLBACK_CONFIDENCE := 0.85

  const DEFAULT_PROFILE := Profile("default", true,
    ["sensitive_read", "fs.write", "code.modify", "git.write", "service.restart", "process.kill",
     "network.post", "network.put", "network.patch", "network.delete", "unknown.effect"], [], 0.75)
  const STRICT_PROFILE := Profile("strict", false, ["*"], [], 0.95)
  const DEVELOPER_PROFILE := Profile("developer", true,
    ["sensitive_read", "fs.write", "code.modify", "git.write", "package.install", "unknown.effect"], [], 0.75)
  const OPS_PROFILE := Profile("ops", true,
    ["service.restart", "service.stop", "process.kill", "deployment.apply", "k8s.apply", "k8s.delete",
     "docker.restart", "fs.write", "network.write", "unknown.effect"], [], 0.8)
  const OFFLINE_PROFILE := Profile("offline", true,
    ["sensitive_read", "fs.write", "code.modify", "git.write", "unknown.effect"],
    ["network.post", "network.put", "network.patch", "network.delete", "webhook.call", "email.send", "mcp.remote.call"],
    0.8)

  function DefaultPolicyProfiles(): (profiles: map<string, Profile>)
    ensures |profiles| > 0
  {
    var profiles := map[
      "default" := DEFAULT_PROFILE,
      "strict" := STRICT_PROFILE,
      "developer" := DEVELOPER_PROFILE,
      "ops" := OPS_PROFILE,
      "offline" := OFFLINE_PROFILE];
    assert "default" in profiles;
    profiles
  }

  // ---------- normalizing a configuration ----------

  function FillProfile(name: string, profile: Profile, fallback: real): Profile
  {
    var named := if profile.name == "" then profile.(name := name) else profile;
    if named.minConfidence <= 0.0 then named.(minConfidence := fallback) else named
  }

  function FillAll(profiles: map<string, Profile>, fallback: real): map<string, Profile>
  {
    map name | name in profiles :: FillProfile(name, profiles[name], fallback)
  }

  function Normalized(cfg: PolicyConfig): PolicyConfig
  {
    var fallback := if cfg.minConfidence <= 0.0 then FALLBACK_CONFIDENCE else cfg.minConfidence;
    var active := if cfg.activeProfile == "" then "default" else cfg.activeProfile;
    PolicyConfig(fallback, active, FillAll(if |cfg.profiles| == 0 then DefaultPolicyProfiles() else cfg.profiles, fallback))
  }

  method NormalizePolicy(cfg: PolicyConfig) returns (policy: PolicyConfig)
    ensures policy == Normalized(cfg)
  {
    policy := cfg;
    if policy.minConfidence <= 0.0 {
      policy := policy.(minConfidence := FALLBACK_CONFIDENCE);
    }
    if policy.activeProfile == "" {
      policy := policy.(activeProfile := "default");
    }
    if |policy.profiles| == 0 {
      policy := policy.(profiles := DefaultPolicyProfiles());
    }
    var filled := FillProfiles(policy.profiles, policy.minConfidence);
    policy := policy.(profiles := filled);
  }

  /** The loop writes each filled profile back under its own name, in whatever order the map yields. */
  method FillProfiles(initial: map<string, Profile>, fallback: real) returns (profiles: map<string, Profile>)
    ensures profiles == FillAll(initial, fallback)
  {
    profiles := initial;
    var names := initial.Keys;
    while names != {}
      invariant names <= initial.Keys == profiles.Keys
      invariant forall name :: name in initial ==>
        profiles[name] == if name in names then initial[name] else FillProfile(name, initial[name], fallback)
      decreases |names|
    {
      var name :| name in names;
      names := names - {name};
      var profile := profiles[name];
      if profile.name == "" {
        profile := profile.(name := name);
      }
      if profile.minConfidence <= 0.0 {
        profile := profile.(minConfidence := fallback);
      }
      profiles := profiles[name := profile];
    }
  }

  /** Normalizing is idempotent, and afterwards every profile has a positive threshold and, unless it is stored
      under the empty key, a name, so the engine's own fallbacks for a missing threshold or name do not apply. */
  lemma NormalizedIsFixed(cfg: PolicyConfig)
    ensures Normalized(Normalized(cfg)) == Normalized(cfg)
    ensures var n := Normalized(cfg);
      && |n.profiles| > 0 && n.minConfidence > 0.0
      && (forall name :: name in n.profiles ==>
            n.profiles[name].minConfidence > 0.0 && (name != "" ==> n.profiles[name].name != ""))
  {
    var source := if |cfg.profiles| == 0 then DefaultPolicyProfiles() else cfg.profiles;
    FilledIsFixed(source, Normalized(cfg).minConfidence);
  }

  lemma FilledIsFixed(source: map<string, Profile>, fallback: real)
    requires fallback > 0.0
    ensures FillAll(FillAll(source, fallback), fallback) == FillAll(source, fallback)
    ensures |FillAll(source, fallback)| == |source|
  {
    var filled := FillAll(source, fallback);
    assert filled.Keys == source.Keys;
    assert |filled| == |filled.Keys| && |source| == |source.Keys|;
  }

  // ---------- effects and patterns ----------

  predicate PatternMatches(rawPattern: string, rawEffect: string)
  {
    var pattern, effect := TrimSpace(rawPattern), TrimSpace(rawEffect);
    if pattern == "" || effect == "" then false
    else if pattern == "*" || pattern == effect then true
    else if HasSuffix(pattern, ".*") then HasPrefix(effect, pattern[..|pattern| - 1])
    else if pattern == "network.write" then
      effect in ["network.post", "network.put", "network.patch", "network.delete", "webhook.call", "email.send"]
    else if pattern == "docker.restart" then effect == "container.restart"
    else pattern == "service.stop" && Contains(effect, "service.stop")
  }

  predicate AnyMatches(patterns: seq<string>, effect: string)
  {
    exists i :: 0 <= i < |patterns| && PatternMatches(patterns[i], effect)
  }

  predicate Denies(profile: Profile, effect: string) { AnyMatches(profile.denyEffects, effect) }

  predicate AsksFor(profile: Profile, effect: string) { AnyMatches(profile.requireApprovalFor, effect) }

  predicate EffectNeedsApproval(effect: string)
  {
    || Contains(effect, "sensitive") || Contains(effect, "env_file")
    || Contains(effect, "write") || Contains(effect, "modify") || Contains(effect, "delete") || Contains(effect, "install")
    || effect in ["network.post", "network.put", "network.patch", "network.delete"]
    || Contains(effect, "restart") || Contains(effect, "stop") || Contains(effect, "kill") || Contains(effect, "escalate")
  }

  // ---------- the decision ----------

  function ResolveProfile(cfg: PolicyConfig, p: Proposal): Profile
  {
    var override := TrimSpace(Text(p.input, "policy_profile"));
    var name := if override != "" then override else TrimSpace(cfg.activeProfile);
    if name in cfg.profiles then Named(cfg.profiles[name], name)
    else if "default" in cfg.profiles then Named(cfg.profiles["default"], "default")
    else DEFAULT_PROFILE
  }

  function Named(profile: Profile, name: string): Profile
  {
    if profile.name == "" then profile.(name := name) else profile
  }

  function Threshold(cfg: PolicyConfig, profile: Profile): real
  {
    if profile.minConfidence <= 0.0 then cfg.minConfidence else profile.minConfidence
  }

  function RiskOrDefault(value: string, fallback: string): string
  {
    if TrimSpace(value) == "" then fallback else value
  }

  function NameOf(d: Decision): DecisionName
  {
    if !d.allowed then Deny else if d.requiresApproval then ApprovalRequired else AutoExecute
  }

  /** The walk over the effects, which stops at the first denied or unknown one. */
  function Scan(profile: Profile, inference: Inference, effects: seq<string>, d: Decision): Decision
  {
    if effects == [] then d
    else if Denies(profile, effects[0]) then
      d.(allowed := false, requiresApproval := false,
         riskLevel := RiskOrDefault(inference.riskLevel, "danger"), reason := "effect denied by policy profile")
    else if effects[0] == UNKNOWN_EFFECT then
      d.(requiresApproval := true, riskLevel := "unknown", reason := "unknown effect requires approval")
    else
      var asks := AsksFor(profile, effects[0]) || EffectNeedsApproval(effects[0]);
      Scan(profile, inference, effects[1..], if asks then d.(requiresApproval := true) else d)
  }

  function Opening(profile: Profile, threshold: real, inference: Inference): Decision
  {
    var low := inference.confidence < threshold;
    Decision(true, low || inference.sensitive || inference.approvalRequired, inference.riskLevel,
             if low then "confidence below auto-execute threshold" else inference.reason, profile.name, AutoExecute)
  }

  function Judge(profile: Profile, threshold: real, inference: Inference): Decision
  {
    var scanned := Scan(profile, inference, inference.effects, Opening(profile, threshold, inference));
    var final := if scanned.allowed && !profile.autoExecuteReadonly && !scanned.requiresApproval
      then scanned.(requiresApproval := true, reason := "policy profile disables read-only auto execution")
      else scanned;
    final.(traceName := NameOf(final))
  }

  function Decide(cfg: PolicyConfig, p: Proposal, inference: Inference): Decision
  {
    var profile := ResolveProfile(cfg, p);
    Judge(profile, Threshold(cfg, profile), inference)
  }

  class PolicyEngine {
    const cfg: PolicyConfig

    constructor (policy: PolicyConfig)
      ensures cfg == Normalized(policy)
    {
      cfg := Normalized(policy);
    }

    method DecideProposal(p: Proposal, inference: Inference) returns (decision: Decision)
      ensures decision == Decide(cfg, p, inference)
    {
      hide ResolveProfile, Scan;
      var profile := ResolveProfile(cfg, p);
      decision := Decision(true, false, inference.riskLevel, inference.reason, profile.name, AutoExecute);
      var threshold := profile.minConfidence;
      if threshold <= 0.0 {
        threshold := cfg.minConfidence;
      }
      if inference.confidence < threshold {
        decision := decision.(requiresApproval := true, reason := "confidence below auto-execute threshold");
      }
      if inference.sensitive || inference.approvalRequired {
        decision := decision.(requiresApproval := true);
      }
      decision := Walk(profile, inference, decision);
      if decision.allowed && !profile.autoExecuteReadonly && !decision.requiresApproval {
        decision := decision.(requiresApproval := true, reason := "policy profile disables read-only auto execution");
      }
      decision := decision.(traceName := NameOf(decision));
    }

    /** The loop of Decide, with its two early exits. */
    method Walk(profile: Profile, inference: Inference, opening: Decision) returns (decision: Decision)
      ensures decision == Scan(profile, inference, inference.effects, opening)
    {
      decision := opening;
      var effects := inference.effects;
      var i := 0;
      while i < |effects|
        invariant 0 <= i <= |effects|
        invariant Scan(profile, inference, effects[i..], decision) == Scan(profile, inference, effects, opening)
      {
        var effect := effects[i];
        assert effects[i..][0] == effect && effects[i..][1..] == effects[i + 1..];
        if Denies(profile, effect) {
          return decision.(allowed := false, requiresApproval := false,
            riskLevel := RiskOrDefault(inference.riskLevel, "danger"), reason := "effect denied by policy profile");
        }
        if effect == UNKNOWN_EFFECT {
          return decision.(requiresApproval := true, riskLevel := "unknown", reason := "unknown effect requires approval");
        }
        if AsksFor(profile, effect) || EffectNeedsApproval(effect) {
          decision := decision.(requiresApproval := true);
        }
        i := i + 1;
      }
    }
  }

  // ---------- what the decision means ----------

  predicate Stops(profile: Profile, effect: string) { Denies(profile, effect) || effect == UNKNOWN_EFFECT }

  /** `k` is the first effect at which the walk stops. */
  predicate StopsAt(profile: Profile, effects: seq<string>, k: int)
  {
    0 <= k < |effects| && Stops(profile, effects[k]) && forall j :: 0 <= j < k ==> !Stops(profile, effects[j])
  }

  predicate Asks(profile: Profile, effect: string) { AsksFor(profile, effect) || EffectNeedsApproval(effect) }

  predicate AutoExecutes(d: Decision) { d.allowed && !d.requiresApproval }

  ghost predicate SomeStop(profile: Profile, effects: seq<string>) { exists k :: StopsAt(profile, effects, k) }

  ghost predicate DeniedFirst(profile: Profile, effects: seq<string>)
  {
    exists k :: StopsAt(profile, effects, k) && Denies(profile, effects[k])
  }

  ghost predicate SomeAsk(profile: Profile, effects: seq<string>)
  {
    exists i :: 0 <= i < |effects| && Asks(profile, effects[i])
  }

  /** The walk stops at its first effect. */
  lemma StopsAtOnce(profile: Profile, effects: seq<string>)
    requires effects != [] && Stops(profile, effects[0])
    ensures SomeStop(profile, effects) && (DeniedFirst(profile, effects) <==> Denies(profile, effects[0]))
  {
    hide Stops, Denies;
    assert StopsAt(profile, effects, 0);
    assert forall k :: StopsAt(profile, effects, k) ==> k == 0;
  }

  lemma StopMoves(profile: Profile, effects: seq<string>, k: int)
    requires effects != [] && !Stops(profile, effects[0])
    ensures StopsAt(profile, effects, k) <==> StopsAt(profile, effects[1..], k - 1)
  {
    hide Stops;
    if StopsAt(profile, effects, k) {
      assert forall j :: 0 <= j < k - 1 ==> effects[1..][j] == effects[j + 1];
    }
    if StopsAt(profile, effects[1..], k - 1) {
      forall j | 0 < j < k ensures !Stops(profile, effects[j]) {
        assert effects[j] == effects[1..][j - 1];
      }
    }
  }

  /** Past an effect at which it does not stop, the walk stops where it does in the rest. */
  lemma StopsLater(profile: Profile, effects: seq<string>)
    requires effects != [] && !Stops(profile, effects[0])
    ensures SomeStop(profile, effects) <==> SomeStop(profile, effects[1..])
    ensures DeniedFirst(profile, effects) <==> DeniedFirst(profile, effects[1..])
  {
    var rest := effects[1..];
    forall k ensures StopsAt(profile, effects, k) <==> StopsAt(profile, rest, k - 1) {
      StopMoves(profile, effects, k);
    }
    hide StopsAt, Stops, Denies;
    forall k | StopsAt(profile, rest, k) ensures StopsAt(profile, effects, k + 1) {
      assert StopsAt(profile, rest, (k + 1) - 1);
    }
    LaterIsWithin(profile, effects);
  }

  lemma LaterIsWithin(profile: Profile, effects: seq<string>)
    requires effects != []
    ensures forall k :: StopsAt(profile, effects[1..], k) ==> effects[1..][k] == effects[k + 1]
    ensures forall k :: StopsAt(profile, effects, k) && k > 0 ==> effects[k] == effects[1..][k - 1]
  {
    hide Stops;
  }

  lemma AsksLater(profile: Profile, effects: seq<string>)
    requires effects != []
    ensures SomeAsk(profile, effects) <==> Asks(profile, effects[0]) || SomeAsk(profile, effects[1..])
  {
    hide Asks;
    var rest := effects[1..];
    forall i | 0 <= i < |rest| && Asks(profile, rest[i]) ensures Asks(profile, effects[i + 1]) {}
    forall i | 0 < i < |effects| && Asks(profile, effects[i]) ensures Asks(profile, rest[i - 1]) {}
  }

  /** Closed form of the walk over the effects. */
  lemma {:induction false} ScanExactly(profile: Profile, inference: Inference, effects: seq<string>, d: Decision)
    requires d.allowed
    ensures var s := Scan(profile, inference, effects, d);
      && (!s.allowed <==> DeniedFirst(profile, effects))
      && (s.requiresApproval <==>
            s.allowed && (d.requiresApproval || SomeStop(profile, effects) || SomeAsk(profile, effects)))
  {
    if effects != [] {
      hide SomeStop, DeniedFirst, SomeAsk, Denies, AsksFor, EffectNeedsApproval;
      if Stops(profile, effects[0]) {
        StopsAtOnce(profile, effects);
      } else {
        StopsLater(profile, effects);
        AsksLater(profile, effects);
        ScanExactly(profile, inference, effects[1..], if Asks(profile, effects[0]) then d.(requiresApproval := true) else d);
      }
    }
  }

  /** The exact specification of Decide: with k the first denied or unknown effect, the proposal is denied
      exactly when effect k is denied, and otherwise needs approval exactly when confidence is low, the
      inference says sensitive or approval-required, k exists, some effect asks, or the profile forbids
      automatic execution. Denied and needs-approval exclude each other, and the name recorded in the risk
      trace is the branch the router takes. */
  lemma DecideExactly(profile: Profile, threshold: real, inference: Inference)
    ensures var d := Judge(profile, threshold, inference);
      && (!d.allowed <==> exists k :: StopsAt(profile, inference.effects, k) && Denies(profile, inference.effects[k]))
      && (d.requiresApproval <==> (
            && d.allowed
            && (|| inference.confidence < threshold || inference.sensitive || inference.approvalRequired
                || (exists k :: StopsAt(profile, inference.effects, k))
                || (exists i :: 0 <= i < |inference.effects| && Asks(profile, inference.effects[i]))
                || !profile.autoExecuteReadonly)))
      && !(!d.allowed && d.requiresApproval)
      && (d.traceName == Deny <==> !d.allowed) && (d.traceName == ApprovalRequired <==> d.requiresApproval)
  {
    ScanExactly(profile, inference, inference.effects, Opening(profile, threshold, inference));
  }

  /** Nothing about the effect stands in the way of executing without approval. */
  predicate Clean(profile: Profile, effect: string) { !Stops(profile, effect) && !Asks(profile, effect) }

  /** Executing without approval takes every condition at once, and no ordering. */
  lemma AutoExecutesExactly(profile: Profile, threshold: real, inference: Inference)
    ensures AutoExecutes(Judge(profile, threshold, inference)) <==>
      && inference.confidence >= threshold && !inference.sensitive && !inference.approvalRequired
      && profile.autoExecuteReadonly
      && (forall e :: e in inference.effects ==> Clean(profile, e))
  {
    hide Judge, Denies, Asks;
    var effects := inference.effects;
    DecideExactly(profile, threshold, inference);
    if exists i :: 0 <= i < |effects| && Stops(profile, effects[i]) {
      var i :| 0 <= i < |effects| && Stops(profile, effects[i]);
      FirstStopExists(profile, effects, i);
    }
    if forall e :: e in effects ==> Clean(profile, e) {
      assert forall i :: 0 <= i < |effects| ==> Clean(profile, effects[i]);
    }
  }

  lemma FirstStopExists(profile: Profile, effects: seq<string>, i: int)
    requires 0 <= i < |effects| && Stops(profile, effects[i])
    ensures exists k :: StopsAt(profile, effects, k) && k <= i
    decreases i
  {
    if forall j :: 0 <= j < i ==> !Stops(profile, effects[j]) {
      assert StopsAt(profile, effects, i);
    } else {
      var j :| 0 <= j < i && Stops(profile, effects[j]);
      FirstStopExists(profile, effects, j);
    }
  }

  /** Auto-execution does not depend on the order or multiplicity of the effects. */
  lemma AutoExecutesIsOrderFree(profile: Profile, threshold: real, a: Inference, b: Inference)
    requires a.confidence == b.confidence && a.sensitive == b.sensitive && a.approvalRequired == b.approvalRequired
    requires forall e :: e in a.effects <==> e in b.effects
    ensures AutoExecutes(Judge(profile, threshold, a)) == AutoExecutes(Judge(profile, threshold, b))
  {
    AutoExecutesExactly(profile, threshold, a);
    AutoExecutesExactly(profile, threshold, b);
  }

  /** `b` under `tighter` is nowhere more permissive than `a` under `profile`. */
  ghost predicate Tighter(profile: Profile, a: Inference, tighter: Profile, b: Inference)
  {
    && b.confidence <= a.confidence && (a.sensitive ==> b.sensitive) && (a.approvalRequired ==> b.approvalRequired)
    && (forall e :: e in a.effects ==> e in b.effects)
    && (tighter.autoExecuteReadonly ==> profile.autoExecuteReadonly)
    && (forall p :: p in profile.denyEffects ==> p in tighter.denyEffects)
    && (forall p :: p in profile.requireApprovalFor ==> p in tighter.requireApprovalFor)
  }

  /** Adding effects, lowering confidence, raising the threshold or adding patterns never turns a proposal
      that needed a human, or was denied, into one that executes by itself. */
  lemma AutoExecutesIsMonotone(profile: Profile, threshold: real, a: Inference, tighter: Profile, higher: real, b: Inference)
    requires Tighter(profile, a, tighter, b) && threshold <= higher
    requires AutoExecutes(Judge(tighter, higher, b))
    ensures AutoExecutes(Judge(profile, threshold, a))
  {
    AutoExecutesExactly(tighter, higher, b);
    AutoExecutesExactly(profile, threshold, a);
    forall e | e in a.effects ensures Clean(profile, e) {
      assert Clean(tighter, e);
      MorePatterns(profile.denyEffects, tighter.denyEffects, e);
      MorePatterns(profile.requireApprovalFor, tighter.requireApprovalFor, e);
    }
  }

  lemma MorePatterns(few: seq<string>, many: seq<string>, effect: string)
    requires forall p :: p in few ==> p in many
    ensures AnyMatches(few, effect) ==> AnyMatches(many, effect)
  {
    if AnyMatches(few, effect) {
      var i :| 0 <= i < |few| && PatternMatches(few[i], effect);
      assert few[i] in many;
      var j :| 0 <= j < |many| && many[j] == few[i];
      assert PatternMatches(many[j], effect);
    }
  }

  // ---------- denial does depend on the order ----------

  predicate Denied(profile: Profile, threshold: real, inference: Inference) { !Judge(profile, threshold, inference).allowed }

  ghost predicate Permutation(a: seq<string>, b: seq<string>) { multiset(a) == multiset(b) }

  /** The order of the effects cannot change the denial. */
  ghost predicate DenialIsOrderFree(profile: Profile, threshold: real, inference: Inference)
  {
    forall effects :: Permutation(effects, inference.effects) ==>
      Denied(profile, threshold, inference.(effects := effects)) == Denied(profile, threshold, inference)
  }

  /** Denial is the same under every permutation exactly when no effect is denied, or none is an unknown
      effect that the profile does not deny. */
  lemma DenialOrderFreeExactly(profile: Profile, threshold: real, inference: Inference)
    ensures DenialIsOrderFree(profile, threshold, inference) <==>
      || (forall e :: e in inference.effects ==> !Denies(profile, e))
      || UNKNOWN_EFFECT !in inference.effects || Denies(profile, UNKNOWN_EFFECT)
  {
    var effects := inference.effects;
    if forall e :: e in effects ==> !Denies(profile, e) {
      forall other | Permutation(other, effects)
        ensures !Denied(profile, threshold, inference.(effects := other))
      {
        SameMembers(other, effects);
        DecideExactly(profile, threshold, inference.(effects := other));
      }
    } else if UNKNOWN_EFFECT !in effects || Denies(profile, UNKNOWN_EFFECT) {
      forall other | Permutation(other, effects)
        ensures Denied(profile, threshold, inference.(effects := other))
      {
        SameMembers(other, effects);
        DeniedWhenNothingHides(profile, threshold, inference.(effects := other));
      }
    } else {
      var d :| d in effects && Denies(profile, d);
      OrderDecides(profile, threshold, inference, d);
    }
  }

  lemma SameMembers(a: seq<string>, b: seq<string>)
    requires Permutation(a, b)
    ensures forall e :: e in a <==> e in b
  {
    forall e ensures e in a <==> e in b {
      assert e in multiset(a) <==> e in multiset(b);
    }
  }

  lemma DeniedWhenNothingHides(profile: Profile, threshold: real, inference: Inference)
    requires exists e :: e in inference.effects && Denies(profile, e)
    requires UNKNOWN_EFFECT !in inference.effects || Denies(profile, UNKNOWN_EFFECT)
    ensures Denied(profile, threshold, inference)
  {
    var effects := inference.effects;
    var e :| e in effects && Denies(profile, e);
    var i :| 0 <= i < |effects| && effects[i] == e;
    FirstStopExists(profile, effects, i);
    DecideExactly(profile, threshold, inference);
  }

  /** Moving a member to the front is a permutation. */
  function ToFront(effects: seq<string>, i: nat): seq<string>
    requires i < |effects|
  {
    [effects[i]] + effects[..i] + effects[i + 1..]
  }

  lemma ToFrontPermutes(effects: seq<string>, i: nat)
    requires i < |effects|
    ensures Permutation(ToFront(effects, i), effects)
  {
    assert effects == effects[..i] + [effects[i]] + effects[i + 1..];
  }

  lemma OrderDecides(profile: Profile, threshold: real, inference: Inference, d: string)
    requires d in inference.effects && Denies(profile, d)
    requires UNKNOWN_EFFECT in inference.effects && !Denies(profile, UNKNOWN_EFFECT)
    ensures !DenialIsOrderFree(profile, threshold, inference)
  {
    var effects := inference.effects;
    var i :| 0 <= i < |effects| && effects[i] == d;
    var j :| 0 <= j < |effects| && effects[j] == UNKNOWN_EFFECT;
    var first, second := inference.(effects := ToFront(effects, i)), inference.(effects := ToFront(effects, j));
    ToFrontPermutes(effects, i);
    ToFrontPermutes(effects, j);
    DecideExactly(profile, threshold, first);
    DecideExactly(profile, threshold, second);
    assert StopsAt(profile, first.effects, 0);
    assert StopsAt(profile, second.effects, 0);
    assert forall k :: StopsAt(profile, second.effects, k) ==> k == 0;
    assert Denied(profile, threshold, first) && !Denied(profile, threshold, second);
    assert Permutation(first.effects, effects) && Permutation(second.effects, effects);
  }
}
