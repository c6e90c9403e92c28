/** Inference and policy together: which calls the router runs without asking
    (internal/agent/effect_inference.go, internal/agent/policy.go, internal/config/config.go). */
module InferencePolicy {
  import opened Base
  import opened Json
  import opened Types
  import opened Policy
  import opened EffectInference

  // ---------- the two copies of "this effect needs approval" ----------

  lemma CopiesAgree(effect: string)
    ensures EffectRequiresApproval(effect) <==> effect == UNKNOWN_EFFECT || EffectNeedsApproval(effect)
  {}

  /** None of the words that make an effect need approval begins here. */
  predicate Quiet(a: char, b: char, c: char)
  {
    && !(a == 's' && b == 'e' && c == 'n') && !(a == 'e' && b == 'n' && c == 'v')
    && !(a == 'w' && b == 'r' && c == 'i') && !(a == 'm' && b == 'o' && c == 'd')
    && !(a == 'd' && b == 'e' && c == 'l') && !(a == 'i' && b == 'n' && c == 's')
    && !(a == 'r' && b == 'e' && c == 's') && !(a == 's' && b == 't' && c == 'o')
    && !(a == 'k' && b == 'i' && c == 'l') && !(a == 'e' && b == 's' && c == 'c')
  }

  lemma QuietIsHarmless(e: string)
    requires forall i :: 0 <= i && i + 3 <= |e| ==> Quiet(e[i], e[i + 1], e[i + 2])
    requires e !in ["network.post", "network.put", "network.patch", "network.delete"]
    ensures !EffectNeedsApproval(e)
  {
    hide Contains;
    Absent(e, "sensitive");
    Absent(e, "env_file");
    Absent(e, "write");
    Absent(e, "modify");
    Absent(e, "delete");
    Absent(e, "install");
    Absent(e, "restart");
    Absent(e, "stop");
    Absent(e, "kill");
    Absent(e, "escalate");
  }

  predicate Plain(e: string)
  {
    e != "" && !IsSpace(e[0]) && !IsSpace(e[|e| - 1]) && !EffectNeedsApproval(e)
  }

  lemma CodeReads(e: string)
    requires e in ["read", "code.read", "code.test", "code.plan", "process.read", "fs.read"]
    ensures Plain(e)
  {
    hide EffectNeedsApproval;
    QuietIsHarmless(e);
  }

  lemma MemoryReads(e: string)
    requires e in ["kb.read", "memory.read", "memory.review"]
    ensures Plain(e)
  {
    hide EffectNeedsApproval;
    QuietIsHarmless(e);
  }

  lemma RunbookReads(e: string)
    requires e in ["git.read", "runbook.read", "runbook.execute"]
    ensures Plain(e)
  {
    hide EffectNeedsApproval;
    QuietIsHarmless(e);
  }

  lemma RouteReads(e: string)
    requires e in ["workflow.route", "disk.read", "network.read"]
    ensures Plain(e)
  {
    hide EffectNeedsApproval;
    QuietIsHarmless(e);
  }

  lemma SystemReads(e: string)
    requires e in ["system.read", "system.metrics.read", "service.read"]
    ensures Plain(e)
  {
    hide EffectNeedsApproval;
    QuietIsHarmless(e);
  }

  lemma RemoteReads(e: string)
    requires e in ["log.read", "ssh.read", "container.read", "k8s.read"]
    ensures Plain(e)
  {
    hide EffectNeedsApproval;
    QuietIsHarmless(e);
  }

  /** The vocabulary of reading calls is harmless to every policy that does not name its words. */
  lemma ReadingIsPlain(e: string)
    requires e in READING
    ensures Plain(e)
  {
    hide Plain;
    if e in ["read", "code.read", "code.test", "code.plan", "process.read", "fs.read"] {
      CodeReads(e);
    } else if e in ["kb.read", "memory.read", "memory.review"] {
      MemoryReads(e);
    } else if e in ["git.read", "runbook.read", "runbook.execute"] {
      RunbookReads(e);
    } else if e in ["workflow.route", "disk.read", "network.read"] {
      RouteReads(e);
    } else if e in ["system.read", "system.metrics.read", "service.read"] {
      SystemReads(e);
    } else {
      RemoteReads(e);
    }
  }

  // ---------- the built-in profiles ----------

  /** A pattern of the plain kind that names none of the reading effects. */
  predicate Ordinary(pattern: string)
  {
    && pattern !in READING && pattern != "*" && !HasSuffix(pattern, ".*")
    && pattern != "" && !IsSpace(pattern[0]) && !IsSpace(pattern[|pattern| - 1])
  }

  lemma Longer(s: string, t: string, u: string)
    requires Contains(s, t) && HasSuffix(t, u)
    ensures Contains(s, u)
  {
    var i :| 0 <= i <= |s| && t <= s[i..];
    var k := i + |t| - |u|;
    assert forall j :: 0 <= j < |u| ==> s[k..][j] == s[i..][|t| - |u| + j] == t[|t| - |u| + j] == t[|t| - |u|..][j];
    assert u <= s[k..];
  }

  lemma ReadingExcludes(e: string)
    requires e in READING
    ensures e !in ["network.post", "network.put", "network.patch", "network.delete", "webhook.call", "email.send"]
    ensures e != "container.restart" && e != UNKNOWN_EFFECT
  {}

  lemma Misses(pattern: string, e: string)
    requires Ordinary(pattern) && e in READING
    ensures !PatternMatches(pattern, e)
  {
    assert pattern != e;
    ReadingExcludes(e);
    ReadingIsPlain(e);
    hide READING, Contains, TrimSpace, HasSuffix;
    TrimIdentity(pattern);
    TrimIdentity(e);
    if Contains(e, "service.stop") {
      StopSuffix();
      Longer(e, "service.stop", "stop");
    }
  }

  lemma StopSuffix() ensures HasSuffix("service.stop", "stop") {}

  ghost predicate AllOrdinary(patterns: seq<string>) { forall i :: 0 <= i < |patterns| ==> Ordinary(patterns[i]) }

  lemma MissesAll(patterns: seq<string>, e: string)
    requires AllOrdinary(patterns) && e in READING
    ensures !AnyMatches(patterns, e)
  {
    hide Ordinary, PatternMatches;
    forall i | 0 <= i < |patterns| ensures !PatternMatches(patterns[i], e) {
      Misses(patterns[i], e);
    }
  }

  lemma FirstPatterns()
    ensures Ordinary("sensitive_read") && Ordinary("fs.write") && Ordinary("code.modify")
  {}

  lemma SecondPatterns()
    ensures Ordinary("git.write") && Ordinary("service.restart") && Ordinary("process.kill")
  {}

  lemma ThirdPatterns()
    ensures Ordinary("network.post") && Ordinary("network.put") && Ordinary("network.patch")
  {}

  lemma FourthPatterns()
    ensures Ordinary("network.delete") && Ordinary("unknown.effect") && Ordinary("package.install")
  {}

  lemma FifthPatterns()
    ensures Ordinary("service.stop") && Ordinary("deployment.apply") && Ordinary("k8s.apply")
  {}

  lemma SixthPatterns()
    ensures Ordinary("k8s.delete") && Ordinary("docker.restart") && Ordinary("network.write")
  {}

  lemma SeventhPatterns()
    ensures Ordinary("webhook.call") && Ordinary("email.send") && Ordinary("mcp.remote.call")
  {}

  /** Every pattern the four profiles use. */
  lemma PatternsAreOrdinary(b: BuiltIn)
    ensures AllOrdinary(ProfileOf(b).requireApprovalFor) && AllOrdinary(ProfileOf(b).denyEffects)
  {
    hide Ordinary;
    FirstPatterns();
    SecondPatterns();
    ThirdPatterns();
    FourthPatterns();
    FifthPatterns();
    SixthPatterns();
    SeventhPatterns();
  }

  datatype BuiltIn = Standard | Developer | Ops | Offline

  function ProfileOf(b: BuiltIn): Profile
  {
    match b case Standard => DEFAULT_PROFILE case Developer => DEVELOPER_PROFILE case Ops => OPS_PROFILE case Offline => OFFLINE_PROFILE
  }

  lemma BuiltInsExecute(b: BuiltIn)
    ensures var p := ProfileOf(b); p.autoExecuteReadonly && 0.0 < p.minConfidence <= 0.9
  {}

  lemma ReadingIsClean(b: BuiltIn, e: string)
    requires e in READING
    ensures Clean(ProfileOf(b), e)
  {
    hide AllOrdinary, AnyMatches, EffectNeedsApproval, READING;
    PatternsAreOrdinary(b);
    var p := ProfileOf(b);
    MissesAll(p.requireApprovalFor, e);
    MissesAll(p.denyEffects, e);
    PlainIs(e);
    ReadingExcludes(e);
  }

  lemma PlainIs(e: string)
    requires e in READING
    ensures !EffectNeedsApproval(e)
  {
    ReadingIsPlain(e);
  }

  // ---------- the composition ----------

  /** Under a built-in profile that executes automatically, a call that either asks or only reads is executed
      automatically exactly when it does not ask. */
  lemma AsksOrRuns(b: BuiltIn, r: Inference)
    requires AsksOrReads(r)
    ensures AutoExecutes(Judge(ProfileOf(b), ProfileOf(b).minConfidence, r)) <==> !r.approvalRequired
  {
    hide Clean, Judge, READING;
    AutoExecutesExactly(ProfileOf(b), ProfileOf(b).minConfidence, r);
    BuiltInsExecute(b);
    forall e | e in r.effects && !r.approvalRequired ensures Clean(ProfileOf(b), e) {
      ReadingIsClean(b, e);
    }
  }

  /** For every tool but the two that run what others registered, under each of the four built-in profiles,
      the router executes without asking exactly when inference says that no approval is required. */
  lemma AutoExecutesWhenInferred(b: BuiltIn, site: Site, p: Proposal)
    requires p.tool != "mcp.call_tool" && p.tool != "skill.run"
    ensures Infer(site, p).Some?
    ensures AutoExecutes(Judge(ProfileOf(b), ProfileOf(b).minConfidence, Infer(site, p).value)) <==> !Infer(site, p).value.approvalRequired
  {
    hide Judge, AsksOrReads, InferOps, InferRunbook, ShellInference, InferCode, InferGit, InferKnowledge;
    if p.tool == "shell.exec" {
      ShellAsks(site, p);
    } else {
      InferredAsksOrReads(site, p);
    }
    AsksOrRuns(b, Infer(site, p).value);
  }

  // ---------- which profile is in force ----------

  /** The name a call is judged under: the one it asks for, or else the active one. */
  function ChosenName(cfg: PolicyConfig, p: Proposal): string
  {
    var override := TrimSpace(Text(p.input, "policy_profile"));
    if override != "" then override else TrimSpace(if cfg.activeProfile == "" then "default" else cfg.activeProfile)
  }

  function BuiltInOf(name: string): BuiltIn
  {
    if name == "developer" then Developer else if name == "ops" then Ops else if name == "offline" then Offline else Standard
  }

  lemma BuiltInNames()
    ensures DefaultPolicyProfiles().Keys == {"default", "strict", "developer", "ops", "offline"}
  {}

  lemma BuiltInFilled(name: string, fallback: real)
    ensures name in DefaultPolicyProfiles() ==>
      Named(FillProfile(name, DefaultPolicyProfiles()[name], fallback), name)
        == if name == "strict" then STRICT_PROFILE else ProfileOf(BuiltInOf(name))
    ensures name !in DefaultPolicyProfiles() ==> name != "strict" && BuiltInOf(name) == Standard
    ensures "default" != "strict" && BuiltInOf("default") == Standard
  {}

  /** With the built-in profiles, any name but the strict one leads to one of the other four. */
  lemma BuiltInInForce(cfg: PolicyConfig, p: Proposal)
    requires |cfg.profiles| == 0
    ensures ResolveProfile(Normalized(cfg), p)
         == if ChosenName(cfg, p) == "strict" then STRICT_PROFILE else ProfileOf(BuiltInOf(ChosenName(cfg, p)))
  {
    hide TrimSpace, Text, DefaultPolicyProfiles, FillProfile, ProfileOf, BuiltInOf, STRICT_PROFILE;
    var fallback, name := Normalized(cfg).minConfidence, ChosenName(cfg, p);
    assert Normalized(cfg).profiles == FillAll(DefaultPolicyProfiles(), fallback);
    BuiltInNames();
    BuiltInFilled(name, fallback);
    BuiltInFilled("default", fallback);
    TrimIdentity("default");
  }

  /** Under the program's own profiles a call, of any tool but the two that run what others registered, is
      executed without asking exactly when inference asks for no approval and the profile in force is not the
      strict one; whatever profile is active, and whatever profile the call names. */
  lemma DecidesAsInferred(cfg: PolicyConfig, site: Site, p: Proposal)
    requires |cfg.profiles| == 0 && p.tool != "mcp.call_tool" && p.tool != "skill.run"
    ensures Infer(site, p).Some?
    ensures AutoExecutes(Decide(Normalized(cfg), p, Infer(site, p).value))
       <==> !Infer(site, p).value.approvalRequired && ChosenName(cfg, p) != "strict"
  {
    hide Judge, Infer, ChosenName, Normalized, ResolveProfile;
    BuiltInInForce(cfg, p);
    var b := BuiltInOf(ChosenName(cfg, p));
    AutoExecutesWhenInferred(b, site, p);
    BuiltInsExecute(b);
    if ChosenName(cfg, p) == "strict" {
      StrictNeverAutoExecutes(Threshold(Normalized(cfg), STRICT_PROFILE), Infer(site, p).value);
    }
  }

  // ---------- the order of the effects, for a built-in profile ----------

  lemma MissesUnknown(pattern: string)
    requires Ordinary(pattern) && pattern != UNKNOWN_EFFECT
    ensures !PatternMatches(pattern, UNKNOWN_EFFECT)
  {
    hide Contains, TrimSpace, READING, HasSuffix;
    TrimIdentity(pattern);
    UnknownIsPlain();
  }

  lemma UnknownIsPlain()
    ensures TrimSpace(UNKNOWN_EFFECT) == UNKNOWN_EFFECT && !Contains(UNKNOWN_EFFECT, "service.stop")
    ensures UNKNOWN_EFFECT !in ["network.post", "network.put", "network.patch", "network.delete", "webhook.call", "email.send"]
    ensures UNKNOWN_EFFECT != "container.restart"
  {
    hide Contains, TrimSpace;
    TrimIdentity(UNKNOWN_EFFECT);
    Absent(UNKNOWN_EFFECT, "service.stop");
  }

  lemma OfflineStops()
    ensures Denies(OFFLINE_PROFILE, "network.post") && !Denies(OFFLINE_PROFILE, UNKNOWN_EFFECT)
  {
    var denied := OFFLINE_PROFILE.denyEffects;
    TrimIdentity("network.post");
    assert denied[0] == "network.post" && PatternMatches(denied[0], "network.post");
    PatternsAreOrdinary(Offline);
    assert AllOrdinary(denied);
    hide PatternMatches, Ordinary;
    forall i | 0 <= i < |denied| ensures !PatternMatches(denied[i], UNKNOWN_EFFECT) {
      MissesUnknown(denied[i]);
    }
  }

  /** The offline profile denies a post to the network; with an unknown effect beside it, it does so in one
      order of the two and asks for approval in the other. */
  lemma OfflineDenialDependsOnOrder(threshold: real, inference: Inference)
    ensures Denied(OFFLINE_PROFILE, threshold, inference.(effects := ["network.post", UNKNOWN_EFFECT]))
    ensures !Denied(OFFLINE_PROFILE, threshold, inference.(effects := [UNKNOWN_EFFECT, "network.post"]))
  {
    OfflineStops();
    hide Denies, OFFLINE_PROFILE;
  }

  lemma InferredAsksOrReads(site: Site, p: Proposal)
    requires p.tool != "mcp.call_tool" && p.tool != "skill.run" && p.tool != "shell.exec"
    ensures Infer(site, p).Some? && AsksOrReads(Infer(site, p).value)
  {
    hide AsksOrReads, InferOps, InferRunbook, ShellInference, InferCode, InferGit, InferKnowledge;
  }

  lemma ShellAsks(site: Site, p: Proposal)
    requires p.tool == "shell.exec"
    ensures Infer(site, p).Some? && Infer(site, p).value.approvalRequired && AsksOrReads(Infer(site, p).value)
  {
    hide ShellInference, InferOps, InferRunbook, InferCode, InferGit, InferKnowledge, AsksOrReads;
    assert p.tool[0] == 's';
    assert Infer(site, p) == Some(ShellInference(site, p));
    ShellInferenceAsks(site, p);
  }

  lemma ShellInferenceAsks(site: Site, p: Proposal)
    ensures ShellInference(site, p).approvalRequired && AsksOrReads(ShellInference(site, p))
  {
    hide ClassifyShell, Uniq, Text;
  }

  /** A shell command never runs without approval: for any command, any expected effects, any policy and
      any profile the call asks for. */
  lemma ShellNeverAutoExecutes(cfg: PolicyConfig, site: Site, p: Proposal)
    requires p.tool == "shell.exec"
    ensures Infer(site, p).Some? && !AutoExecutes(Decide(cfg, p, Infer(site, p).value))
  {
    ShellAsks(site, p);
    hide Judge, Infer, ResolveProfile;
    var profile := ResolveProfile(cfg, p);
    AutoExecutesExactly(profile, Threshold(cfg, profile), Infer(site, p).value);
  }

  /** The strict profile executes nothing automatically, whatever is inferred. */
  lemma StrictNeverAutoExecutes(threshold: real, r: Inference)
    ensures !AutoExecutes(Judge(STRICT_PROFILE, threshold, r))
  {
    hide Judge;
    AutoExecutesExactly(STRICT_PROFILE, threshold, r);
  }

  // ---------- MCP tools ----------

  /** An effect for which an MCP call needs approval. */
  predicate McpAsks(e: string)
  {
    e == UNKNOWN_EFFECT || EffectNeedsApproval(e) || Contains(e, "danger")
  }

  lemma McpStepExactly(r: Inference, e: string)
    requires r.confidence > 0.0
    ensures var f := McpStep(r, e);
      && (f.approvalRequired <==> r.approvalRequired || McpAsks(e))
      && (f.sensitive <==> r.sensitive || (e != UNKNOWN_EFFECT && SoundsSensitive(e)))
      && f.confidence == (if e == UNKNOWN_EFFECT then Min(r.confidence, 0.4) else r.confidence)
      && f.effects == r.effects && f.confidence > 0.0
  {
    hide Contains;
  }

  lemma InLast(effects: seq<string>)
    requires effects != []
    ensures var front, last := effects[..|effects| - 1], effects[|effects| - 1];
      forall e :: e in effects <==> e in front || e == last
  {
    var front, last := effects[..|effects| - 1], effects[|effects| - 1];
    assert effects == front + [last];
  }

  /** Closed form of the loop over an MCP tool's effects. */
  lemma {:induction false} McpFoldExactly(r: Inference, effects: seq<string>)
    requires r.confidence > 0.0
    ensures var f := McpFold(r, effects);
      && (f.approvalRequired <==> r.approvalRequired || exists e :: e in effects && McpAsks(e))
      && (f.sensitive <==> r.sensitive || exists e :: e in effects && e != UNKNOWN_EFFECT && SoundsSensitive(e))
      && f.confidence == (if UNKNOWN_EFFECT in effects then Min(r.confidence, 0.4) else r.confidence)
      && f.effects == r.effects && f.confidence > 0.0
  {
    hide McpStep, McpAsks, SoundsSensitive;
    if effects != [] {
      var front, last := effects[..|effects| - 1], effects[|effects| - 1];
      McpFoldExactly(r, front);
      McpStepExactly(McpFold(r, front), last);
      InLast(effects);
      assert last in effects;
    }
  }

  /** The approval flag of an MCP call: the profile's flag, a "require", or some effect that asks. */
  lemma McpApprovalExactly(m: McpProfile)
    ensures McpProfileInference(m).approvalRequired
       <==> m.requiresApproval || m.approval == "require" || exists e :: e in Declared(m.effects) && McpAsks(e)
  {
    hide McpFold, McpAsks;
    McpFoldExactly(McpOpening(m), Declared(m.effects));
  }

  ghost predicate SameMembers(a: seq<string>, b: seq<string>) { forall e :: e in a <==> e in b }

  lemma DeclaredAlike(a: seq<string>, b: seq<string>)
    requires multiset(a) == multiset(b)
    ensures SameMembers(Declared(a), Declared(b))
  {
    assert forall e :: e in a <==> e in multiset(a);
    assert forall e :: e in b <==> e in multiset(b);
    assert |a| == |multiset(a)| == |multiset(b)| == |b|;
  }

  /** The loop's approval, sensitivity and confidence depend only on which effects there are. */
  lemma FoldsAlike(r: Inference, q: Inference, a: seq<string>, b: seq<string>)
    requires SameMembers(a, b) && r.confidence == q.confidence > 0.0
    requires r.approvalRequired == q.approvalRequired && r.sensitive == q.sensitive
    ensures var f, g := McpFold(r, a), McpFold(q, b);
      f.approvalRequired == g.approvalRequired && f.sensitive == g.sensitive && f.confidence == g.confidence
  {
    hide McpFold, McpAsks, SoundsSensitive;
    McpFoldExactly(r, a);
    McpFoldExactly(q, b);
  }

  /** Approval, sensitivity and confidence of an MCP call do not depend on the order of the effects. */
  lemma McpIsOrderFree(m: McpProfile, other: seq<string>)
    requires multiset(other) == multiset(m.effects)
    ensures var a, b := McpProfileInference(m), McpProfileInference(m.(effects := other));
      a.approvalRequired == b.approvalRequired && a.sensitive == b.sensitive && a.confidence == b.confidence
  {
    hide McpFold, Declared;
    DeclaredAlike(m.effects, other);
    FoldsAlike(McpOpening(m), McpOpening(m.(effects := other)), Declared(m.effects), Declared(other));
  }

  lemma McpIgnores(r: Inference, e: string)
    requires !McpAsks(e)
    ensures McpStep(r, e) == r
  {
    hide Contains;
  }

  /** The last effect that asks decides the risk level of an MCP call. */
  lemma {:induction false} McpRiskIsLast(r: Inference, effects: seq<string>, e: string, rest: seq<string>)
    requires McpAsks(e) && forall x :: x in rest ==> !McpAsks(x)
    ensures McpFold(r, effects + [e] + rest).riskLevel == McpStep(r, e).riskLevel
  {
    var all := effects + [e] + rest;
    if rest == [] {
      assert all[..|effects|] == effects && all[|effects|] == e && |all| == |effects| + 1;
      RiskOfStep(r, effects, e);
    } else {
      var last := rest[|rest| - 1];
      assert all[..|all| - 1] == effects + [e] + rest[..|rest| - 1] && all[|all| - 1] == last;
      McpRiskIsLast(r, effects, e, rest[..|rest| - 1]);
      McpIgnores(McpFold(r, effects + [e] + rest[..|rest| - 1]), last);
    }
  }

  /** When no effect asks, the call is inferred just as it would be without effects: with the risk level its
      registration names. */
  lemma {:induction false} McpRiskStays(r: Inference, effects: seq<string>)
    requires forall x :: x in effects ==> !McpAsks(x)
    ensures McpFold(r, effects) == r
  {
    if effects != [] {
      var front, last := effects[..|effects| - 1], effects[|effects| - 1];
      McpRiskStays(r, front);
      McpIgnores(r, last);
    }
  }

  /** An effect that asks sets the risk level whatever came before. */
  lemma RiskOfStep(r: Inference, effects: seq<string>, e: string)
    requires McpAsks(e)
    ensures McpStep(McpFold(r, effects), e).riskLevel == McpStep(r, e).riskLevel
  {
    hide Contains, McpFold;
  }

  // ---------- skills ----------

  lemma SkillStepExactly(r: Inference, e: string)
    ensures var f := SkillStep(r, e);
      && (f.approvalRequired <==> r.approvalRequired || EffectRequiresApproval(e))
      && (f.sensitive <==> r.sensitive || (e != UNKNOWN_EFFECT && SoundsSensitive(e)))
      && f.confidence == (if e == UNKNOWN_EFFECT then 0.4 else r.confidence)
      && f.effects == r.effects
  {
    hide Contains;
  }

  lemma {:induction false} SkillFoldExactly(effects: seq<string>, all: seq<string>)
    ensures var f := SkillFold(SkillOpening(all), effects);
      && (f.approvalRequired <==> exists e :: e in effects && EffectRequiresApproval(e))
      && (f.sensitive <==> exists e :: e in effects && e != UNKNOWN_EFFECT && SoundsSensitive(e))
      && f.confidence == (if UNKNOWN_EFFECT in effects then 0.4 else 0.95)
      && f.effects == all
  {
    hide SkillStep, SoundsSensitive, EffectRequiresApproval;
    if effects != [] {
      var front, last := effects[..|effects| - 1], effects[|effects| - 1];
      SkillFoldExactly(front, all);
      SkillStepExactly(SkillFold(SkillOpening(all), front), last);
      InLast(effects);
      assert last in effects;
    }
  }

  /** A registered skill needs approval exactly when its manifest or its sandbox says so or some declared
      effect does; and its confidence is the least of what unknown effects and the sandbox allow. */
  lemma SkillExactly(s: SkillProfile)
    ensures var r := SkillProfileInference(s); var effects := Declared(s.effects);
      && (r.approvalRequired <==>
            s.approvalDefault == "require" || s.requiresApproval || exists e :: e in effects && (e == UNKNOWN_EFFECT || EffectNeedsApproval(e)))
      && r.confidence == Min(if UNKNOWN_EFFECT in effects then 0.4 else 0.95,
                             if s.requiresApproval then 0.6 else if s.willFallback then 0.7 else 0.95)
  {
    hide SkillFold, EffectRequiresApproval, EffectNeedsApproval;
    SkillFoldExactly(Declared(s.effects), Declared(s.effects));
    forall e ensures EffectRequiresApproval(e) <==> e == UNKNOWN_EFFECT || EffectNeedsApproval(e) {
      CopiesAgree(e);
    }
  }
}
