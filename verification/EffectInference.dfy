/** Effect inference: from a tool call to effects, risk and the need for approval
    (internal/agent/effect_inference.go). */
module EffectInference {
  import opened Base
  import opened Json
  import opened Types
  import opened Policy

  datatype Segment = Segment(name: string, args: seq<string>)

  /** What the shell parser reports about a command. */
  datatype Structure = Structure(writesRedirect: bool, targets: seq<string>, segments: seq<Segment>)

  datatype McpProfile = McpProfile(
    effects: seq<string>, approval: string, requiresApproval: bool, riskLevel: string, reason: string, confidence: real)

  datatype SkillProfile = SkillProfile(effects: seq<string>, approvalDefault: string, requiresApproval: bool, willFallback: bool)

  /** What the inferrer consults: which paths are sensitive, the shell parser, and the registries of MCP
      tools and skills, each of which may be absent. */
  datatype Site = Site(
    touchesSensitive: GoMap -> bool,
    sensitivePath: string -> bool,
    parse: string -> Structure,
    mcp: Option<(string, string) -> Option<McpProfile>>,
    skills: Option<string -> Option<SkillProfile>>)

  // ---------- shapes of results ----------

  function ReadOnly(effects: seq<string>, confidence: real): Inference
  {
    Inference(effects, "read", false, false, confidence, "read-only")
  }

  function Mutating(effects: seq<string>, risk: string, confidence: real): Inference
  {
    Inference(effects, risk, false, true, confidence, "mutating")
  }

  function Sensitive(effects: seq<string>, confidence: real): Inference
  {
    Inference(effects, "sensitive", true, true, confidence, "sensitive")
  }

  function Unknown(confidence: real): Inference
  {
    Inference([UNKNOWN_EFFECT], "unknown", false, true, confidence, "unknown")
  }

  // ---------- effects ----------

  /** The inferrer's own reading of an effect. */
  predicate EffectRequiresApproval(effect: string)
  {
    || effect == UNKNOWN_EFFECT
    || Contains(effect, "sensitive") || Contains(effect, "env_file")
    || Contains(effect, "write") || Contains(effect, "modify") || Contains(effect, "delete") || Contains(effect, "install")
    || effect == "network.post" || effect == "network.put" || effect == "network.patch" || effect == "network.delete"
    || Contains(effect, "restart") || Contains(effect, "stop") || Contains(effect, "kill") || Contains(effect, "escalate")
  }

  /** First occurrences, without the empty string. */
  function Uniq(items: seq<string>): seq<string>
  {
    if items == [] then []
    else
      var earlier := Uniq(items[..|items| - 1]);
      var last := items[|items| - 1];
      if last == "" || last in earlier then earlier else earlier + [last]
  }

  method UniqLoop(items: seq<string>) returns (out: seq<string>)
    ensures out == Uniq(items)
  {
    var seen: set<string> := {};
    out := [];
    var i := 0;
    while i < |items|
      invariant 0 <= i <= |items|
      invariant out == Uniq(items[..i])
      invariant forall s :: s in seen <==> s in out
    {
      assert items[..i + 1][..i] == items[..i];
      var item := items[i];
      i := i + 1;
      if item == "" || item in seen {
        continue;
      }
      seen := seen + {item};
      out := out + [item];
    }
    assert items[..|items|] == items;
  }

  lemma {:induction false} UniqMembers(items: seq<string>)
    ensures forall s :: s in Uniq(items) <==> s in items && s != ""
    ensures forall i, j :: 0 <= i < j < |Uniq(items)| ==> Uniq(items)[i] != Uniq(items)[j]
  {
    if items != [] {
      UniqMembers(items[..|items| - 1]);
      assert items == items[..|items| - 1] + [items[|items| - 1]];
    }
  }

  /** Every effect the tables below declare for a call that needs no approval. */
  const READING: set<string> := {
    "read", "code.read", "code.test", "code.plan", "process.read", "fs.read", "kb.read", "memory.read", "memory.review",
    "git.read", "runbook.read", "runbook.execute", "workflow.route", "system.read", "system.metrics.read", "disk.read",
    "network.read", "service.read", "log.read", "ssh.read", "container.read", "k8s.read"}

  /** The call needs approval, or is known with confidence to do nothing but read. */
  predicate AsksOrReads(r: Inference)
  {
    r.approvalRequired || (!r.sensitive && r.confidence >= 0.9 && forall e :: e in r.effects ==> e in READING)
  }

  // ---------- ops and runbooks ----------

  function ReadOnlyOps(effects: seq<string>): (r: Inference)
    ensures (forall e :: e in effects ==> e in READING) ==> AsksOrReads(r)
  {
    UniqMembers(["read"] + effects);
    ReadOnly(Uniq(["read"] + effects), 0.95)
  }

  function InferOps(site: Site, p: Proposal): (r: Inference)
    ensures AsksOrReads(r)
  {
    if site.touchesSensitive(p.input) then Sensitive(["sensitive_read", "log.read"], 0.95)
    else if HasPrefix(p.tool, "ops.local.") then InferLocal(p.tool)
    else if HasPrefix(p.tool, "ops.ssh.") then InferSsh(p.tool)
    else InferCluster(p.tool)
  }

  function InferLocal(tool: string): (r: Inference)
    ensures AsksOrReads(r)
  {
    if tool == "ops.local.system_info" then ReadOnlyOps(["system.read"])
    else if tool == "ops.local.processes" then ReadOnlyOps(["process.read", "system.metrics.read"])
    else if tool == "ops.local.disk_usage" then ReadOnlyOps(["disk.read", "system.metrics.read"])
    else if tool == "ops.local.memory_usage" then ReadOnlyOps(["memory.read", "system.metrics.read"])
    else if tool == "ops.local.network_info" then ReadOnlyOps(["network.read"])
    else if tool == "ops.local.service_status" then ReadOnlyOps(["service.read"])
    else if tool == "ops.local.logs_tail" then ReadOnlyOps(["log.read"])
    else if tool == "ops.local.service_restart" then Mutating(["service.restart", "system.write"], "danger", 0.99)
    else Unknown(0.3)
  }

  function InferSsh(tool: string): (r: Inference)
    ensures AsksOrReads(r)
  {
    if tool == "ops.ssh.system_info" then ReadOnlyOps(["ssh.read", "system.read"])
    else if tool == "ops.ssh.processes" then ReadOnlyOps(["ssh.read", "process.read", "system.metrics.read"])
    else if tool == "ops.ssh.disk_usage" then ReadOnlyOps(["ssh.read", "disk.read", "system.metrics.read"])
    else if tool == "ops.ssh.memory_usage" then ReadOnlyOps(["ssh.read", "memory.read", "system.metrics.read"])
    else if tool == "ops.ssh.logs_tail" then ReadOnlyOps(["ssh.read", "log.read"])
    else if tool == "ops.ssh.service_status" then ReadOnlyOps(["ssh.read", "service.read"])
    else if tool == "ops.ssh.service_restart" then Mutating(["ssh.write", "service.restart", "system.write"], "danger", 0.99)
    else Unknown(0.3)
  }

  function InferCluster(tool: string): (r: Inference)
    ensures AsksOrReads(r)
  {
    if tool == "ops.docker.ps" || tool == "ops.docker.inspect" then ReadOnlyOps(["container.read"])
    else if tool == "ops.docker.logs" then ReadOnlyOps(["container.read", "log.read"])
    else if tool == "ops.docker.stats" then ReadOnlyOps(["container.read", "system.metrics.read"])
    else if tool == "ops.docker.restart" || tool == "ops.docker.stop" || tool == "ops.docker.start" then
      Mutating(["container.write", "container." + TrimPrefix(tool, "ops.docker.")], "write", 0.99)
    else if tool == "ops.k8s.get" || tool == "ops.k8s.describe" || tool == "ops.k8s.events" then ReadOnlyOps(["k8s.read"])
    else if tool == "ops.k8s.logs" then ReadOnlyOps(["k8s.read", "log.read"])
    else if tool == "ops.k8s.apply" || tool == "ops.k8s.rollout_restart" then
      Mutating(["k8s.write", TrimPrefix(tool, "ops.")], "write", 0.99)
    else if tool == "ops.k8s.delete" then Mutating(["k8s.delete", "dangerous"], "danger", 0.99)
    else Unknown(0.3)
  }

  function InferRunbook(tool: string): (r: Inference)
    ensures AsksOrReads(r)
  {
    if tool == "runbook.list" || tool == "runbook.read" || tool == "runbook.plan" then ReadOnly(["read", "runbook.read"], 0.95)
    else if tool == "runbook.execute_step" || tool == "runbook.execute" then ReadOnly(["runbook.execute", "workflow.route"], 0.9)
    else Unknown(0.3)
  }

  // ---------- code, git, memory ----------

  const READ_CODE := ReadOnly(["read", "code.read"], 0.95)

  function InferCodeRead(site: Site, p: Proposal): (r: Inference)
    ensures AsksOrReads(r)
  {
    if site.touchesSensitive(p.input) || Flag(p.input, "include_sensitive") then Sensitive(["sensitive_read", "code.read"], 0.95)
    else READ_CODE
  }

  predicate HasInstallOrMutation(all: seq<string>)
  {
    exists i :: 0 <= i < |all| && Mutates(all, i)
  }

  predicate Mutates(all: seq<string>, i: int)
  {
    && 0 <= i < |all|
    && (
        || all[i] in ["install", "add", "upgrade", "remove", "update"]
        || (all[i] in ["get", "generate"] && i > 0 && all[i - 1] == "go")
        || (all[i] == "tidy" && i > 1 && all[i - 2] == "go" && all[i - 1] == "mod"))
  }

  /** The loop of testCommandHasInstallOrMutation. */
  method InstallLoop(command: string, args: seq<string>) returns (found: bool)
    ensures found == HasInstallOrMutation([command] + args)
  {
    var all := [command] + args;
    var i := 0;
    while i < |all|
      invariant 0 <= i <= |all|
      invariant forall j :: j < i ==> !Mutates(all, j)
    {
      var item := all[i];
      if item == "install" || item == "add" || item == "upgrade" || item == "remove" || item == "update" {
        assert Mutates(all, i);
        return true;
      } else if item == "get" || item == "generate" {
        if i > 0 && all[i - 1] == "go" {
          assert Mutates(all, i);
          return true;
        }
      } else if item == "tidy" {
        if i > 1 && all[i - 2] == "go" && all[i - 1] == "mod" {
          assert Mutates(all, i);
          return true;
        }
      }
      assert !Mutates(all, i);
      i := i + 1;
    }
    found := false;
  }

  predicate RecognizedTest(command: string, args: seq<string>)
  {
    if command in ["go", "cargo", "make"] then |args| > 0 && args[0] == "test"
    else if command in ["npm", "pnpm", "yarn"] then
      |args| > 0 && (args[0] == "test" || (|args| > 1 && args[0] == "run" && args[1] == "test"))
    else if command == "pytest" then true
    else if command in ["python", "python3"] then |args| >= 2 && args[0] == "-m" && args[1] == "pytest"
    else false
  }

  function InferCodeTest(site: Site, p: Proposal): (r: Inference)
    ensures AsksOrReads(r)
  {
    var command := if Text(p.input, "command") != "" then Text(p.input, "command") else Text(p.input, "test_command");
    if command == "" && (Flag(p.input, "use_detected") || p.tool == "code.fix_test_failure_loop") then
      ReadOnly(["code.test", "process.read", "fs.read"], 0.9)
    else if command == "" then Unknown(0.3)
    else
      var s := site.parse(command);
      if s.writesRedirect || Contains(command, "&&") || Contains(command, ";") then Mutating([UNKNOWN_EFFECT, "fs.write"], "unknown", 0.5)
      else if s.segments == [] then Unknown(0.3)
      else if HasInstallOrMutation([s.segments[0].name] + s.segments[0].args) then
        Mutating(["code.test", "package.install", "fs.write", UNKNOWN_EFFECT], "write", 0.8)
      else if RecognizedTest(s.segments[0].name, s.segments[0].args) then ReadOnly(["code.test", "process.read", "fs.read"], 0.9)
      else Mutating([UNKNOWN_EFFECT, "code.test"], "unknown", 0.45)
  }

  function InferCode(site: Site, p: Proposal): (r: Inference)
    ensures AsksOrReads(r)
  {
    var tool := p.tool;
    if tool in ["code.read_file", "code.search", "code.search_text", "code.search_symbol", "code.list_files"] then InferCodeRead(site, p)
    else if tool in ["code.inspect_project", "code.detect_language", "code.detect_test_command", "code.parse_test_failure", "code.explain_diff"] then READ_CODE
    else if tool == "code.run_tests" || tool == "code.fix_test_failure_loop" then InferCodeTest(site, p)
    else if tool in ["code.propose_patch", "code.validate_patch", "code.dry_run_patch"] then
      if site.touchesSensitive(p.input) then Sensitive(["sensitive_read", "code.plan"], 0.95)
      else ReadOnly(["read", "code.plan"], if tool == "code.propose_patch" then 0.9 else 0.95)
    else if tool == "code.apply_patch" then
      if site.touchesSensitive(p.input) then Sensitive(["fs.write", "code.modify", "sensitive_write"], 0.99)
      else Mutating(["fs.write", "code.modify"], "write", 0.99)
    else Unknown(0.2)
  }

  function InferGit(tool: string): (r: Inference)
    ensures AsksOrReads(r)
  {
    if tool in ["git.status", "git.diff", "git.log", "git.branch", "git.diff_summary", "git.commit_message_proposal"] then
      ReadOnly(["read", "git.read"], 0.95)
    else if tool == "git.add" || tool == "git.commit" then Mutating(["git.write", "fs.write"], "write", 0.99)
    else if tool == "git.restore" then Mutating(["git.write", "fs.write", "code.modify"], "write", 0.99)
    else if tool == "git.clean" then Mutating(["fs.delete", "dangerous"], "danger", 0.99)
    else Unknown(0.2)
  }

  function InferKnowledge(p: Proposal): (r: Inference)
    ensures AsksOrReads(r)
  {
    var tool := p.tool;
    if tool in ["kb.search", "kb.retrieve", "kb.answer"] then ReadOnly(["kb.read"], 0.95)
    else if tool == "memory.search" then ReadOnly(["memory.read"], 0.95)
    else if tool == "memory.extract_candidates" then
      if Flag(p.input, "queue") then Mutating(["memory.review.write"], "write", 0.9) else ReadOnly(["memory.review"], 0.9)
    else if tool == "memory.detect_conflicts" || tool == "memory.merge_candidates" then ReadOnly(["memory.read"], 0.9)
    else if tool == "memory.patch" then Mutating(["fs.write", "memory.modify"], "write", 0.95)
    else if tool in ["memory.item_create", "memory.item_update", "memory.item_archive", "memory.item_restore", "memory.item_delete"] then
      Mutating(["fs.write", "memory.modify"], "write", 0.98)
    else Unknown(0.2)
  }

  // ---------- shell ----------

  function ClassifyGit(args: seq<string>): seq<string>
  {
    if args == [] || args[0] in ["status", "diff", "log", "show", "branch", "rev-parse"] then ["read", "git.read"]
    else ["git.write", "fs.write"]
  }

  function ClassifyPackage(command: string, args: seq<string>): seq<string>
  {
    var looks := ["read", "system.read"];
    var installs := ["package.install", "fs.write"];
    if args == [] then looks
    else if command == "go" then
      if args[0] == "get" || (args[0] == "mod" && |args| > 1 && args[1] == "tidy") then installs else looks
    else if "install" in args || "add" in args || "upgrade" in args || "remove" in args then installs
    else looks
  }

  function Upper(s: string): string
  {
    seq(|s|, k requires 0 <= k < |s| => if 'a' <= s[k] <= 'z' then (s[k] as int - 32) as char else s[k])
  }

  /** The first method flag that names a writing method decides. */
  function ClassifyNetwork(args: seq<string>): seq<string>
  {
    if |args| < 2 then ["read", "network.read"]
    else if args[0] == "-X" && Upper(args[1]) in ["POST", "PUT", "PATCH", "DELETE"] then
      var verb := Upper(args[1]);
      [if verb == "POST" then "network.post" else if verb == "PUT" then "network.put" else if verb == "PATCH" then "network.patch" else "network.delete"]
    else ClassifyNetwork(args[1..])
  }

  datatype ShellClass = ShellClass(effects: seq<string>, risk: Option<string>, confidence: real)

  /** What the first command of the line adds. */
  function ClassifyShell(first: string, rest: seq<string>, before: seq<string>): ShellClass
  {
    if first in ["ps", "pgrep", "top"] then ShellClass(["read", "process.read"], None, 0.9)
    else if first in ["uname", "uptime", "free", "df", "pwd", "whoami"] then ShellClass(["read", "system.read"], None, 0.9)
    else if first == "git" then Mutable(ClassifyGit(rest), before)
    else if first in ["cat", "less", "head", "tail", "ls", "find", "rg", "grep", "sed"] then
      if first == "sed" && "-i" in rest then ShellClass(["read", "code.read", "fs.write", "code.modify"], Some("write"), 0.9)
      else ShellClass(["read", "code.read"], None, 0.9)
    else if first == "rm" then ShellClass(["fs.delete"], Some("write"), 0.9)
    else if first in ["tee", "touch", "mkdir", "mv", "cp"] then ShellClass(["fs.write", "code.modify"], Some("write"), 0.9)
    else if first in ["go", "npm", "pnpm", "yarn", "pip", "apt", "brew"] then Mutable(ClassifyPackage(first, rest), before)
    else if first in ["curl", "wget"] then Mutable(ClassifyNetwork(rest), before)
    else if first == "sudo" then ShellClass(["privilege.escalate"], Some("danger"), 0.98)
    else ShellClass([UNKNOWN_EFFECT], Some("unknown"), 0.4)
  }

  /** The risk rises when anything found so far mutates. */
  function Mutable(effects: seq<string>, before: seq<string>): ShellClass
  {
    ShellClass(effects, if exists e :: e in before + effects && EffectRequiresApproval(e) then Some("write") else None, 0.9)
  }

  function ShellInference(site: Site, p: Proposal): Inference
  {
    var s := site.parse(Text(p.input, "command"));
    var touched := exists t :: t in s.targets && site.sensitivePath(t);
    var redirect := if s.writesRedirect then ["fs.write"] else [];
    var before := redirect + if touched then ["sensitive_read", "env_file.read"] else [];
    var risk := if touched then "sensitive" else if s.writesRedirect then "write" else "read";
    if s.segments == [] then Unknown(0.1)
    else
      var c := ClassifyShell(s.segments[0].name, s.segments[0].args, before);
      var effects := Uniq(before + c.effects + p.expected);
      Inference(effects, if c.risk.Some? then c.risk.value else risk, "sensitive_read" in effects, true, c.confidence, "shell")
  }

  method InferShell(site: Site, p: Proposal) returns (r: Inference)
    ensures r == ShellInference(site, p)
  {
    hide ClassifyShell, Uniq, Text;
    var s := site.parse(Text(p.input, "command"));
    var effects: seq<string> := [];
    var confidence := 0.9;
    var risk := "read";
    if s.writesRedirect {
      effects := effects + ["fs.write"];
      risk := "write";
    }
    var touched := ContainsSensitive(site, s.targets);
    if touched {
      effects := effects + ["sensitive_read", "env_file.read"];
      risk := "sensitive";
    }
    if s.segments == [] {
      return Unknown(0.1);
    }
    ghost var before := effects;
    assert before == (if s.writesRedirect then ["fs.write"] else []) + if touched then ["sensitive_read", "env_file.read"] else [];
    var c := ClassifyShell(s.segments[0].name, s.segments[0].args, effects);
    effects := effects + c.effects;
    confidence := c.confidence;
    if c.risk.Some? {
      risk := c.risk.value;
    }
    if p.expected != [] {
      effects := effects + p.expected;
    }
    assert effects == before + c.effects + p.expected;
    effects := UniqLoop(effects);
    r := Inference(effects, risk, "sensitive_read" in effects, true, confidence, "shell");
  }

  method ContainsSensitive(site: Site, paths: seq<string>) returns (found: bool)
    ensures found == exists t :: t in paths && site.sensitivePath(t)
  {
    var i := 0;
    while i < |paths|
      invariant 0 <= i <= |paths|
      invariant forall j :: 0 <= j < i ==> !site.sensitivePath(paths[j])
    {
      if site.sensitivePath(paths[i]) {
        return true;
      }
      i := i + 1;
    }
    found := false;
  }

  // ---------- MCP tools ----------

  /** minConfidence */
  function AtMost(current: real, limit: real): real
  {
    if current <= 0.0 || current > limit then limit else current
  }

  predicate SoundsSensitive(e: string) { Contains(e, "sensitive") || Contains(e, "env_file") }

  predicate SoundsDangerous(e: string)
  {
    Contains(e, "kill") || Contains(e, "restart") || Contains(e, "stop") || Contains(e, "escalate")
  }

  function McpStep(r: Inference, e: string): Inference
  {
    if e == UNKNOWN_EFFECT then
      r.(riskLevel := "unknown", approvalRequired := true, confidence := AtMost(r.confidence, 0.4))
    else if SoundsSensitive(e) then r.(riskLevel := "sensitive", sensitive := true, approvalRequired := true)
    else if SoundsDangerous(e) || Contains(e, "danger") then r.(riskLevel := "danger", approvalRequired := true)
    else if EffectRequiresApproval(e) then r.(riskLevel := "write", approvalRequired := true)
    else r
  }

  function McpFold(r: Inference, effects: seq<string>): Inference
  {
    if effects == [] then r else McpStep(McpFold(r, effects[..|effects| - 1]), effects[|effects| - 1])
  }

  function Declared(effects: seq<string>): seq<string> { if effects == [] then [UNKNOWN_EFFECT] else effects }

  function McpOpening(m: McpProfile): Inference
  {
    Inference(Declared(m.effects), if m.riskLevel == "" then "read" else m.riskLevel, false, m.requiresApproval,
              if m.confidence <= 0.0 then 0.4 else m.confidence, m.reason)
  }

  function McpProfileInference(m: McpProfile): Inference
  {
    var r := McpFold(McpOpening(m), Declared(m.effects));
    if m.approval == "require" then r.(approvalRequired := true) else r
  }

  /** None when the registry reports an error. */
  function McpInference(site: Site, p: Proposal): Option<Inference>
  {
    var server, tool := Text(p.input, "server_id"), Text(p.input, "tool_name");
    if server == "" || tool == "" || site.mcp.None? then Some(Unknown(0.3))
    else
      match site.mcp.value(server, tool)
      case None => None
      case Some(m) => Some(McpProfileInference(m))
  }

  method McpLoop(opening: Inference, effects: seq<string>) returns (result: Inference)
    ensures result == McpFold(opening, effects)
  {
    hide EffectRequiresApproval, SoundsSensitive, SoundsDangerous, Contains;
    result := opening;
    var i := 0;
    while i < |effects|
      invariant 0 <= i <= |effects|
      invariant result == McpFold(opening, effects[..i])
    {
      var effect := effects[i];
      assert effects[..i + 1][..i] == effects[..i];
      if effect == UNKNOWN_EFFECT {
        result := result.(riskLevel := "unknown", approvalRequired := true);
        result := result.(confidence := AtMost(result.confidence, 0.4));
      } else if SoundsSensitive(effect) {
        result := result.(riskLevel := "sensitive", sensitive := true, approvalRequired := true);
      } else if SoundsDangerous(effect) || Contains(effect, "danger") {
        result := result.(riskLevel := "danger", approvalRequired := true);
      } else if EffectRequiresApproval(effect) {
        result := result.(riskLevel := "write", approvalRequired := true);
      }
      i := i + 1;
    }
    assert effects[..|effects|] == effects;
  }

  method InferMcp(site: Site, p: Proposal) returns (r: Option<Inference>)
    ensures r == McpInference(site, p)
  {
    hide McpFold, Text;
    var server, tool := Text(p.input, "server_id"), Text(p.input, "tool_name");
    if server == "" || tool == "" || site.mcp.None? {
      return Some(Unknown(0.3));
    }
    var profile := site.mcp.value(server, tool);
    if profile.None? {
      return None;
    }
    var m := profile.value;
    var effects := m.effects;
    if effects == [] {
      effects := [UNKNOWN_EFFECT];
    }
    var result := Inference(effects, m.riskLevel, false, m.requiresApproval, m.confidence, m.reason);
    if result.riskLevel == "" {
      result := result.(riskLevel := "read");
    }
    if result.confidence <= 0.0 {
      result := result.(confidence := 0.4);
    }
    result := McpLoop(result, effects);
    if m.approval == "require" {
      result := result.(approvalRequired := true);
    }
    r := Some(result);
  }

  // ---------- skills ----------

  function SkillStep(r: Inference, e: string): Inference
  {
    if e == UNKNOWN_EFFECT then r.(riskLevel := "unknown", approvalRequired := true, confidence := 0.4)
    else if !EffectRequiresApproval(e) then r
    else if SoundsSensitive(e) then r.(approvalRequired := true, riskLevel := "sensitive", sensitive := true)
    else r.(approvalRequired := true, riskLevel := if SoundsDangerous(e) then "danger" else "write")
  }

  function SkillFold(r: Inference, effects: seq<string>): Inference
  {
    if effects == [] then r else SkillStep(SkillFold(r, effects[..|effects| - 1]), effects[|effects| - 1])
  }

  function SkillOpening(effects: seq<string>): Inference { Inference(effects, "read", false, false, 0.95, "skill") }

  /** The manifest's approval default and its sandbox have the last word. */
  function WithManifest(folded: Inference, s: SkillProfile): Inference
  {
    var asked := if s.approvalDefault == "require" then folded.(approvalRequired := true) else folded;
    if s.requiresApproval then asked.(approvalRequired := true, confidence := AtMost(asked.confidence, 0.6))
    else if s.willFallback then asked.(confidence := AtMost(asked.confidence, 0.7))
    else asked
  }

  function SkillProfileInference(s: SkillProfile): Inference
  {
    WithManifest(SkillFold(SkillOpening(Declared(s.effects)), Declared(s.effects)), s)
  }

  function SkillInference(site: Site, p: Proposal): Inference
  {
    var id := Text(p.input, "skill_id");
    if id == "" || site.skills.None? then Unknown(0.3)
    else
      match site.skills.value(id)
      case None => Unknown(0.3)
      case Some(s) => SkillProfileInference(s)
  }

  method SkillLoop(effects: seq<string>) returns (r: Inference)
    ensures r == SkillFold(SkillOpening(effects), effects)
  {
    hide EffectRequiresApproval, SoundsSensitive, SoundsDangerous;
    r := Inference(effects, "read", false, false, 0.95, "skill");
    var i := 0;
    while i < |effects|
      invariant 0 <= i <= |effects|
      invariant r == SkillFold(SkillOpening(effects), effects[..i])
    {
      var effect := effects[i];
      assert effects[..i + 1][..i] == effects[..i];
      i := i + 1;
      if effect == UNKNOWN_EFFECT {
        r := r.(riskLevel := "unknown", approvalRequired := true, confidence := 0.4);
      } else if EffectRequiresApproval(effect) {
        r := r.(approvalRequired := true);
        if SoundsSensitive(effect) {
          r := r.(riskLevel := "sensitive", sensitive := true);
          continue;
        }
        if SoundsDangerous(effect) {
          r := r.(riskLevel := "danger");
          continue;
        }
        r := r.(riskLevel := "write");
      }
    }
    assert effects[..|effects|] == effects;
  }

  method InferSkill(site: Site, p: Proposal) returns (r: Inference)
    ensures r == SkillInference(site, p)
  {
    hide SkillFold, Text;
    var id := Text(p.input, "skill_id");
    if id == "" || site.skills.None? {
      return Unknown(0.3);
    }
    var profile := site.skills.value(id);
    if profile.None? {
      return Unknown(0.3);
    }
    var s := profile.value;
    var effects := s.effects;
    if effects == [] {
      effects := [UNKNOWN_EFFECT];
    }
    r := SkillLoop(effects);
    if s.approvalDefault == "require" {
      r := r.(approvalRequired := true);
    }
    if s.requiresApproval {
      r := r.(approvalRequired := true, confidence := AtMost(r.confidence, 0.6));
    } else if s.willFallback {
      r := r.(confidence := AtMost(r.confidence, 0.7));
    }
  }

  // ---------- the inferrer ----------

  /** None when an MCP registry reports an error. */
  function Infer(site: Site, p: Proposal): Option<Inference>
  {
    if HasPrefix(p.tool, "ops.") then Some(InferOps(site, p))
    else if HasPrefix(p.tool, "runbook.") then Some(InferRunbook(p.tool))
    else if p.tool == "shell.exec" then Some(ShellInference(site, p))
    else if p.tool == "skill.run" then Some(SkillInference(site, p))
    else if p.tool == "mcp.call_tool" then McpInference(site, p)
    else if HasPrefix(p.tool, "code.") then Some(InferCode(site, p))
    else if HasPrefix(p.tool, "git.") then Some(InferGit(p.tool))
    else Some(InferKnowledge(p))
  }
}
