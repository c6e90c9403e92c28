/** The approval store: records with an immutable input snapshot and its hash, resolved at most once
    (internal/agent/approval.go). */
module Approvals {
  import opened Base
  import opened Json
  import opened Types

  // ---------- the stored snapshot ----------

  /** The strings of a list; anything else in it is skipped. */
  function StringItems(items: seq<Value>): (r: seq<string>)
  {
    if items == [] then []
    else if items[0].Str? then [items[0].s] + StringItems(items[1..])
    else StringItems(items[1..])
  }

  function StringSlice(raw: Value): seq<string>
  {
    match raw
    case Strings(ss) => ss
    case Arr(items) => StringItems(items)
    case _ => []
  }

  function WithPathspec(args: seq<string>, paths: seq<string>): seq<string>
  {
    if paths == [] then args else args + ["--"] + paths
  }

  function Lookup(m: map<string, Value>, key: string): Value
  {
    if key in m then m[key] else Null
  }

  const KNOWN_GIT_OPERATIONS: set<string> :=
    {"status", "diff", "log", "branch", "add", "commit", "restore", "clean"}

  /** The command line a git operation stands for; empty for an operation the store does not know. */
  function GitArgs(operation: string, input: map<string, Value>): (r: seq<string>)
    ensures r != [] <==> operation in KNOWN_GIT_OPERATIONS
  {
    var paths := StringSlice(Lookup(input, "paths"));
    if operation == "status" then WithPathspec(["status", "--short", "--branch"], paths)
    else if operation == "diff" then WithPathspec(["diff"], paths)
    else if operation == "log" then ["log", "--oneline", "-n", "20"]
    else if operation == "branch" then ["branch", "--show-current"]
    else if operation == "add" then WithPathspec(["add"], paths)
    else if operation == "commit" then
      var message := Lookup(input, "message");
      ["commit", "-m", if message.Str? then message.s else ""]
    else if operation == "restore" then WithPathspec(["restore"], paths)
    else if operation == "clean" then WithPathspec(["clean", "-fd"], paths)
    else []
  }

  function AnyStrings(ss: seq<string>): Value
  {
    Arr(seq(|ss|, k requires 0 <= k < |ss| => Str(ss[k])))
  }

  function GitCommand(args: seq<string>): Value { Str("git " + Join(args, " ")) }

  function GitNormal(operation: string, input: map<string, Value>): map<string, Value>
  {
    var args := GitArgs(operation, input);
    var derived := if args != [] then input["args" := AnyStrings(args)]["command" := GitCommand(args)] else input;
    if "workspace" in derived then derived else derived["workspace" := Str(".")]
  }

  /** The snapshot an approval is requested for: a copy of the input in which a known git operation's
      `args` and `command` are recomputed and a git tool's workspace defaults to ".". */
  function NormalizedInput(p: Proposal): (r: GoMap)
    ensures r.Obj?
  {
    var snapshot := CloneMap(p.input).fields;
    Obj(if HasPrefix(p.tool, "git.") then GitNormal(TrimPrefix(p.tool, "git."), snapshot) else snapshot)
  }

  // ---------- what normalization promises ----------

  lemma StringItemsCanon(items: seq<Value>)
    ensures StringItems(seq(|items|, k requires 0 <= k < |items| => Canon(items[k]))) == StringItems(items)
  {
    if items != [] {
      var mapped := seq(|items|, k requires 0 <= k < |items| => Canon(items[k]));
      assert mapped[1..] == seq(|items[1..]|, k requires 0 <= k < |items[1..]| => Canon(items[1..][k]));
      StringItemsCanon(items[1..]);
    }
  }

  lemma StringItemsOfStrings(ss: seq<string>)
    ensures StringItems(AnyStrings(ss).items) == ss
  {
    if ss != [] {
      assert AnyStrings(ss).items[1..] == AnyStrings(ss[1..]).items;
      StringItemsOfStrings(ss[1..]);
    }
  }

  lemma StringSliceCanon(v: Value)
    ensures StringSlice(Canon(v)) == StringSlice(v)
  {
    match v
    case Strings(ss) => StringItemsOfStrings(ss);
    case Arr(items) => StringItemsCanon(items);
    case _ =>
  }

  lemma GitArgsOfCopy(operation: string, input: GoMap)
    requires input.Obj?
    ensures GitArgs(operation, CloneMap(input).fields) == GitArgs(operation, input.fields)
  {
    if Marshalable(input) {
      var copy := CloneMap(input).fields;
      assert forall key :: Lookup(copy, key) == Canon(Lookup(input.fields, key));
      StringSliceCanon(Lookup(input.fields, "paths"));
      assert Lookup(copy, "message").Str? == Lookup(input.fields, "message").Str?;
    }
  }

  /** Only the paths and the message enter the command line, and normalization leaves them alone. */
  lemma GitArgsStay(operation: string, input: map<string, Value>)
    ensures GitArgs(operation, GitNormal(operation, input)) == GitArgs(operation, input)
  {
    var n := GitNormal(operation, input);
    assert Lookup(n, "paths") == Lookup(input, "paths");
    assert Lookup(n, "message") == Lookup(input, "message");
    hide GitNormal;
  }

  /** Where a map already holds what normalization derives, it stays as it is. */
  lemma GitNormalHolds(operation: string, m: map<string, Value>)
    requires "workspace" in m
    requires var args := GitArgs(operation, m);
      args != [] ==> "args" in m && m["args"] == AnyStrings(args) && "command" in m && m["command"] == GitCommand(args)
    ensures GitNormal(operation, m) == m
  {
    hide GitArgs, GitCommand, AnyStrings;
  }

  lemma CopiedField(m: map<string, Value>, key: string)
    ensures key in m <==> key in CloneMap(Obj(m)).fields
    ensures key in m && Canonical(m[key]) ==> CloneMap(Obj(m)).fields[key] == m[key]
  {
    if key in m && Canonical(m[key]) { CanonicalIsFixed(m[key]); }
  }

  lemma GitNormalOfCopy(operation: string, input: map<string, Value>)
    ensures var copy := CloneMap(Obj(GitNormal(operation, input))).fields; GitNormal(operation, copy) == copy
  {
    var n, args := GitNormal(operation, input), GitArgs(operation, input);
    var copy := CloneMap(Obj(n)).fields;
    GitArgsOfCopy(operation, Obj(n));
    GitArgsStay(operation, input);
    CopiedField(n, "args");
    CopiedField(n, "command");
    CopiedField(n, "workspace");
    assert Canonical(AnyStrings(args)) && Canonical(GitCommand(args));
    hide CloneMap, GitArgs, Canonical, AnyStrings, GitCommand;
    GitNormalHolds(operation, copy);
  }

  /** Normalizing a snapshot again only copies it, whatever the tool and the input: the derived
      `args`, `command` and `workspace` are a fixed point. */
  lemma NormalizationIdempotent(p: Proposal)
    ensures NormalizedInput(p.(input := NormalizedInput(p))) == CloneMap(NormalizedInput(p))
  {
    hide CloneMap, GitNormal;
    GitNormalOfCopy(TrimPrefix(p.tool, "git."), CloneMap(p.input).fields);
  }

  /** For the known git operations the recorded command line is a function of the operation, the paths
      and the message alone: whatever `args` or `command` the caller supplied is discarded. */
  lemma GitCommandIgnoresCaller(p: Proposal, q: Proposal)
    requires p.tool == q.tool && HasPrefix(p.tool, "git.")
    requires TrimPrefix(p.tool, "git.") in KNOWN_GIT_OPERATIONS
    requires StringSlice(Lookup(Fields(p.input), "paths")) == StringSlice(Lookup(Fields(q.input), "paths"))
    requires Lookup(Fields(p.input), "message") == Lookup(Fields(q.input), "message")
    ensures Lookup(NormalizedInput(p).fields, "args") == Lookup(NormalizedInput(q).fields, "args")
    ensures Lookup(NormalizedInput(p).fields, "command") == Lookup(NormalizedInput(q).fields, "command")
    ensures Lookup(NormalizedInput(p).fields, "args").Arr?
    ensures StringSlice(Lookup(NormalizedInput(p).fields, "args"))
         == GitArgs(TrimPrefix(p.tool, "git."), Fields(p.input))
  {
    var operation := TrimPrefix(p.tool, "git.");
    ArgsOfNormalized(p);
    ArgsOfNormalized(q);
    if operation != "commit" {
      assert GitArgs(operation, Fields(p.input)) == GitArgs(operation, Fields(q.input));
    }
  }

  lemma ArgsOfNormalized(p: Proposal)
    requires HasPrefix(p.tool, "git.") && TrimPrefix(p.tool, "git.") in KNOWN_GIT_OPERATIONS
    ensures NormalizedInput(p).fields["args"] == AnyStrings(GitArgs(TrimPrefix(p.tool, "git."), Fields(p.input)))
    ensures NormalizedInput(p).fields["command"]
         == Str("git " + Join(GitArgs(TrimPrefix(p.tool, "git."), Fields(p.input)), " "))
    ensures StringSlice(NormalizedInput(p).fields["args"]) == GitArgs(TrimPrefix(p.tool, "git."), Fields(p.input))
  {
    var args := GitArgs(TrimPrefix(p.tool, "git."), Fields(p.input));
    if p.input.Obj? {
      GitArgsOfCopy(TrimPrefix(p.tool, "git."), p.input);
    }
    StringItemsOfStrings(args);
  }

  // ---------- records ----------

  /** The record Create stores, or None when the snapshot cannot be hashed. */
  function Draft(id: Id, runID: Id, p: Proposal, inference: Inference, decision: Decision): Option<Record>
  {
    var snapshot := NormalizedInput(p);
    match HashMap(snapshot)
    case None => None
    case Some(hash) =>
      Some(Record(id, runID, p.(input := CloneMap(snapshot)), inference, decision, snapshot, hash, Pending, ""))
  }

  function Resolved(r: Record, approve: bool, reason: string): Record
  {
    r.(status := if approve then Approved else Rejected, reason := reason)
  }

  predicate HashVerifies(r: Record) { HashMap(r.snapshot) == Some(r.hash) }

  /** SnapshotMatches: same tool, and inputs equal as canonical JSON. */
  predicate Matches(r: Record, p: Proposal)
  {
    r.proposal.tool == p.tool && MapsEqual(CloneMap(r.snapshot), p.input)
  }

  /** A record belongs to what was proposed: its snapshot is the normalized input, its hash verifies,
      before and after any copy, and it matches its own proposal. It matches the proposal as the planner
      wrote it, for a tool outside git, exactly when that input is an object JSON accepts. */
  lemma DraftIsSound(id: Id, runID: Id, p: Proposal, inference: Inference, decision: Decision)
    requires Draft(id, runID, p, inference, decision).Some?
    ensures var r := Draft(id, runID, p, inference, decision).value;
      && HashVerifies(r) && HashVerifies(CloneRecord(r)) && CloneRecord(CloneRecord(r)) == CloneRecord(r)
      && Canonical(CloneRecord(r).snapshot) && CloneRecord(r).proposal.input == CloneRecord(r).snapshot
      && Matches(r, r.proposal)
      && (!HasPrefix(p.tool, "git.") ==> (Matches(r, p) <==> Marshalable(p.input) && p.input.Obj?))
  {
    var r := Draft(id, runID, p, inference, decision).value;
    CloneIdempotent(r.snapshot);
    CanonIsCanonical(r.snapshot);
    CanonicalIsFixed(CloneMap(r.snapshot));
    CloneIdempotent(p.input);
    if Marshalable(p.input) && p.input.Obj? {
      CanonIsCanonical(p.input);
      CanonicalIsFixed(CloneMap(p.input));
    }
  }

  // ---------- the store ----------

  class ApprovalCenter {
    var approvals: map<Id, Record>

    constructor ()
      ensures approvals == map[]
    {
      approvals := map[];
    }

    /** `id` is the next value of the identifier generator. */
    method Create(id: Id, runID: Id, p: Proposal, inference: Inference, decision: Decision)
      returns (created: Option<Record>)
      modifies this
      ensures created == (match Draft(id, runID, p, inference, decision)
                          case None => None case Some(r) => Some(CloneRecord(r)))
      ensures approvals == (match Draft(id, runID, p, inference, decision)
                            case None => old(approvals) case Some(r) => old(approvals)[id := r])
    {
      var snapshot := NormalizedInput(p);
      var hash := HashMap(snapshot);
      if hash.None? {
        return None;
      }
      var stored := p.(input := CloneMap(snapshot));
      var record := Record(id, runID, stored, inference, decision, snapshot, hash.value, Pending, "");
      approvals := approvals[record.id := record];
      created := Some(CloneRecord(record));
    }

    method Get(id: Id) returns (found: Option<Record>)
      ensures found == if id in approvals then Some(CloneRecord(approvals[id])) else None
    {
      if id !in approvals {
        return None;
      }
      found := Some(CloneRecord(approvals[id]));
    }

    /** All unresolved approvals: each pending record once, and nothing else. */
    method AllPending() returns (items: set<Record>)
      ensures forall r :: r in items <==> exists id :: id in approvals && approvals[id].status == Pending && r == CloneRecord(approvals[id])
    {
      items := {};
      var ids := approvals.Keys;
      while ids != {}
        invariant ids <= approvals.Keys
        invariant forall r :: r in items <==> exists id :: id in approvals.Keys - ids && approvals[id].status == Pending && r == CloneRecord(approvals[id])
        decreases |ids|
      {
        var id :| id in ids;
        ids := ids - {id};
        if approvals[id].status == Pending {
          items := items + {CloneRecord(approvals[id])};
        }
      }
    }

    /** Approve and Reject are this with the verdict fixed. */
    method Resolve(id: Id, approve: bool, reason: string) returns (resolved: Option<Record>)
      modifies this
      ensures resolved == Resolution(old(approvals), id, approve, reason)
      ensures approvals == Settle(old(approvals), id, approve, reason)
    {
      if id !in approvals {
        return None;
      }
      var record := approvals[id];
      if record.status != Pending {
        return None;
      }
      record := record.(reason := reason);
      if approve {
        record := record.(status := Approved);
      } else {
        record := record.(status := Rejected);
      }
      approvals := approvals[id := record];
      resolved := Some(CloneRecord(record));
    }

    /** Hydrate does not look at what is stored already: it overwrites. */
    method Hydrate(record: Record) returns (ok: bool)
      modifies this
      ensures ok <==> record.id != NO_ID
      ensures approvals == if ok then old(approvals)[record.id := CloneRecord(record)] else old(approvals)
    {
      if record.id == NO_ID {
        return false;
      }
      approvals := approvals[record.id := CloneRecord(record)];
      ok := true;
    }

    method VerifySnapshotHash(id: Id) returns (ok: bool)
      ensures ok <==> id in approvals && HashVerifies(approvals[id])
    {
      if id !in approvals {
        return false;
      }
      var hash := HashMap(approvals[id].snapshot);
      ok := hash.Some? && hash.value == approvals[id].hash;
    }

    method SnapshotMatches(id: Id, p: Proposal) returns (matches: Option<bool>)
      ensures matches == if id in approvals then Some(Matches(approvals[id], p)) else None
    {
      var record := Get(id);
      if record.None? {
        return None;
      }
      if record.value.proposal.tool != p.tool {
        return Some(false);
      }
      matches := Some(MapsEqual(record.value.snapshot, p.input));
    }
  }

  /** What resolve returns: the settled record, only when there was a pending one. */
  function Resolution(m: map<Id, Record>, id: Id, approve: bool, reason: string): Option<Record>
  {
    if id in m && m[id].status == Pending then Some(CloneRecord(Resolved(m[id], approve, reason))) else None
  }

  function Settle(m: map<Id, Record>, id: Id, approve: bool, reason: string): map<Id, Record>
  {
    if id in m && m[id].status == Pending then m[id := Resolved(m[id], approve, reason)] else m
  }

  /** Resolving is a compare-and-set: after one resolution succeeds, no later attempt on the same
      approval succeeds or changes anything, whichever way it goes. */
  lemma ResolveOnce(m: map<Id, Record>, id: Id, approve: bool, reason: string, again: bool, why: string)
    requires Resolution(m, id, approve, reason).Some?
    ensures var after := Settle(m, id, approve, reason);
      && Resolution(after, id, again, why) == None
      && Settle(after, id, again, why) == after
      && after - {id} == m - {id}
      && (after[id].status == Approved <==> approve)
  {}
}
