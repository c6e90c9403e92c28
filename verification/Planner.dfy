/** What the planner answers once a tool has run (internal/agent/planner.go), and the shape of its first
    answer (internal/agent/hybrid_planner.go). */
module Planner {
  import opened Base
  import opened Json
  import opened Types
  import opened Machine

  /** What the keyword tables find in a user message, and the workspace it names. */
  datatype Reading = Reading(workspace: string, runbook: bool, tests: bool, validate: bool, apply: bool)

  /** The tables and the formatting of values as text are arbitrary. */
  datatype Reader = Reader(read: string -> Reading, text: Value -> string)

  function Object(v: Value): GoMap { if v.Obj? then v else Null }

  datatype RunbookStep = RunbookStep(tool: string, input: GoMap)

  /** The first listed step that names a tool. */
  function FirstNamed(items: seq<Value>): Option<RunbookStep>
  {
    if items == [] then None
    else if items[0].Obj? && Text(items[0], "tool") != "" then
      Some(RunbookStep(Text(items[0], "tool"), CloneMap(Object(Field(items[0], "input")))))
    else FirstNamed(items[1..])
  }

  function FirstExecutableStep(result: ToolResult): Option<RunbookStep>
  {
    var plan := Field(result.output, "plan");
    if !plan.Obj? then None
    else
      var steps := Field(plan, "steps");
      if steps.Arr? then FirstNamed(steps.items) else None
  }

  function NewProposal(id: string, tool: string, input: GoMap, expected: seq<string>): Proposal
  {
    Proposal(id, tool, CloneMap(input), expected)
  }

  /** A plan to run one more tool, with a word to the user first. */
  function Ask(proposal: Proposal): Plan { Plan(DecideTool, false, true, "", Some(proposal)) }

  /** The texts of final messages are not represented. */
  const STOP := Plan(DecideStop, false, false, "", None)

  function RunTests(id: string, workspace: string): Plan
  {
    Ask(NewProposal(id, "code.run_tests",
                    Obj(map["workspace" := Str(workspace), "use_detected" := Bool(true), "timeout_seconds" := Int(300), "max_output_bytes" := Int(200000)]),
                    ["code.test", "process.read", "fs.read"]))
  }

  /** planAfterTool; `id` is the next generated call id. */
  function AfterTool(reader: Reader, id: string, input: PlanInput): Option<Plan>
  {
    if input.lastProposal.None? || input.lastResult.None? then None
    else
      var result := input.lastResult.value;
      var said := reader.read(input.userMessage);
      var tool := input.lastProposal.value.tool;
      if tool == "runbook.plan" then
        if !said.runbook then Some(STOP)
        else
          match FirstExecutableStep(result)
          case None => Some(STOP)
          case Some(step) => Some(Ask(NewProposal(id, step.tool, step.input, [])))
      else if tool == "code.run_tests" then
        if Field(result.output, "passed") == Bool(true) then Some(STOP)
        else
          Some(Ask(NewProposal(id, "code.parse_test_failure",
                               Obj(map["workspace" := Str(said.workspace),
                                       "command" := Str(reader.text(Field(result.output, "command"))),
                                       "stdout" := Str(reader.text(Field(result.output, "stdout"))),
                                       "stderr" := Str(reader.text(Field(result.output, "stderr"))),
                                       "exit_code" := Field(result.output, "exit_code")]),
                               ["code.read"])))
      else if tool == "code.fix_test_failure_loop" || tool == "code.parse_test_failure" then Some(STOP)
      else if tool == "code.read_file" then
        var diff := Obj(map["diff" := Field(result.output, "content")]);
        if said.validate then Some(Ask(NewProposal(id, "code.validate_patch", diff, ["code.plan"])))
        else if said.apply then Some(Ask(NewProposal(id, "code.apply_patch", diff, ["fs.write", "code.modify"])))
        else None
      else if tool == "code.inspect_project" then
        if said.tests then Some(RunTests(id, said.workspace)) else None
      else if tool == "code.apply_patch" then
        if said.workspace != "." || said.tests then Some(RunTests(id, said.workspace)) else None
      else None
  }

  /** Both planners answer a tool result from the table, or stop. */
  function PlanAfter(reader: Reader, id: string, input: PlanInput): Plan
  {
    match AfterTool(reader, id, input)
    case Some(plan) => plan
    case None => STOP
  }

  /** What the first-pass engine compiles: a tool call, possibly without a proposal, or an answer. */
  datatype Compiled = CompiledTool(proposal: Option<Proposal>, preamble: bool) | CompiledAnswer(runner: bool, message: string)

  function ToPlan(compiled: Compiled): Plan
  {
    match compiled
    case CompiledTool(proposal, preamble) =>
      Plan(DecideTool, false, preamble, "", if proposal.Some? then Some(CloneProposal(proposal.value)) else None)
    case CompiledAnswer(runner, message) => Plan(DecideAnswer, runner, false, message, None)
  }

  // ---------- the ranking ----------

  /** How many more planner calls can follow a result of this tool. */
  function CallsAfter(tool: string): nat
  {
    if tool == "runbook.plan" then 5
    else if tool == "code.read_file" then 4
    else if tool == "code.apply_patch" || tool == "code.inspect_project" then 3
    else if tool == "code.run_tests" then 2
    else 1
  }

  function CallsLeft(proposal: Option<Proposal>): nat
  {
    if proposal.None? then 1 else CallsAfter(proposal.value.tool)
  }

  /** The result does not send a runbook back to itself. */
  predicate NoSelfReference(result: ToolResult)
  {
    var step := FirstExecutableStep(result);
    step.Some? ==> step.value.tool != "runbook.plan"
  }

  /** Whatever the user wrote and whatever the tool returned, the next tool is strictly lower in the
      ranking, or there is none. */
  lemma RankFalls(reader: Reader, id: string, input: PlanInput)
    requires input.lastResult.Some? && NoSelfReference(input.lastResult.value)
    ensures var plan := PlanAfter(reader, id, input);
      && (plan.decision == DecideStop || (plan.decision == DecideTool && plan.proposal.Some?))
      && (plan.decision == DecideTool ==> CallsAfter(plan.proposal.value.tool) < CallsLeft(input.lastProposal))
  {
    hide FirstExecutableStep, CloneMap;
  }

  predicate LeadsTo(result: ToolResult, tool: string)
  {
    var step := FirstExecutableStep(result);
    step.Some? && step.value.tool == tool
  }

  /** The ranking is exact: from every rank one message and suitable results lead to the next lower one, from
      a runbook whose first step reads a file down to the parsed test failure. */
  lemma RankIsTight(reader: Reader, id: string, input: PlanInput)
    requires input.lastResult.Some? && input.lastProposal.Some?
    requires var said := reader.read(input.userMessage); said.apply && said.tests && !said.validate && said.runbook
    requires input.lastProposal.value.tool in {"code.read_file", "code.apply_patch", "code.inspect_project"}
          || (input.lastProposal.value.tool == "runbook.plan" && LeadsTo(input.lastResult.value, "code.read_file"))
          || (input.lastProposal.value.tool == "code.run_tests" && Field(input.lastResult.value.output, "passed") != Bool(true))
    ensures var plan := PlanAfter(reader, id, input);
      plan.decision == DecideTool && plan.proposal.Some? && CallsAfter(plan.proposal.value.tool) == CallsLeft(input.lastProposal) - 1
  {
    hide FirstExecutableStep, CloneMap;
  }
}
