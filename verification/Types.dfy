/** The records the workflow engine passes around (internal/core/types.go). Free text that no
    decision reads (summaries, explanations, purposes, timestamps) is not represented. */
module Types {
  import opened Base
  import opened Json

  datatype Proposal = Proposal(id: string, tool: string, input: GoMap, expected: seq<string>)

  datatype ToolResult = ToolResult(callID: string, output: GoMap, error: string)

  datatype Inference = Inference(
    effects: seq<string>,
    riskLevel: string,
    sensitive: bool,
    approvalRequired: bool,
    confidence: real,
    reason: string)

  datatype DecisionName = AutoExecute | Deny | ApprovalRequired

  datatype Decision = Decision(
    allowed: bool,
    requiresApproval: bool,
    riskLevel: string,
    reason: string,
    profile: string,
    traceName: DecisionName)

  datatype ApprovalStatus = Pending | Approved | Rejected

  datatype Record = Record(
    id: Id,
    runID: Id,
    proposal: Proposal,
    inference: Inference,
    decision: Decision,
    snapshot: GoMap,
    hash: Digest,
    status: ApprovalStatus,
    reason: string)

  function CloneProposal(p: Proposal): Proposal { p.(input := CloneMap(p.input)) }

  function CloneResult(r: ToolResult): ToolResult { r.(output := CloneMap(r.output)) }

  function CloneRecord(r: Record): Record
  {
    r.(proposal := r.proposal.(input := CloneMap(r.proposal.input)), snapshot := CloneMap(r.snapshot))
  }
}
