/** The action a human decides on, and its hash (core/approvals/approvals.go:19-31, 174-184). SHA-256 over
    canonical bytes is an injective constructor. Identifier 0 stands for the empty string. */
module ToolActions {
  import opened Prelude

  type Id = nat

  datatype ToolAction = ToolAction(
    org: Id, job: Option<Id>, workspace: Id, channel: Id, thread: Id, tool: Id, toolVersion: Id, operation: Id,
    arguments: seq<(string, string)>, destination: Id, risk: Id)

  datatype Hash = Sha(action: ToolAction)

  /** None when the action is incomplete. */
  function HashAction(action: ToolAction): (r: Option<Hash>) {
    if 0 in {action.org, action.tool, action.toolVersion, action.operation, action.destination, action.risk}
    then None else Some(Sha(action))
  }
}
