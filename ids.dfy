/** The identifiers both the coordinator and the team use: plain strings. */
module Ids {
  type AgentId = string
  type TaskId = string
}
