/** What the gateway, the router and the state store share. */
module ExecutionModels {
  datatype ExecutionStatus = Submitted | Accepted | Filled | Canceled | Rejected | Skipped | Failed
}
