/** What replaces an interrupted task (policies/recovery.py). */
module Recovery {
  import opened Types
  import opened TorchEngine

  datatype RecoveryPolicy =
    | DefaultRecovery(maxRetries: int)
    | TokenRecovery(maxRetries: int, resumeNode: Option<NodeId>)

  const DEFAULT_MAX_TOKENS := 64

  function ResumeNode(policy: RecoveryPolicy, original: NodeId): NodeId {
    match policy
    case DefaultRecovery(_) => original
    case TokenRecovery(_, resume) => if resume.Some? && resume.value != "" then resume.value else original
  }

  /** Only token recovery goes on from the tokens already committed. */
  function ResumePoint<H>(policy: RecoveryPolicy, t: Task<H>): int {
    match policy
    case DefaultRecovery(_) => 0
    case TokenRecovery(_, _) => t.progressTokens
  }

  /** recover: a fresh task for the same range, or none once the retries are used up.
      The fresh task carries neither the prompt nor the epoch of the one it replaces. */
  function Recovered<H>(policy: RecoveryPolicy, t: Task<H>, freshId: nat): (r: Option<Task<H>>)
    ensures r.Some? <==> t.retries < policy.maxRetries
    ensures r.Some? ==>
      && r.value.requestId == t.requestId && r.value.layerRange == t.layerRange
      && r.value.nodeId == (if policy.TokenRecovery? && policy.resumeNode.Some? && policy.resumeNode.value != ""
                            then policy.resumeNode.value else t.nodeId)
      && r.value.kvBlockIds == t.kvBlockIds
      && r.value.progressTokens == if policy.TokenRecovery? then t.progressTokens else 0
    ensures r.Some? ==> r.value.epoch == 0 && r.value.prompt == None && r.value.retries == t.retries + 1
    ensures r.Some? ==> r.value.maxTokens == 64 && r.value.stageIndex == 0 && r.value.stageCount == 1 && r.value.activation == None
  {
    if t.retries >= policy.maxRetries then None
    else Some(Task(freshId, t.requestId, ResumeNode(policy, t.nodeId), t.layerRange,
                   None, DEFAULT_MAX_TOKENS, 0, 1, 0, None, t.retries + 1, t.kvBlockIds, ResumePoint(policy, t)))
  }
}
