/** The `ping` worker function: report the state of the worker's identity lock. */
module Ping {

  import opened Wrappers
  import opened Identity

  const Failed := "Failed to query identity"
  const ValidLock := "valid identity lock"
  const InvalidLock := "invalid identity lock"

  /**
   * The reply for the outcome of `get_identity`: an error, or a claim
   * together with its `valid` flag.
   */
  function PingReply(outcome: Result<bool, ClaimError>): (reply: string)
    ensures reply == Failed || reply == ValidLock || reply == InvalidLock
    ensures reply == Failed <==> outcome.Err?
    ensures reply == ValidLock <==> outcome.Ok? && outcome.value
    ensures reply == InvalidLock <==> outcome.Ok? && !outcome.value
  {
    match outcome
    case Err(_) => Failed
    case Ok(valid) => if valid then ValidLock else InvalidLock
  }

  /**
   * `ping` against the worker's identity manager. The only state it touches is
   * through `get_identity`, and since `get_identity` never hands out a claim
   * whose lock is invalid, the "invalid identity lock" reply cannot occur.
   */
  method PingWorker(manager: IdentityManager) returns (reply: string)
    requires manager.Valid()
    modifies manager, manager.lockManager
    ensures manager.Valid()
    ensures reply != InvalidLock
    ensures reply == Failed <==> manager.current == null
    ensures reply == ValidLock <==> manager.current != null && manager.current.lockValid
  {
    var r := manager.GetIdentity();
    var outcome: Result<bool, ClaimError> := match r
      case Ok(claim) => Ok(claim.IsValid())
      case Err(e) => Err(e);
    reply := PingReply(outcome);
  }
}
