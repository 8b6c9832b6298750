/** How handler results travel back to the caller: a handler's error reaches it in place of the reply. */
module Rpc {
  import opened Types
  import S = NodeSpec

  /** The server's answer to an append: the reply it fills in, and whether it returns an error beside it. */
  datatype ServerAnswer = ServerAnswer(success: bool, term: nat, isError: bool)

  function ServerReply(n: S.Node, accepted: bool): ServerAnswer {
    ServerAnswer(accepted, n.currentTerm, !accepted)
  }

  /** A returned error hides the reply from the caller. */
  function ClientView(a: ServerAnswer): AppendReply {
    if a.isError then NoReply else Reply(a.success, a.term)
  }

  /** No answer of a server reaches the caller as a reply without success. */
  lemma RefusalIsError(n: S.Node, accepted: bool)
    ensures ClientView(ServerReply(n, accepted)) == (if accepted then Reply(true, n.currentTerm) else NoReply)
  {
  }
}
