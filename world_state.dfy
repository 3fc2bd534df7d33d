/**
 * The mined chain as the query layer sees it, and the transaction
 * processor's point-in-time views of it.
 */
module WorldState {
  import opened Wrappers
  import opened Bytes
  import opened Context

  datatype TransactionMessage = TransactionMessage(
    from: Address,
    to: Option<Address>,
    value: int,
    gasPrice: int,
    gasLimit: int,
    data: seq<Byte>,
    nonce: int,
    hash: seq<Byte>)

  datatype TransactionResult = TransactionResult(
    returnData: seq<Byte>,
    logs: seq<Log>,
    gasUsed: int,
    success: bool)

  datatype MinedTransaction = MinedTransaction(message: TransactionMessage, result: TransactionResult)

  datatype MinedBlock = MinedBlock(block: Block, hash: seq<Byte>, transactions: seq<MinedTransaction>)

  /** The chain of mined blocks, oldest first. */
  datatype WorldState = WorldState(blocks: seq<MinedBlock>)

  /**
   * The views StatefulTransactionProcessor offers: the current, pending and
   * earliest states, and the state as of a given block number if it exists.
   */
  datatype TransactionProcessor = TransactionProcessor(
    worldState: WorldState,
    pendingWorldState: WorldState,
    earliestWorldState: WorldState,
    worldStateAtBlock: int -> Option<WorldState>)

  function Last<T>(s: seq<T>): T
    requires s != []
  {
    s[|s| - 1]
  }
}
