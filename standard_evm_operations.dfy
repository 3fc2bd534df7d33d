/**
 * The query layer over the world state: parsing block references, and
 * selecting, counting and indexing the mined blocks, transactions and logs.
 */
module StandardEvmOperations {
  import opened Wrappers
  import opened Bytes
  import opened Context
  import opened WorldState
  import opened Seqs
  import opened Conversions

  datatype BlockReference = NumericBlock(number: int) | LatestBlock | PendingBlock | EarliestBlock

  /** CategorisedKevemException: a message and a JSON-RPC error code. */
  datatype RpcError = RpcError(message: string, code: int)

  /** JSON-RPC "invalid params". */
  const InvalidParams: int := -32602

  /** The pattern ^0x[0-9a-faA-F]+$. */
  predicate IsHexBlockNumber(s: string)
  {
    StartsWith0x(s) && |s| > 2 && forall i :: 2 <= i < |s| ==> IsHexDigit(s[i])
  }

  // ---------------------------------------------------------------------
  // BlockReference.fromString
  // ---------------------------------------------------------------------

  function FromString(blockValue: Option<string>): (r: Result<BlockReference, RpcError>)
    ensures r == Ok(LatestBlock) <==> blockValue in {None, Some("latest"), Some("")}
    ensures r == Ok(PendingBlock) <==> blockValue == Some("pending")
    ensures r == Ok(EarliestBlock) <==> blockValue == Some("earliest")
    ensures (r.Ok? && r.value.NumericBlock?) <==> blockValue.Some? && IsHexBlockNumber(blockValue.value)
    ensures r.Ok? && r.value.NumericBlock? ==> r.value.number >= 0
    ensures r.Err? ==> r.error.code == InvalidParams
    ensures r.Err? ==>
              (r.error.message == "Invalid block number - missing 0x prefix" <==> !StartsWith0x(blockValue.value))
    ensures r.Err? && StartsWith0x(blockValue.value) ==> r.error.message == "Invalid block number"
  {
    match blockValue
    case None => Ok(LatestBlock)
    case Some(v) =>
      if v == "latest" || v == "" then assert v == "" || v[0] == 'l'; Ok(LatestBlock)
      else if v == "pending" then assert v[0] == 'p'; Ok(PendingBlock)
      else if v == "earliest" then assert v[0] == 'e'; Ok(EarliestBlock)
      else if !StartsWith0x(v) then Err(RpcError("Invalid block number - missing 0x prefix", InvalidParams))
      else if !IsHexBlockNumber(v) then Err(RpcError("Invalid block number", InvalidParams))
      else
        HexDigitsAreDigits(v[2..]);
        Ok(NumericBlock(HexValue(v[2..])))
  }

  /** A well-formed numeric reference parses to the value of its hex digits. */
  lemma FromStringNumeric(s: string)
    requires IsHexBlockNumber(s)
    ensures AllDigits(s[2..], 16)
    ensures FromString(Some(s)) == Ok(NumericBlock(HexValue(s[2..])))
  {
    HexDigitsAreDigits(s[2..]);
  }

  /** Writing n in hex after "0x" and parsing it gives back n. */
  lemma FromStringRoundTrip(n: nat)
    ensures FromString(Some("0x" + ToDigits(n, 16))) == Ok(NumericBlock(n))
  {
    var d := ToDigits(n, 16);
    var s := "0x" + d;
    assert s[..2] == "0x" && s[2..] == d;
    HexDigitsAreDigits(d);
    FromStringNumeric(s);
  }

  // ---------------------------------------------------------------------
  // Transactions sent from an address
  // ---------------------------------------------------------------------

  const TransactionsOf: MinedBlock -> seq<MinedTransaction> := (b: MinedBlock) => b.transactions

  function SentFrom(address: Address): MinedTransaction -> bool
  {
    (t: MinedTransaction) => t.message.from == address
  }

  function NumberAtMost(n: int): MinedBlock -> bool
  {
    (b: MinedBlock) => b.block.number <= n
  }

  function NumberAtLeast(n: int): MinedBlock -> bool
  {
    (b: MinedBlock) => b.block.number >= n
  }

  const EveryBlock: MinedBlock -> bool := (_: MinedBlock) => true

  /** getTransactions: the transactions sent from address in the blocks the reference selects. */
  function GetTransactions(address: Address, block: BlockReference, ws: WorldState): (r: seq<MinedTransaction>)
    requires block.EarliestBlock? ==> ws.blocks != []
    ensures forall i :: 0 <= i < |r| ==> r[i].message.from == address
  {
    match block
    case LatestBlock => Filter(FlatMap(ws.blocks, TransactionsOf), SentFrom(address))
    case EarliestBlock => Filter(ws.blocks[0].transactions, SentFrom(address))
    case NumericBlock(n) =>
      Filter(FlatMap(Filter(ws.blocks, NumberAtMost(n)), TransactionsOf), SentFrom(address))
    case PendingBlock => Filter(FlatMap(ws.blocks, TransactionsOf), SentFrom(address))
  }

  /**
   * Reference definition, block by block in chain order: the transactions
   * sent from address in the blocks that `keep` selects.
   */
  function SentInBlocks(blocks: seq<MinedBlock>, address: Address, keep: MinedBlock -> bool): seq<MinedTransaction>
  {
    if blocks == [] then []
    else (if keep(blocks[0]) then Filter(blocks[0].transactions, SentFrom(address)) else [])
         + SentInBlocks(blocks[1..], address, keep)
  }

  /** The filter / flatMap / filter pipeline computes the block-by-block reference. */
  lemma {:induction false} PipelineIsBlockByBlock(blocks: seq<MinedBlock>, address: Address, keep: MinedBlock -> bool)
    ensures Filter(FlatMap(Filter(blocks, keep), TransactionsOf), SentFrom(address)) == SentInBlocks(blocks, address, keep)
  {
    if blocks != [] {
      var b, rest := blocks[0], blocks[1..];
      var head: seq<MinedBlock> := if keep(b) then [b] else [];
      assert Filter(blocks, keep) == head + Filter(rest, keep);
      FlatMapConcat(head, Filter(rest, keep), TransactionsOf);
      assert FlatMap(head, TransactionsOf) == if keep(b) then b.transactions else [] by {
        if keep(b) {
          assert head[1..] == [];
        }
      }
      FilterConcat(FlatMap(head, TransactionsOf), FlatMap(Filter(rest, keep), TransactionsOf), SentFrom(address));
      PipelineIsBlockByBlock(rest, address, keep);
    }
  }

  /** In chain order: NumericBlock(n) yields the address's transactions of the blocks numbered at most n. */
  lemma GetTransactionsNumeric(address: Address, n: int, ws: WorldState)
    ensures GetTransactions(address, NumericBlock(n), ws) == SentInBlocks(ws.blocks, address, NumberAtMost(n))
  {
    PipelineIsBlockByBlock(ws.blocks, address, NumberAtMost(n));
  }

  /** Latest and Pending both use every block of the chain. */
  lemma GetTransactionsLatest(address: Address, ws: WorldState)
    ensures GetTransactions(address, LatestBlock, ws) == SentInBlocks(ws.blocks, address, EveryBlock)
    ensures GetTransactions(address, PendingBlock, ws) == GetTransactions(address, LatestBlock, ws)
  {
    FilterAll(ws.blocks, EveryBlock);
    PipelineIsBlockByBlock(ws.blocks, address, EveryBlock);
  }

  /** Earliest uses the first block only. */
  lemma GetTransactionsEarliest(address: Address, ws: WorldState)
    requires ws.blocks != []
    ensures GetTransactions(address, EarliestBlock, ws) == SentInBlocks(ws.blocks[..1], address, EveryBlock)
  {
    assert ws.blocks[..1][1..] == [];
  }

  /** A transaction is selected by NumericBlock(n) exactly when it is sent from address in a block numbered at most n. */
  lemma {:induction false} SentInBlocksMembership(blocks: seq<MinedBlock>, address: Address, n: int, t: MinedTransaction)
    ensures t in SentInBlocks(blocks, address, NumberAtMost(n)) <==>
              t.message.from == address &&
              exists i :: 0 <= i < |blocks| && blocks[i].block.number <= n && t in blocks[i].transactions
  {
    if blocks != [] {
      SentInBlocksMembership(blocks[1..], address, n, t);
      FilterMembership(blocks[0].transactions, SentFrom(address), t);
      assert forall i :: 1 <= i < |blocks| ==> blocks[i] == blocks[1..][i - 1];
      if t in SentInBlocks(blocks[1..], address, NumberAtMost(n)) {
        var k :| 0 <= k < |blocks[1..]| && blocks[1..][k].block.number <= n && t in blocks[1..][k].transactions;
        assert blocks[k + 1].block.number <= n && t in blocks[k + 1].transactions;
      }
    }
  }

  /** Selecting more blocks never selects fewer transactions. */
  lemma {:induction false} SentInBlocksMonotone(blocks: seq<MinedBlock>, address: Address,
                                               keep1: MinedBlock -> bool, keep2: MinedBlock -> bool)
    requires forall i :: 0 <= i < |blocks| && keep1(blocks[i]) ==> keep2(blocks[i])
    ensures |SentInBlocks(blocks, address, keep1)| <= |SentInBlocks(blocks, address, keep2)|
  {
    if blocks != [] {
      assert forall i :: 1 <= i < |blocks| ==> blocks[i] == blocks[1..][i - 1];
      SentInBlocksMonotone(blocks[1..], address, keep1, keep2);
    }
  }

  /** getTransactionCount: the number of transactions getTransactions selects in the current state. */
  function GetTransactionCount(stp: TransactionProcessor, address: Address, block: BlockReference): nat
    requires block.EarliestBlock? ==> stp.worldState.blocks != []
  {
    |GetTransactions(address, block, stp.worldState)|
  }

  /** The count for a numeric block grows with the block number and never exceeds the latest count. */
  lemma TransactionCountMonotone(stp: TransactionProcessor, address: Address, n: int, m: int)
    requires n <= m
    ensures GetTransactionCount(stp, address, NumericBlock(n)) <= GetTransactionCount(stp, address, NumericBlock(m))
    ensures GetTransactionCount(stp, address, NumericBlock(m)) <= GetTransactionCount(stp, address, LatestBlock)
  {
    var blocks := stp.worldState.blocks;
    GetTransactionsNumeric(address, n, stp.worldState);
    GetTransactionsNumeric(address, m, stp.worldState);
    GetTransactionsLatest(address, stp.worldState);
    SentInBlocksMonotone(blocks, address, NumberAtMost(n), NumberAtMost(m));
    SentInBlocksMonotone(blocks, address, NumberAtMost(m), EveryBlock);
  }

  // ---------------------------------------------------------------------
  // Block transaction counts and lookups
  // ---------------------------------------------------------------------

  function NumberIs(n: int): MinedBlock -> bool
  {
    (b: MinedBlock) => b.block.number == n
  }

  /** getBlockTransactionCountByNumber. */
  function GetBlockTransactionCountByNumber(stp: TransactionProcessor, block: BlockReference): (r: nat)
    requires block.LatestBlock? || block.EarliestBlock? ==> stp.worldState.blocks != []
    ensures block.PendingBlock? ==> r == 0
    ensures block.LatestBlock? ==> r == |Last(stp.worldState.blocks).transactions|
    ensures block.EarliestBlock? ==> r == |stp.worldState.blocks[0].transactions|
    ensures block.NumericBlock? &&
            (forall i :: 0 <= i < |stp.worldState.blocks| ==> stp.worldState.blocks[i].block.number != block.number)
            ==> r == 0
    ensures block.NumericBlock? ==>
              forall i :: IsFirst(stp.worldState.blocks, i, NumberIs(block.number)) ==>
                            r == |stp.worldState.blocks[i].transactions|
  {
    var ws := stp.worldState;
    match block
    case LatestBlock => |Last(ws.blocks).transactions|
    case EarliestBlock => |ws.blocks[0].transactions|
    case NumericBlock(n) =>
      (match Find(ws.blocks, NumberIs(n))
       case Some(b) => |b.transactions|
       case None => 0)
    case PendingBlock => 0
  }

  function HashIs(txHash: seq<Byte>): MinedTransaction -> bool
  {
    (t: MinedTransaction) => t.message.hash == txHash
  }

  function HasTransactionWithHash(txHash: seq<Byte>): MinedBlock -> bool
  {
    (b: MinedBlock) => Any(b.transactions, HashIs(txHash))
  }

  /** No transaction of the first i blocks has the hash. */
  predicate NoneWithHashBefore(blocks: seq<MinedBlock>, i: int, txHash: seq<Byte>)
    requires 0 <= i <= |blocks|
  {
    forall k, j :: 0 <= k < i && 0 <= j < |blocks[k].transactions| ==> blocks[k].transactions[j].message.hash != txHash
  }

  /**
   * getTxAndBlockByTxHash: the first block of the chain holding a transaction
   * with the hash, with the first such transaction of it; none if there is none.
   */
  function GetTxAndBlockByTxHash(stp: TransactionProcessor, txHash: seq<Byte>)
    : (r: Option<(MinedTransaction, MinedBlock)>)
    ensures r.None? <==> NoneWithHashBefore(stp.worldState.blocks, |stp.worldState.blocks|, txHash)
    ensures r.Some? ==> r.value.0.message.hash == txHash && r.value.0 in r.value.1.transactions
    ensures r.Some? ==> exists i :: 0 <= i < |stp.worldState.blocks| && stp.worldState.blocks[i] == r.value.1 &&
                                    NoneWithHashBefore(stp.worldState.blocks, i, txHash)
    ensures r.Some? ==> exists j :: 0 <= j < |r.value.1.transactions| && r.value.1.transactions[j] == r.value.0 &&
                                    forall k :: 0 <= k < j ==> r.value.1.transactions[k].message.hash != txHash
  {
    var ws := stp.worldState;
    var block := Find(ws.blocks, HasTransactionWithHash(txHash));
    if block.None? then None
    else
      var tx := Find(block.value.transactions, HashIs(txHash));
      Some((tx.value, block.value))
  }

  /**
   * getPairOfBlockAndTxByIndex as written: the index is narrowed with
   * BigInteger.toInt() before the lookup.
   */
  function GetPairOfBlockAndTxByIndex(block: Option<MinedBlock>, txIndex: int)
    : (r: Option<(MinedTransaction, MinedBlock)>)
    ensures r.None? <==> block.None? || !(0 <= ToInt32(txIndex) < |block.value.transactions|)
    ensures r.Some? ==> r.value == (block.value.transactions[ToInt32(txIndex)], block.value)
  {
    if block.None? then None
    else
      var i := ToInt32(txIndex);
      if 0 <= i < |block.value.transactions| then Some((block.value.transactions[i], block.value)) else None
  }

  /** As written, index 2^32 of a non-empty block answers with its first transaction. */
  lemma IndexIsTruncated(b: MinedBlock)
    requires 0 < |b.transactions|
    ensures GetPairOfBlockAndTxByIndex(Some(b), TwoTo32) == Some((b.transactions[0], b))
  {
  }

  /** The corrected lookup: the transaction at txIndex itself, none when the index is out of range. */
  function TransactionAtIndex(block: Option<MinedBlock>, txIndex: int)
    : (r: Option<(MinedTransaction, MinedBlock)>)
    ensures r.None? <==> block.None? || !(0 <= txIndex < |block.value.transactions|)
    ensures r.Some? ==> r.value.1 == block.value && r.value.0 == block.value.transactions[txIndex]
  {
    if block.None? || !(0 <= txIndex < |block.value.transactions|) then None
    else Some((block.value.transactions[txIndex], block.value))
  }

  /** The two lookups agree on every index an Int can hold. */
  lemma TransactionAtIndexAgrees(block: Option<MinedBlock>, txIndex: int)
    requires -TwoTo31 <= txIndex < TwoTo31
    ensures TransactionAtIndex(block, txIndex) == GetPairOfBlockAndTxByIndex(block, txIndex)
  {
  }

  function BlockHashIs(blockHash: seq<Byte>): MinedBlock -> bool
  {
    (b: MinedBlock) => b.hash == blockHash
  }

  /** getTransactionByBlockHashAndIndex: the index lookup, as written, in the first block with the hash. */
  function GetTransactionByBlockHashAndIndex(stp: TransactionProcessor, blockHash: seq<Byte>, txIndex: int)
    : (r: Option<(MinedTransaction, MinedBlock)>)
    ensures (forall i :: 0 <= i < |stp.worldState.blocks| ==> stp.worldState.blocks[i].hash != blockHash) ==> r.None?
    ensures forall i :: IsFirst(stp.worldState.blocks, i, BlockHashIs(blockHash)) ==>
                          r == GetPairOfBlockAndTxByIndex(Some(stp.worldState.blocks[i]), txIndex)
  {
    GetPairOfBlockAndTxByIndex(Find(stp.worldState.blocks, BlockHashIs(blockHash)), txIndex)
  }

  /**
   * getTransactionByBlockNumberAndIndex: the index lookup, as written, in the
   * last, first, first-numbered or last pending block.
   */
  function GetTransactionByBlockNumberAndIndex(stp: TransactionProcessor, block: BlockReference, txIndex: int)
    : (r: Option<(MinedTransaction, MinedBlock)>)
    requires block.LatestBlock? || block.EarliestBlock? ==> stp.worldState.blocks != []
    requires block.PendingBlock? ==> stp.pendingWorldState.blocks != []
    ensures block.LatestBlock? ==> r == GetPairOfBlockAndTxByIndex(Some(Last(stp.worldState.blocks)), txIndex)
    ensures block.EarliestBlock? ==> r == GetPairOfBlockAndTxByIndex(Some(stp.worldState.blocks[0]), txIndex)
    ensures block.PendingBlock? ==> r == GetPairOfBlockAndTxByIndex(Some(Last(stp.pendingWorldState.blocks)), txIndex)
    ensures block.NumericBlock? &&
            (forall i :: 0 <= i < |stp.worldState.blocks| ==> stp.worldState.blocks[i].block.number != block.number)
            ==> r.None?
    ensures block.NumericBlock? ==>
              forall i :: IsFirst(stp.worldState.blocks, i, NumberIs(block.number)) ==>
                            r == GetPairOfBlockAndTxByIndex(Some(stp.worldState.blocks[i]), txIndex)
  {
    match block
    case LatestBlock => GetPairOfBlockAndTxByIndex(Some(Last(stp.worldState.blocks)), txIndex)
    case NumericBlock(n) => GetPairOfBlockAndTxByIndex(Find(stp.worldState.blocks, NumberIs(n)), txIndex)
    case EarliestBlock => GetPairOfBlockAndTxByIndex(Some(stp.worldState.blocks[0]), txIndex)
    case PendingBlock => GetPairOfBlockAndTxByIndex(Some(Last(stp.pendingWorldState.blocks)), txIndex)
  }

  // ---------------------------------------------------------------------
  // Block numbers, logs and historical states
  // ---------------------------------------------------------------------

  /** A reference the chain can resolve to a number: anything but a numeric one needs a block. */
  predicate Resolvable(block: Option<BlockReference>, ws: WorldState)
  {
    block.Some? && !block.value.NumericBlock? ==> ws.blocks != []
  }

  /** getBlockNumber: the number a reference stands for; none for a missing reference. */
  function GetBlockNumber(block: Option<BlockReference>, ws: WorldState): (r: Option<int>)
    requires Resolvable(block, ws)
    ensures r.None? <==> block.None?
    ensures block == Some(EarliestBlock) ==> r == Some(ws.blocks[0].block.number)
    ensures block == Some(LatestBlock) || block == Some(PendingBlock) ==> r == Some(Last(ws.blocks).block.number)
    ensures block.Some? && block.value.NumericBlock? ==> r == Some(block.value.number)
  {
    match block
    case None => None
    case Some(LatestBlock) => Some(Last(ws.blocks).block.number)
    case Some(NumericBlock(n)) => Some(n)
    case Some(EarliestBlock) => Some(ws.blocks[0].block.number)
    case Some(PendingBlock) => Some(Last(ws.blocks).block.number)
  }

  /** A log range bound: a missing bound falls back to the given block (first or last). */
  predicate LogBoundDefined(block: Option<BlockReference>, ws: WorldState)
  {
    Resolvable(block, ws) && (block.None? ==> ws.blocks != [])
  }

  const LogsOf: MinedTransaction -> seq<Log> := (t: MinedTransaction) => t.result.logs

  function HashMatches(blockHash: Option<seq<Byte>>): MinedBlock -> bool
  {
    (b: MinedBlock) => blockHash.None? || blockHash.value == b.hash
  }

  /** The address filter as written: it lets every log through. */
  function AddressMatches(address: Option<seq<Address>>): Log -> bool
  {
    (_: Log) => address.None? || address.Some?
  }

  function InTopics(topics: seq<Word>): Word -> bool
  {
    (t: Word) => t in topics
  }

  /** A log passes when no topics are given, or when it shares a topic with them. */
  function TopicsMatch(topics: Option<seq<Word>>): Log -> bool
  {
    (l: Log) => topics.None? || Any(l.topics, InTopics(topics.value))
  }

  function FromBlockNumber(from: Option<BlockReference>, ws: WorldState): int
    requires LogBoundDefined(from, ws)
  {
    match GetBlockNumber(from, ws)
    case Some(n) => n
    case None => ws.blocks[0].block.number
  }

  function ToBlockNumber(to: Option<BlockReference>, ws: WorldState): int
    requires LogBoundDefined(to, ws)
  {
    match GetBlockNumber(to, ws)
    case Some(n) => n
    case None => Last(ws.blocks).block.number
  }

  /** The blocks getLogs draws from: in the range and with the requested hash, if any. */
  predicate LogBlockSelected(b: MinedBlock, fromBlock: int, toBlock: int, blockHash: Option<seq<Byte>>)
  {
    fromBlock <= b.block.number <= toBlock && (blockHash.None? || blockHash.value == b.hash)
  }

  function SelectedBlocks(blocks: seq<MinedBlock>, fromBlock: int, toBlock: int, blockHash: Option<seq<Byte>>)
    : seq<MinedBlock>
  {
    Filter(Filter(Filter(blocks, NumberAtLeast(fromBlock)), NumberAtMost(toBlock)), HashMatches(blockHash))
  }

  function LogsOfBlocks(blocks: seq<MinedBlock>): seq<Log>
  {
    FlatMap(FlatMap(blocks, TransactionsOf), LogsOf)
  }

  /** getLogs. */
  function GetLogs(stp: TransactionProcessor, from: Option<BlockReference>, to: Option<BlockReference>,
                   address: Option<seq<Address>>, topics: Option<seq<Word>>, blockHash: Option<seq<Byte>>)
    : (r: seq<Log>)
    requires LogBoundDefined(from, stp.worldState) && LogBoundDefined(to, stp.worldState)
    ensures forall i :: 0 <= i < |r| ==> TopicsMatch(topics)(r[i])
    ensures topics == Some([]) ==> r == []
  {
    var ws := stp.worldState;
    var blocks := SelectedBlocks(ws.blocks, FromBlockNumber(from, ws), ToBlockNumber(to, ws), blockHash);
    var kept := Filter(LogsOfBlocks(blocks), AddressMatches(address));
    if topics == Some([]) then
      FilterNone(kept, TopicsMatch(topics));
      Filter(kept, TopicsMatch(topics))
    else Filter(kept, TopicsMatch(topics))
  }

  lemma SelectedBlocksMembership(blocks: seq<MinedBlock>, fromBlock: int, toBlock: int,
                                 blockHash: Option<seq<Byte>>, b: MinedBlock)
    ensures b in SelectedBlocks(blocks, fromBlock, toBlock, blockHash) <==>
              b in blocks && LogBlockSelected(b, fromBlock, toBlock, blockHash)
  {
    var b1 := Filter(blocks, NumberAtLeast(fromBlock));
    var b2 := Filter(b1, NumberAtMost(toBlock));
    FilterMembership(blocks, NumberAtLeast(fromBlock), b);
    FilterMembership(b1, NumberAtMost(toBlock), b);
    FilterMembership(b2, HashMatches(blockHash), b);
  }

  /** A log of the blocks is a log some transaction of one of them emitted. */
  lemma LogsOfBlocksMembership(blocks: seq<MinedBlock>, l: Log)
    ensures l in LogsOfBlocks(blocks) <==> exists b, t :: b in blocks && t in b.transactions && l in t.result.logs
  {
    var txs := FlatMap(blocks, TransactionsOf);
    FlatMapMembership(txs, LogsOf, l);
    if l in LogsOfBlocks(blocks) {
      var t :| t in txs && l in LogsOf(t);
      FlatMapMembership(blocks, TransactionsOf, t);
    }
    if exists b, t :: b in blocks && t in b.transactions && l in t.result.logs {
      var b, t :| b in blocks && t in b.transactions && l in t.result.logs;
      FlatMapMembership(blocks, TransactionsOf, t);
      assert t in txs && l in LogsOf(t);
    }
  }

  /**
   * A log is returned exactly when some transaction of a selected block
   * emitted it and it passes the topic filter.
   */
  lemma GetLogsMembership(stp: TransactionProcessor, from: Option<BlockReference>, to: Option<BlockReference>,
                          address: Option<seq<Address>>, topics: Option<seq<Word>>, blockHash: Option<seq<Byte>>,
                          l: Log)
    requires LogBoundDefined(from, stp.worldState) && LogBoundDefined(to, stp.worldState)
    ensures l in GetLogs(stp, from, to, address, topics, blockHash) <==>
              && TopicsMatch(topics)(l)
              && exists b, t :: && b in stp.worldState.blocks
                               && LogBlockSelected(b, FromBlockNumber(from, stp.worldState), ToBlockNumber(to, stp.worldState), blockHash)
                               && t in b.transactions && l in t.result.logs
  {
    var ws := stp.worldState;
    var fromBlock, toBlock := FromBlockNumber(from, ws), ToBlockNumber(to, ws);
    var blocks := SelectedBlocks(ws.blocks, fromBlock, toBlock, blockHash);
    var logs := LogsOfBlocks(blocks);
    FilterMembership(Filter(logs, AddressMatches(address)), TopicsMatch(topics), l);
    FilterMembership(logs, AddressMatches(address), l);
    LogsOfBlocksMembership(blocks, l);
    if l in logs {
      var b, t :| b in blocks && t in b.transactions && l in t.result.logs;
      SelectedBlocksMembership(ws.blocks, fromBlock, toBlock, blockHash, b);
    }
    if exists b, t :: b in ws.blocks && LogBlockSelected(b, fromBlock, toBlock, blockHash)
                      && t in b.transactions && l in t.result.logs {
      var b, t :| b in ws.blocks && LogBlockSelected(b, fromBlock, toBlock, blockHash)
                  && t in b.transactions && l in t.result.logs;
      SelectedBlocksMembership(ws.blocks, fromBlock, toBlock, blockHash, b);
    }
  }

  /** The address filter is a no-op: the result never depends on it. */
  lemma GetLogsIgnoresAddress(stp: TransactionProcessor, from: Option<BlockReference>, to: Option<BlockReference>,
                              address1: Option<seq<Address>>, address2: Option<seq<Address>>,
                              topics: Option<seq<Word>>, blockHash: Option<seq<Byte>>)
    requires LogBoundDefined(from, stp.worldState) && LogBoundDefined(to, stp.worldState)
    ensures GetLogs(stp, from, to, address1, topics, blockHash) == GetLogs(stp, from, to, address2, topics, blockHash)
  {
    var ws := stp.worldState;
    var fromBlock, toBlock := FromBlockNumber(from, ws), ToBlockNumber(to, ws);
    var logs := LogsOfBlocks(SelectedBlocks(ws.blocks, fromBlock, toBlock, blockHash));
    FilterAll(logs, AddressMatches(address1));
    FilterAll(logs, AddressMatches(address2));
  }

  /** Missing bounds mean from the earliest to the latest block. */
  lemma GetLogsDefaultRange(stp: TransactionProcessor, address: Option<seq<Address>>, topics: Option<seq<Word>>,
                            blockHash: Option<seq<Byte>>)
    requires stp.worldState.blocks != []
    ensures GetLogs(stp, None, None, address, topics, blockHash) ==
            GetLogs(stp, Some(EarliestBlock), Some(LatestBlock), address, topics, blockHash)
  {
  }

  /**
   * processWorldStateAtBlock: run op on the state the reference names; a
   * numeric block the processor does not know is an "Unknown block number" error.
   */
  function ProcessWorldStateAtBlock<T>(stp: TransactionProcessor, block: Option<BlockReference>, op: WorldState -> T)
    : (r: Result<T, RpcError>)
    ensures r.Err? <==> block.Some? && block.value.NumericBlock? && stp.worldStateAtBlock(block.value.number).None?
    ensures r.Err? ==> r.error == RpcError("Unknown block number", InvalidParams)
    ensures block == Some(PendingBlock) ==> r == Ok(op(stp.pendingWorldState))
    ensures block == Some(EarliestBlock) ==> r == Ok(op(stp.earliestWorldState))
    ensures block.None? || block == Some(LatestBlock) ==> r == Ok(op(stp.worldState))
    ensures block.Some? && block.value.NumericBlock? && stp.worldStateAtBlock(block.value.number).Some? ==>
              r == Ok(op(stp.worldStateAtBlock(block.value.number).value))
  {
    match block
    case Some(PendingBlock) => Ok(op(stp.pendingWorldState))
    case Some(EarliestBlock) => Ok(op(stp.earliestWorldState))
    case Some(NumericBlock(n)) =>
      var ws := stp.worldStateAtBlock(n);
      if ws.Some? then Ok(op(ws.value)) else Err(RpcError("Unknown block number", InvalidParams))
    case _ => Ok(op(stp.worldState))
  }
}
