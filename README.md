# kevm core in Dafny

This project models the core of kevm, an Ethereum virtual machine written in Kotlin. It covers five parts:

- **Stack opcodes.** PUSHn, DUPn, SWAPn, LOGn and POP are functions from one execution context to the next. Each one changes only the current call frame, the last frame of the call stack; LOG also appends one entry to the context's log list.
- **Precompiled contracts.** This is the dispatcher for addresses 1 to 8. It reads the input region from memory, applies one of eight byte-to-byte transforms, and writes back a non-empty result, truncated or zero-padded to the requested size.
- **Gas tables.** These are the `GasCost`, `Refund` and `GasCategory` constant tables.
- **The JSON-RPC query layer.** It parses block references and selects, counts and indexes mined blocks, transactions and logs in a world state. It also resolves a block reference to a historical world state.
- **Scenario helpers of the behaviour tests.** These build the base execution context, edit it in place, and parse the hex and opcode-name arguments of the steps.

The model is one Dafny module per concern:

- `Wrappers`: `Option` and `Result`.
- `Bytes`: bytes, words, trim/pad and `BigInteger.toInt()`.
- `Seqs`: Kotlin's `filter`, `flatMap`, `find`, `any` and `mapNotNull`.
- `Conversions`: `BigInteger` text parsing.
- `Stack` and `Memory`: the interpreter's stack and memory.
- `Context`: call frames and the execution context.
- `EvmOps`, `PrecompiledContractExecutor` and `Gas`: the opcode, dispatcher and gas sources.
- `WorldState`: mined blocks and the transaction processor's views.
- `StandardEvmOperations`: the query layer.
- `StepDefs`: the scenario helpers.

Design choices:

- **Values and errors.** An execution context is a value. The stack is a sequence of words with the top at index 0. Where the Kotlin code throws, the model returns an error value instead:
  - stack underflow, a negative LOG size and the `TODO()` of the dispatcher (`EvmError`);
  - the JSON-RPC errors with code -32602 (`RpcError`);
  - `NumberFormatException` (`None`).
- **Empty block lists.** The code calls `first()` or `last()` on a block list that may be empty, and that call throws. The model turns each such call into a precondition on exactly the branch that makes it.
- **Integer narrowing.** `BigInteger.toInt()` keeps the low 32 bits as a two's-complement value (`Bytes.ToInt32`). It is modelled where the source uses it:
  - the precompile dispatch key, so address 2^32 + 1 dispatches like address 1;
  - the LOG size, where `Word.toInt()` (EvmOps.kt:37) is taken to narrow the word's unsigned value like `BigInteger.toInt()`;
  - the transaction index of `getPairOfBlockAndTxByIndex`. Both of its callers, `getTransactionByBlockHashAndIndex` and `getTransactionByBlockNumberAndIndex`, are modelled on this lookup as written. The corrected lookup `TransactionAtIndex` stands beside it under Findings.
- **StepDefs.** The scenario object, which keeps a mutable `executionContext` field, is the class `StepDefs.StepDefs`. Its methods reassign that field.
- **Address 0 and the precompiled range.** `isPrecompiledContractCall` accepts every value up to 8, so address 0 is included, while the dispatch table at PrecompiledContractExecutor.kt:18-27 has entries only for 1 to 8, the Ethereum precompile range. The model follows the code (`IsPrecompiledContractCall`) and records the gap under Findings.

## Model

| member | source | states |
|---|---|---|
| EvmOps.Push | evm/src/main/kotlin/ops/EvmOps.kt:7-13 | The stack grows by one. The new top is the `numBytes` code bytes from `currentLocation + 1`, zero past the end of the code. The rest of the stack and memory are unchanged, and only the current frame changes. |
| EvmOps.Dup | evm/src/main/kotlin/ops/EvmOps.kt:15-20 | Succeeds iff `offset` is below the stack size, otherwise StackUnderflow. The new top is the old element at `offset`, the old stack sits unchanged beneath it, and only the current frame's stack changes. |
| EvmOps.Swap | evm/src/main/kotlin/ops/EvmOps.kt:22-30 | Succeeds iff `offset + 1` is below the stack size. It keeps the size, exchanges position 0 with position `offset + 1` and leaves every other position as it was. Only the current frame's stack changes. |
| EvmOps.Log | evm/src/main/kotlin/ops/EvmOps.kt:32-43 | Succeeds iff there are `2 + num` words and the size word narrows to a non-negative Int. It pops exactly `2 + num` words. It appends one log whose data is the memory region at (p, s) and whose topics are the next `num` words, keeping earlier logs in order. The memory becomes the post-read memory, and nothing else changes. |
| EvmOps.Pop | evm/src/main/kotlin/ops/EvmOps.kt:45-49 | Succeeds iff the stack is non-empty. The new stack is the old one without its top, and only the current frame's stack changes. |
| EvmOps.PopAfterPush | evm/src/main/kotlin/ops/EvmOps.kt:7-13 | POP after PUSH restores the original context exactly. |
| EvmOps.PopAfterDup | evm/src/main/kotlin/ops/EvmOps.kt:15-20 | POP after a successful DUP restores the original context exactly. |
| EvmOps.SwapTwice | evm/src/main/kotlin/ops/EvmOps.kt:22-30 | Applying the same SWAP twice is the identity on the context. |
| Context.UpdateCurrentCallCtx | evm/src/main/kotlin/ops/EvmOps.kt:12 | Replaces the current frame's stack and memory and changes nothing else: not the other frames, not the other fields. |
| Context.ReadCode | evm/src/main/kotlin/ops/EvmOps.kt:9 | Code is read as exactly `n` bytes: the code byte where it exists, 0 past the end. |
| Context.OnlyCurrentFrameChangedTransitive | evm/src/main/kotlin/ops/EvmOps.kt:12 | Two frame-local steps compose into one frame-local step. |
| Context.OnlyCurrentFrameChangedRestores | evm/src/main/kotlin/ops/EvmOps.kt:12 | A frame-local step that restores the stack and memory restores the whole context. |
| Stack.Push | evm/src/main/kotlin/ops/EvmOps.kt:10 | The pushed word is the new top, above the unchanged old stack. |
| Stack.Pop | evm/src/main/kotlin/ops/EvmOps.kt:46 | Succeeds iff the stack is non-empty. The popped word followed by the rest is the old stack. |
| Stack.PopWords | evm/src/main/kotlin/ops/EvmOps.kt:33-35 | Succeeds iff there are `n` words. The `n` popped words followed by the rest are the old stack. |
| Stack.Peek | evm/src/main/kotlin/ops/EvmOps.kt:16 | Succeeds iff `offset` is in range, and then yields the element at `offset`. |
| Stack.Set | evm/src/main/kotlin/ops/EvmOps.kt:25-27 | Succeeds iff `offset` is in range, and then replaces exactly that position. |
| Stack.PopAfterPush | evm/src/main/kotlin/ops/EvmOps.kt:10 | Popping after a push gives back the word and the original stack. |
| Memory.Expand | evm/src/main/kotlin/PrecompiledContractExecutor.kt:36 | Growth keeps the old bytes, zero-fills the new ones and rounds the size up to a multiple of 32. Memory that is already large enough is unchanged. |
| Memory.Read | evm/src/main/kotlin/ops/EvmOps.kt:37 | Yields exactly `length` bytes, the stored byte or 0 at each offset. Memory expands to cover the region unless the length is 0. |
| Memory.Write | evm/src/main/kotlin/PrecompiledContractExecutor.kt:39 | The written bytes occupy the region, every other byte keeps its value, and memory expands as for a read. |
| Memory.ReadAfterWrite | evm/src/main/kotlin/PrecompiledContractExecutor.kt:39 | Reading back any prefix of a written region yields the written bytes. |
| Memory.ReadIdempotent | evm/src/main/kotlin/ops/EvmOps.kt:37 | Reading a region again after reading it yields the same bytes. |
| Memory.AccessKeepsAlignment | evm/src/main/kotlin/PrecompiledContractExecutor.kt:36-39 | Reads and writes keep the memory size a multiple of 32. |
| Bytes.TrimAndPadRight | evm/src/main/kotlin/PrecompiledContractExecutor.kt:39 | Exactly `length` bytes: the input's bytes where they exist, zeros after. |
| Bytes.TrimAndPadLeft | evm/src/main/kotlin/PrecompiledContractExecutor.kt:19 | Exactly `length` bytes. A short input is zero-padded on the left and ends with the input unchanged. |
| Bytes.ToInt32 | evm/src/main/kotlin/PrecompiledContractExecutor.kt:18 | The result lies in the Int range, is congruent to the input modulo 2^32, and equals the input on the Int range. |
| PrecompiledContractExecutor.ExecutePrecompiled | evm/src/main/kotlin/PrecompiledContractExecutor.kt:30-45 | Reads the input region. If the transform yields nothing, the memory is exactly the post-read memory. Otherwise the output is written at `outLocation`, trimmed or padded to `outSize`. The stack, the other frames and the rest of the context are unchanged. |
| PrecompiledContractExecutor.DoPrecompiled | evm/src/main/kotlin/PrecompiledContractExecutor.kt:17-28 | Succeeds iff the Int-narrowed address is 1 to 8, otherwise NotImplemented. Each address runs its own table entry: ecdsarecover left-padded to 32 bytes, sha256, ripemd160, identity, expmod, bnAdd, bnMul, snarkV. |
| PrecompiledContractExecutor.OutputRegion | evm/src/main/kotlin/PrecompiledContractExecutor.kt:36-39 | After a call with non-empty output, reading `outSize` bytes at `outLocation` gives back the trimmed or padded output. |
| PrecompiledContractExecutor.IdentityCopiesInput | evm/src/main/kotlin/PrecompiledContractExecutor.kt:22 | Address 4 with room for its input writes the input region back unchanged at `outLocation`. |
| PrecompiledContractExecutor.IsPrecompiledContractCall | evm/src/main/kotlin/PrecompiledContractExecutor.kt:14-15 | As written, holds exactly for address 0 and the dispatch-table addresses 1 to 8. |
| PrecompiledContractExecutor.AddressZeroIsNotDispatched | evm/src/main/kotlin/PrecompiledContractExecutor.kt:14-27 | Address 0 counts as a precompiled-contract call, yet dispatching it ends in NotImplemented. |
| PrecompiledContractExecutor.PrecompiledAddressesDispatch | evm/src/main/kotlin/PrecompiledContractExecutor.kt:14-27 | Below 2^31, dispatch succeeds iff the address is 1 to 8. The as-written test accepts exactly those addresses and address 0. |
| Gas.Cost | evm/src/main/kotlin/gas/GasCost.kt:17-47 | Every cost is non-negative. A cost is 0 exactly for `Zero` and the `Formula` placeholder. |
| Gas.Wei | evm/src/main/kotlin/gas/GasCost.kt:6-9 | Every refund is positive. |
| Gas.AllGasCostsComplete | evm/src/main/kotlin/gas/GasCost.kt:17-50 | The table lists all 30 entries, each with a non-negative cost, and `costBigInt` equals `cost` for every entry. |
| Gas.TiersIncreasing | evm/src/main/kotlin/gas/GasCost.kt:18-23 | The fixed tiers are 0, 2, 3, 5, 8 and 10, strictly increasing. |
| Gas.StorageSetExceedsReset | evm/src/main/kotlin/gas/GasCost.kt:30-31 | SSet is 20000, SReset is 5000, and setting costs more than resetting. |
| Gas.RefundValues | evm/src/main/kotlin/gas/GasCost.kt:6-9 | StorageClear refunds 15000 and SelfDestruct refunds 24000. |
| Gas.FormulaParameters | evm/src/main/kotlin/gas/GasCost.kt:26-27 | SHA3 costs 30 plus 6 per word and EXP costs 10 plus 50 per byte (the EXP entries are at lines 39-40). |
| Seqs.Filter | rpc/src/main/kotlin/StandardEvmOperations.kt:85 | Keeps exactly the elements that pass, and never lengthens the list. |
| Seqs.Find | rpc/src/main/kotlin/StandardEvmOperations.kt:145-147 | None iff no element passes. Otherwise it is the element at the first passing index, and at every first passing index it is that element. |
| Seqs.FindIndex | rpc/src/main/kotlin/StandardEvmOperations.kt:145-147 | None iff no element passes. Otherwise it is the index of the first element that passes. |
| Seqs.MapNotNull | evm/src/test/kotlin/StepDefs.kt:243 | Never longer than the input. It is as long as the input iff every element maps to a value, and then it lists those values in order. |
| Seqs.MapNotNullConcat | evm/src/test/kotlin/StepDefs.kt:243 | mapNotNull distributes over concatenation. |
| Seqs.MapNotNullSingleton | evm/src/test/kotlin/StepDefs.kt:243 | On one element, mapNotNull keeps its value when it has one and yields nothing otherwise. |
| Seqs.MapNotNullIsFilterValues | evm/src/test/kotlin/StepDefs.kt:243 | mapNotNull drops the elements that map to nothing and keeps the values of the rest, in order: it equals filtering the elements that map to a value and taking their values. |
| Seqs.FilterConcat | rpc/src/main/kotlin/StandardEvmOperations.kt:89-92 | Filtering distributes over concatenation. |
| Seqs.FlatMapConcat | rpc/src/main/kotlin/StandardEvmOperations.kt:89-92 | `flatMap`, the images concatenated in order, distributes over concatenation of its input. |
| Seqs.FlatMapMembership | rpc/src/main/kotlin/StandardEvmOperations.kt:203-204 | A value is in a flatMap iff it comes from some element. |
| Seqs.FilterMembership | rpc/src/main/kotlin/StandardEvmOperations.kt:199-201 | A value survives a filter iff it is in the list and passes. |
| Seqs.FilterAll | rpc/src/main/kotlin/StandardEvmOperations.kt:205 | A filter that every element passes is the identity. |
| Seqs.FilterNone | rpc/src/main/kotlin/StandardEvmOperations.kt:206 | A filter that no element passes yields nothing. |
| Conversions.DigitValue | evm/src/test/kotlin/StepDefs.kt:236-238 | A character's digit value is -1 or below the radix. |
| Conversions.ToDigits | evm/src/test/kotlin/StepDefs.kt:236-238 | Every natural number has a non-empty digit string with exactly its value. |
| Conversions.LeadingZero | evm/src/test/kotlin/StepDefs.kt:256 | A leading '0' changes neither the digits' validity nor their value. |
| Conversions.ParseBigInteger | evm/src/test/kotlin/StepDefs.kt:237-238 | Succeeds iff, after an optional '-' or '+', one or more digits of the radix follow; anything else is rejected, as `NumberFormatException`. Unsigned and '+'-signed digits parse to their value, '-'-signed digits to its negation, and a negative result comes only from a leading '-'. |
| Conversions.ParseBigIntegerRoundTrip | evm/src/test/kotlin/StepDefs.kt:236-238 | Parsing the digits of n gives n, and with a leading '-' gives -n. |
| Conversions.HexDigitsAreDigits | rpc/src/main/kotlin/StandardEvmOperations.kt:25 | The regex character class [0-9a-faA-F] is exactly the set of base-16 digits. |
| StandardEvmOperations.FromString | rpc/src/main/kotlin/StandardEvmOperations.kt:18-28 | Null, "" and "latest" give Latest, "pending" gives Pending and "earliest" gives Earliest, each as an iff. A numeric result comes exactly from `0x` followed by one or more hex digits. Every error has code -32602, the missing-prefix message is given exactly when the prefix is missing, and "Invalid block number" otherwise. |
| StandardEvmOperations.FromStringNumeric | rpc/src/main/kotlin/StandardEvmOperations.kt:25-27 | A well-formed numeric reference parses to the value of its hex digits. |
| StandardEvmOperations.FromStringRoundTrip | rpc/src/main/kotlin/StandardEvmOperations.kt:18-28 | `0x` followed by the hex digits of n parses back to `NumericBlock(n)`. |
| StandardEvmOperations.GetTransactions | rpc/src/main/kotlin/StandardEvmOperations.kt:81-96 | Every selected transaction was sent from the address. |
| StandardEvmOperations.PipelineIsBlockByBlock | rpc/src/main/kotlin/StandardEvmOperations.kt:89-92 | The filter/flatMap/filter pipeline equals the block-by-block reference definition: the address's transactions of the kept blocks, in chain order. |
| StandardEvmOperations.GetTransactionsNumeric | rpc/src/main/kotlin/StandardEvmOperations.kt:89-92 | `NumericBlock(n)` yields exactly the address's transactions in the blocks numbered at most n, in chain order. |
| StandardEvmOperations.GetTransactionsLatest | rpc/src/main/kotlin/StandardEvmOperations.kt:83-85 | Latest uses every block of the chain, in order, and Pending (lines 93-95) gives the same result as Latest. |
| StandardEvmOperations.GetTransactionsEarliest | rpc/src/main/kotlin/StandardEvmOperations.kt:86-88 | Earliest uses the first block only. |
| StandardEvmOperations.SentInBlocksMembership | rpc/src/main/kotlin/StandardEvmOperations.kt:89-92 | A transaction is selected for `NumericBlock(n)` iff it was sent from the address and lies in some block numbered at most n. |
| StandardEvmOperations.SentInBlocksMonotone | rpc/src/main/kotlin/StandardEvmOperations.kt:81-96 | Selecting more blocks never selects fewer transactions. |
| StandardEvmOperations.TransactionCountMonotone | rpc/src/main/kotlin/StandardEvmOperations.kt:43-45 | The count, the length of `getTransactions` on the current state, grows with the block number and never exceeds the count for Latest. |
| StandardEvmOperations.GetBlockTransactionCountByNumber | rpc/src/main/kotlin/StandardEvmOperations.kt:115-122 | Pending gives 0. Latest and Earliest give the size of the last and first block. A number not on the chain gives 0. Otherwise it is the size of the first block with that number. |
| StandardEvmOperations.GetTxAndBlockByTxHash | rpc/src/main/kotlin/StandardEvmOperations.kt:143-151 | None iff no transaction on the chain has the hash. Otherwise the transaction has the hash and is in the returned block. That block is the first such block in chain order, and the transaction is the first such in the block. |
| StandardEvmOperations.GetPairOfBlockAndTxByIndex | rpc/src/main/kotlin/StandardEvmOperations.kt:237-246 | As written: None iff the block is absent or the Int-narrowed index is out of range. Otherwise it is the transaction at the narrowed index, with its block. |
| StandardEvmOperations.IndexIsTruncated | rpc/src/main/kotlin/StandardEvmOperations.kt:243 | Index 2^32 of a non-empty block answers with the block's first transaction. |
| StandardEvmOperations.TransactionAtIndex | rpc/src/main/kotlin/StandardEvmOperations.kt:237-246 | Corrected: None iff the block is absent or the index is out of range. Otherwise it is `(block.transactions[i], block)`. |
| StandardEvmOperations.TransactionAtIndexAgrees | rpc/src/main/kotlin/StandardEvmOperations.kt:243 | On every index an Int can hold, the corrected and the as-written lookups agree. |
| StandardEvmOperations.GetTransactionByBlockHashAndIndex | rpc/src/main/kotlin/StandardEvmOperations.kt:153-160 | An unknown hash gives None. Otherwise the result is the as-written index lookup in the first chain block with the hash. |
| StandardEvmOperations.GetTransactionByBlockNumberAndIndex | rpc/src/main/kotlin/StandardEvmOperations.kt:162-172 | The as-written index lookup in the block the reference names: the last block for Latest, the first for Earliest, the last pending block for Pending, and the first chain block with the number for a numeric reference. A number not on the chain gives None. |
| StandardEvmOperations.GetBlockNumber | rpc/src/main/kotlin/StandardEvmOperations.kt:211-219 | None iff no reference is given. Earliest gives the first block's number, Latest and Pending the last block's, and a numeric reference its own number. |
| StandardEvmOperations.SelectedBlocksMembership | rpc/src/main/kotlin/StandardEvmOperations.kt:198-201 | A block is kept iff it is on the chain, its number lies in [fromBlock, toBlock], and it has the requested hash when one is given. |
| StandardEvmOperations.LogsOfBlocksMembership | rpc/src/main/kotlin/StandardEvmOperations.kt:203-204 | A log is among the logs of some blocks iff a transaction of one of them emitted it. |
| StandardEvmOperations.GetLogsMembership | rpc/src/main/kotlin/StandardEvmOperations.kt:188-207 | A log is returned iff two things hold. It passes the topic filter: no topics given, or it shares a topic with them. A transaction of a kept block emitted it. |
| StandardEvmOperations.GetLogsIgnoresAddress | rpc/src/main/kotlin/StandardEvmOperations.kt:205 | The address filter is a no-op: the result is the same for every address argument. |
| StandardEvmOperations.GetLogs | rpc/src/main/kotlin/StandardEvmOperations.kt:188-207 | Every returned log passes the topic filter, and an empty topic list returns nothing. |
| StandardEvmOperations.GetLogsDefaultRange | rpc/src/main/kotlin/StandardEvmOperations.kt:195-196 | Missing bounds mean from Earliest to Latest. |
| StandardEvmOperations.ProcessWorldStateAtBlock | rpc/src/main/kotlin/StandardEvmOperations.kt:221-235 | Fails iff the reference is numeric and the processor has no state for it, with "Unknown block number" and code -32602. Otherwise it runs the operation on the pending, earliest, current or found state, as the reference says. |
| StepDefs.First0x | evm/src/test/kotlin/StepDefs.kt:255 | None iff "0x" does not occur. Otherwise it is the position of an occurrence with none before it. |
| StepDefs.RemoveFirst0x | evm/src/test/kotlin/StepDefs.kt:255 | `replaceFirst("0x", "")`: text without "0x" is unchanged. Otherwise the first occurrence is cut out and the text before and after it is kept, so a leading "0x" is stripped. |
| StepDefs.Split | evm/src/test/kotlin/StepDefs.kt:241 | `split(",")` yields one more piece than there are separators, and no piece contains a separator. |
| StepDefs.SplitJoin | evm/src/test/kotlin/StepDefs.kt:241 | Joining the pieces with the separator gives back the string. |
| StepDefs.LeadingWhitespace | evm/src/test/kotlin/StepDefs.kt:242 | The length of the leading whitespace run. |
| StepDefs.TrimEnd | evm/src/test/kotlin/StepDefs.kt:242 | Drops exactly the trailing whitespace, keeping a prefix. |
| StepDefs.Trim | evm/src/test/kotlin/StepDefs.kt:242 | `trim()` yields the slice between the leading and the trailing whitespace. It neither starts nor ends with whitespace and leaves whitespace-free text unchanged. |
| StepDefs.ToBigInteger | evm/src/test/kotlin/StepDefs.kt:236-238 | Text starting with "0x" is parsed as hex after the prefix. Any other text is parsed as decimal. |
| StepDefs.ToBigIntegerHexRoundTrip | evm/src/test/kotlin/StepDefs.kt:236-238 | "0x" followed by the hex digits of n parses to n. |
| StepDefs.ToBigIntegerDecimalRoundTrip | evm/src/test/kotlin/StepDefs.kt:236-238 | The decimal digits of n parse to n. |
| StepDefs.ParseHexByte | evm/src/test/kotlin/StepDefs.kt:258 | Two characters form a byte iff both are hex digits, and the byte is 16 times the first plus the second. |
| StepDefs.ParsePairs | evm/src/test/kotlin/StepDefs.kt:258 | Even-length text parses iff every character is a hex digit. It gives half as many bytes, whose big-endian value is the hex value of the text. |
| StepDefs.ToByteList | evm/src/test/kotlin/StepDefs.kt:254-259 | After the first "0x" is removed, the text parses iff it is all hex digits. It gives ceiling(digits/2) bytes, and their big-endian value is the value of the digits, so odd-length text reads with a leading '0'. |
| StepDefs.PadKeepsValue | evm/src/test/kotlin/StepDefs.kt:256 | Left-padding odd-length text with '0' keeps its validity and its value. |
| StepDefs.HexPairs | evm/src/test/kotlin/StepDefs.kt:254-259 | The hex text of a byte list has two characters per byte. |
| StepDefs.ParsePairsRoundTrip | evm/src/test/kotlin/StepDefs.kt:258 | The hex text of a byte list parses back to that byte list. |
| StepDefs.ToByteListRoundTrip | evm/src/test/kotlin/StepDefs.kt:254-259 | "0x" followed by the hex text of a byte list reads back as that byte list. |
| StepDefs.OpcodeNames | evm/src/test/kotlin/StepDefs.kt:241-242 | One name per comma-separated piece, each the trimmed piece. |
| StepDefs.ByteCodeFromNames | evm/src/test/kotlin/StepDefs.kt:240-244 | The codes of exactly the names that resolve to an opcode, in order: the values of the filtered names. So the output is no longer than the number of names, and exactly as long iff every name resolves. |
| StepDefs.CreateBaseExecutionContext | evm/src/test/kotlin/StepDefs.kt:272-302 | Exactly one frame. It is INITIAL, with an empty stack, memory, storage and call data and zero value, runs the single INVALID instruction, and has address 0 as caller and contract. Block (1, 10, 100), origin and coinbase 0xFFEEDD, gas price 1, no logs, not completed. |
| StepDefs.StepDefs.constructor | evm/src/test/kotlin/StepDefs.kt:13 | The scenario starts from the base execution context. |
| StepDefs.StepDefs.ReplaceCurrentBlock | evm/src/test/kotlin/StepDefs.kt:230-232 | Only the current block changes, to its update. |
| StepDefs.StepDefs.ReplaceLastCallContext | evm/src/test/kotlin/StepDefs.kt:246-252 | The call stack keeps its length. Every frame but the last is unchanged, the last becomes its update, and the other fields are unchanged. |
| StepDefs.StepDefs.SetPreviousCallType | evm/src/test/kotlin/StepDefs.kt:261-270 | The call stack keeps its length. The first frame takes the new call type, the rest are unchanged, and so is every other field. A one-frame stack therefore yields a single frame with the new type. |

## Left out

- The HTTP server in web/src/main/kotlin/Server.kt is left out: it is I/O and thread coordination.
- The classpath file loading in common/src/main/kotlin/Resources.kt is left out: it is I/O only.
- The transaction validator and its test are left out. `TransactionValidator` is not part of this model.
- `sendRawTransaction` and `sendTransaction` are left out. They decode signed transactions with web3j, hash with keccak256 and mutate the processor's state through code that is not part of this model.
- The account queries are left out: `getBalance`, `getStorageAt`, `getCode`, `getNonce`, `estimateGas` and `call`. The account store and `stp.call` are not part of this model. Their block resolution is modelled by `ProcessWorldStateAtBlock`.
- The small wrappers that are not part of the modelled core are left out: `coinbase`, `chainId`, `blockNumber`, `pendingBlockGasLimit`, the uncle counts, `getBlockByHash`, `getBlockByNumber`, `getBlockTransactionCountByHash`, `getTransactionReceipt` and `getTransactionByHash`. The last two return `getTxAndBlockByTxHash` unchanged.
- The cryptographic transforms of the precompiled contracts are parameters (`Primitives`): ecdsarecover, sha256, ripemd160, expmod, bnAdd, bnMul and snarkV. Their internals are not modelled.
- The Stack, Memory, Word, CallContext and world-state classes are not part of this model. They are modelled minimally and concretely:
  - the stack's maximum depth is not modelled, so Push cannot fail;
  - memory grows in 32-byte steps and reads zeros past its end;
  - `trimAndPadLeft` and `trimAndPadRight` keep the first bytes and zero-pad on the named side.
- EvmOps.Log: a LOG whose size word narrows to a negative Int ends in `InvalidMemorySize`. What `Memory.read` does with a negative size is not part of this model. `Word.toInt()` is taken to be `BigInteger.toInt()` of the word's unsigned value; the Word class is not part of this model.
- The logger, the cucumber step registrations, assertj assertions and the `Executor` and `result` fields of the scenario object are left out. They carry no logic of the modelled helpers.
- CreateBaseExecutionContext: the clock and the frame's gas are parameters. `lastReturnData`, `previousBlocks`, the EVM state and the program counter start empty or at 0, because their Kotlin defaults are not part of this model.
- `BigInteger` text parsing accepts ASCII digits only. Java also accepts other Unicode decimal digits, and the fullwidth Latin letters U+FF21 to U+FF3A and U+FF41 to U+FF5A as digits 10 to 35.
- StepDefs.Trim: whitespace is the ASCII subset of `Char.isWhitespace`. Other Unicode space characters are not stripped.
- StepDefs.ByteCodeFromNames: `Opcode.fromString` followed by `.code` is a parameter, because the opcode table is not part of this model.
- StepDefs.ParseHexByte: `Byte(text)` is modelled as exactly two hex digits. Any other text fails (None).
- The numeric value in `fromString` is the value of the hex digits after `0x`. The shared `toBigInteger` conversion it calls is not part of this model, and this is its evident meaning there.
- StandardEvmOperations.GetTransactionCount carries no contract of its own. It is the length of `GetTransactions`, and its properties are stated by `TransactionCountMonotone`.
- Context.ReadCode: reading past the end of the code yields zero bytes. `code.read` is not part of this model.
- StepDefs.InvalidOpcode: Opcode.INVALID is 0xFE. The `Opcode` table is not part of this model.
- Every EvmOps and precompiled-contract member, and StepDefs.StepDefs.ReplaceLastCallContext and StepDefs.StepDefs.SetPreviousCallType, require a call frame (`HasFrame`), where `callStack.last()` would throw on an empty call stack (StepDefs.kt:247 and 264).
- StandardEvmOperations.GetLogs: a missing bound falls back to the first or last block, so the model requires a non-empty chain where the source would throw. The same holds for every `first()` or `last()` on a block list.

## Findings

| source | as written | input that shows it | evidently intended | confidence | as-written member | corrected member |
|---|---|---|---|---|---|---|
| evm/src/main/kotlin/PrecompiledContractExecutor.kt:14-15 | `isPrecompiledContractCall` accepts every address value up to 8, but the dispatch table has entries only for 1 to 8 and ends in `TODO()` otherwise | a call to address 0 is routed to the dispatcher, which throws | the predicate holds for addresses 1 to 8 only, the entries of the dispatch table at lines 18-27 and the Ethereum precompile range | not executed; follows from the two cited code paths | PrecompiledContractExecutor.AddressZeroIsNotDispatched | PrecompiledContractExecutor.PrecompiledAddressesDispatch |
| rpc/src/main/kotlin/StandardEvmOperations.kt:243 | the transaction index is narrowed with `BigInteger.toInt()` before `getOrNull` | index 2^32 on a block with at least one transaction returns that block's first transaction instead of none | an out-of-range index gives none; the line's own TODO asks for BigInteger indexing; the two callers at lines 159 and 166-171 are modelled on the lookup as written | not executed | StandardEvmOperations.IndexIsTruncated | StandardEvmOperations.TransactionAtIndex |
