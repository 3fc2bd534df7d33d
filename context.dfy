/**
 * The interpreter's state: call frames (CallContext) stacked inside an
 * ExecutionContext. Both are values; an operation yields a new context and
 * leaves the old one intact. The last frame of the call stack is the one
 * executing.
 */
module Context {
  import opened Bytes
  import opened Stack
  import opened Memory

  /** A 160-bit account identifier, kept as its numeric value. */
  datatype Address = Address(value: nat)

  datatype CallType = Initial | Call | CallCode | DelegateCall | StaticCall | Create

  datatype Contract = Contract(code: seq<Byte>, address: Address)

  /** One activation record of the interpreter. */
  datatype CallContext = CallContext(
    caller: Address,
    callData: seq<Byte>,
    contract: Contract,
    callType: CallType,
    value: nat,
    valueRemaining: nat,
    stack: Stack,
    memory: Memory,
    storage: map<nat, Word>,
    currentLocation: nat,
    gasRemaining: nat)

  /** A log entry: the data read from memory and its topic words. */
  datatype Log = Log(data: seq<Byte>, topics: seq<Word>)

  datatype Block = Block(number: int, difficulty: int, gasLimit: int)

  datatype Transaction = Transaction(origin: Address, gasPrice: int)

  /** The account state the interpreter runs against (balances and deployed code). */
  datatype EvmState = EvmState(balances: map<Address, int>, contracts: map<Address, Contract>)

  datatype ExecutionContext = ExecutionContext(
    currentBlock: Block,
    currentTransaction: Transaction,
    coinBase: Address,
    logs: seq<Log>,
    completed: bool,
    clock: int,
    callStack: seq<CallContext>,
    lastReturnData: seq<Byte>,
    previousBlocks: map<int, Word>,
    evmState: EvmState)

  /** Errors an operation can end in instead of a new context. */
  datatype EvmError = StackUnderflow | InvalidMemorySize | NotImplemented

  predicate HasFrame(ctx: ExecutionContext)
  {
    |ctx.callStack| > 0
  }

  /** The frame being executed: the last one on the call stack. */
  function CurrentCallContext(ctx: ExecutionContext): CallContext
    requires HasFrame(ctx)
  {
    ctx.callStack[|ctx.callStack| - 1]
  }

  /** The current frame's stack, top first. */
  function CurrentStack(ctx: ExecutionContext): seq<Word>
    requires HasFrame(ctx)
  {
    CurrentCallContext(ctx).stack.elements
  }

  function CurrentMemory(ctx: ExecutionContext): Memory
    requires HasFrame(ctx)
  {
    CurrentCallContext(ctx).memory
  }

  /**
   * r differs from ctx in nothing but the stack and the memory of the current
   * frame: same number of frames, every earlier frame and every other field of
   * the current frame and of the context as before.
   */
  predicate OnlyCurrentFrameChanged(ctx: ExecutionContext, r: ExecutionContext)
  {
    && |r.callStack| == |ctx.callStack| > 0
    && (forall i :: 0 <= i < |ctx.callStack| - 1 ==> r.callStack[i] == ctx.callStack[i])
    && CurrentCallContext(r) ==
         CurrentCallContext(ctx).(stack := CurrentCallContext(r).stack, memory := CurrentCallContext(r).memory)
    && r.(callStack := ctx.callStack) == ctx
  }

  /** ExecutionContext.updateCurrentCallCtx: replace the current frame's stack and memory. */
  function UpdateCurrentCallCtx(ctx: ExecutionContext, stack: Stack, memory: Memory): (r: ExecutionContext)
    requires HasFrame(ctx)
    ensures OnlyCurrentFrameChanged(ctx, r)
    ensures CurrentCallContext(r).stack == stack && CurrentCallContext(r).memory == memory
  {
    var n := |ctx.callStack|;
    ctx.(callStack := ctx.callStack[..n - 1] + [ctx.callStack[n - 1].(stack := stack, memory := memory)])
  }

  /**
   * code.read(start, n): n bytes of contract code from position start; bytes
   * past the end of the code read as zero.
   */
  function ReadCode(code: seq<Byte>, start: nat, n: nat): (r: seq<Byte>)
    ensures |r| == n
    ensures forall i :: 0 <= i < n && start + i < |code| ==> r[i] == code[start + i]
    ensures forall i :: 0 <= i < n && start + i >= |code| ==> r[i] == 0
  {
    seq(n, i => if 0 <= start + i < |code| then code[start + i] else 0)
  }

  /** Changes confined to the current frame compose. */
  lemma OnlyCurrentFrameChangedTransitive(a: ExecutionContext, b: ExecutionContext, c: ExecutionContext)
    requires OnlyCurrentFrameChanged(a, b) && OnlyCurrentFrameChanged(b, c)
    ensures OnlyCurrentFrameChanged(a, c)
  {
  }

  /** A frame-local change that restores the current stack and memory restores the context. */
  lemma {:induction false} OnlyCurrentFrameChangedRestores(ctx: ExecutionContext, r: ExecutionContext)
    requires OnlyCurrentFrameChanged(ctx, r)
    requires CurrentCallContext(r).stack == CurrentCallContext(ctx).stack
    requires CurrentCallContext(r).memory == CurrentCallContext(ctx).memory
    ensures r == ctx
  {
    assert r.callStack == ctx.callStack;
  }
}
