/**
 * The stack opcodes (PUSHn, DUPn, SWAPn, LOGn, POP) as functions from one
 * execution context to the next. Each rewrites only the current frame's
 * stack (and, for LOG, its memory and the context's log list).
 */
module EvmOps {
  import opened Wrappers
  import opened Bytes
  import Stack
  import opened Memory
  import opened Context

  /** PUSHn: push the numBytes code bytes that follow the current position. */
  function Push(ctx: ExecutionContext, numBytes: nat): (r: ExecutionContext)
    requires HasFrame(ctx)
    ensures OnlyCurrentFrameChanged(ctx, r)
    ensures |CurrentStack(r)| == |CurrentStack(ctx)| + 1
    ensures CurrentStack(r)[0].data ==
              ReadCode(CurrentCallContext(ctx).contract.code, CurrentCallContext(ctx).currentLocation + 1, numBytes)
    ensures CurrentStack(r)[1..] == CurrentStack(ctx)
    ensures CurrentMemory(r) == CurrentMemory(ctx)
  {
    var call := CurrentCallContext(ctx);
    var data := ReadCode(call.contract.code, call.currentLocation + 1, numBytes);
    var newStack := Stack.Push(call.stack, Word(data));
    UpdateCurrentCallCtx(ctx, newStack, call.memory)
  }

  /** DUPn (offset n - 1): push a copy of the word `offset` places below the top. */
  function Dup(ctx: ExecutionContext, offset: nat): (r: Result<ExecutionContext, EvmError>)
    requires HasFrame(ctx)
    ensures r.Ok? <==> offset < |CurrentStack(ctx)|
    ensures r.Err? ==> r.error == StackUnderflow
    ensures r.Ok? ==> OnlyCurrentFrameChanged(ctx, r.value) && CurrentMemory(r.value) == CurrentMemory(ctx)
    ensures r.Ok? ==> |CurrentStack(r.value)| == |CurrentStack(ctx)| + 1
    ensures r.Ok? ==> CurrentStack(r.value)[0] == CurrentStack(ctx)[offset]
    ensures r.Ok? ==> CurrentStack(r.value)[1..] == CurrentStack(ctx)
  {
    var call := CurrentCallContext(ctx);
    match Stack.Peek(call.stack, offset)
    case None => Err(StackUnderflow)
    case Some(data) => Ok(UpdateCurrentCallCtx(ctx, Stack.Push(call.stack, data), call.memory))
  }

  /** SWAPn (offset n - 1): exchange the top word with the one offset + 1 places below it. */
  function Swap(ctx: ExecutionContext, offset: nat): (r: Result<ExecutionContext, EvmError>)
    requires HasFrame(ctx)
    ensures r.Ok? <==> offset + 1 < |CurrentStack(ctx)|
    ensures r.Err? ==> r.error == StackUnderflow
    ensures r.Ok? ==> OnlyCurrentFrameChanged(ctx, r.value) && CurrentMemory(r.value) == CurrentMemory(ctx)
    ensures r.Ok? ==> |CurrentStack(r.value)| == |CurrentStack(ctx)|
    ensures r.Ok? ==> CurrentStack(r.value)[0] == CurrentStack(ctx)[offset + 1]
    ensures r.Ok? ==> CurrentStack(r.value)[offset + 1] == CurrentStack(ctx)[0]
    ensures r.Ok? ==> forall i :: 0 < i < |CurrentStack(ctx)| && i != offset + 1 ==>
                        CurrentStack(r.value)[i] == CurrentStack(ctx)[i]
  {
    var call := CurrentCallContext(ctx);
    var a := Stack.Peek(call.stack, offset + 1);
    var b := Stack.Peek(call.stack, 0);
    if a.None? || b.None? then Err(StackUnderflow)
    else
      match Stack.Set(call.stack, offset + 1, Word(b.value.data))
      case None => Err(StackUnderflow)
      case Some(s1) =>
        match Stack.Set(s1, 0, Word(a.value.data))
        case None => Err(StackUnderflow)
        case Some(s2) => Ok(UpdateCurrentCallCtx(ctx, s2, call.memory))
  }

  /**
   * LOGn (num = n): pop the memory position and size, then num topics; read
   * the region and append one log entry. A size whose 32-bit truncation is
   * negative is refused.
   */
  function Log(ctx: ExecutionContext, num: nat): (r: Result<ExecutionContext, EvmError>)
    requires HasFrame(ctx)
    ensures r.Ok? <==> 2 + num <= |CurrentStack(ctx)| && ToInt32(WordValue(CurrentStack(ctx)[1])) >= 0
    ensures r.Err? ==> (r.error == StackUnderflow <==> |CurrentStack(ctx)| < 2 + num)
    ensures r.Err? ==> r.error in {StackUnderflow, InvalidMemorySize}
    ensures r.Ok? ==>
              var st := CurrentStack(ctx);
              var read := Read(CurrentMemory(ctx), WordValue(st[0]), ToInt32(WordValue(st[1])));
              && OnlyCurrentFrameChanged(ctx, r.value.(logs := ctx.logs))
              && CurrentStack(r.value) == st[2 + num..]
              && CurrentMemory(r.value) == read.1
              && r.value.logs == ctx.logs + [Context.Log(read.0, st[2..2 + num])]
  {
    var call := CurrentCallContext(ctx);
    match Stack.PopWords(call.stack, 2)
    case None => Err(StackUnderflow)
    case Some((elements, newStack)) =>
      var p, s := elements[0], elements[1];
      match Stack.PopWords(newStack, num)
      case None => Err(StackUnderflow)
      case Some((topics, newStack2)) =>
        var size := ToInt32(WordValue(s));
        if size < 0 then Err(InvalidMemorySize)
        else
          var (data, newMemory) := Read(call.memory, WordValue(p), size);
          var newLog := Context.Log(data, topics);
          assert data == Read(CurrentMemory(ctx), WordValue(CurrentStack(ctx)[0]), ToInt32(WordValue(CurrentStack(ctx)[1]))).0;
          assert topics == CurrentStack(ctx)[2..2 + num];
          Ok(UpdateCurrentCallCtx(ctx, newStack2, newMemory).(logs := ctx.logs + [newLog]))
  }

  /** POP: discard the top word. */
  function Pop(ctx: ExecutionContext): (r: Result<ExecutionContext, EvmError>)
    requires HasFrame(ctx)
    ensures r.Ok? <==> |CurrentStack(ctx)| >= 1
    ensures r.Err? ==> r.error == StackUnderflow
    ensures r.Ok? ==> OnlyCurrentFrameChanged(ctx, r.value) && CurrentMemory(r.value) == CurrentMemory(ctx)
    ensures r.Ok? ==> CurrentStack(r.value) == CurrentStack(ctx)[1..]
  {
    var call := CurrentCallContext(ctx);
    match Stack.Pop(call.stack)
    case None => Err(StackUnderflow)
    case Some((_, newStack)) => Ok(UpdateCurrentCallCtx(ctx, newStack, call.memory))
  }

  /** POP undoes PUSHn. */
  lemma PopAfterPush(ctx: ExecutionContext, numBytes: nat)
    requires HasFrame(ctx)
    ensures Pop(Push(ctx, numBytes)) == Ok(ctx)
  {
    var r := Pop(Push(ctx, numBytes)).value;
    OnlyCurrentFrameChangedTransitive(ctx, Push(ctx, numBytes), r);
    OnlyCurrentFrameChangedRestores(ctx, r);
  }

  /** POP undoes a successful DUPn. */
  lemma PopAfterDup(ctx: ExecutionContext, offset: nat)
    requires HasFrame(ctx) && offset < |CurrentStack(ctx)|
    ensures Pop(Dup(ctx, offset).value) == Ok(ctx)
  {
    var d := Dup(ctx, offset).value;
    var r := Pop(d).value;
    OnlyCurrentFrameChangedTransitive(ctx, d, r);
    OnlyCurrentFrameChangedRestores(ctx, r);
  }

  /** SWAPn is an involution: applying it twice gives back the context. */
  lemma SwapTwice(ctx: ExecutionContext, offset: nat)
    requires HasFrame(ctx) && offset + 1 < |CurrentStack(ctx)|
    ensures Swap(ctx, offset).Ok? && Swap(Swap(ctx, offset).value, offset) == Ok(ctx)
  {
    var s1 := Swap(ctx, offset).value;
    var s2 := Swap(s1, offset).value;
    OnlyCurrentFrameChangedTransitive(ctx, s1, s2);
    assert CurrentStack(s2) == CurrentStack(ctx);
    OnlyCurrentFrameChangedRestores(ctx, s2);
  }
}
