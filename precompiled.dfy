/**
 * The precompiled-contract dispatcher: a fixed table from small addresses to
 * byte-to-byte transforms, and the protocol that reads the call's input from
 * memory, applies the transform and writes a non-empty result back.
 */
module PrecompiledContractExecutor {
  import opened Wrappers
  import opened Bytes
  import opened Memory
  import opened Context

  /** The operands of a call-family opcode that the dispatcher uses. */
  datatype CallArguments = CallArguments(
    address: Address,
    inLocation: nat,
    inSize: nat,
    outLocation: nat,
    outSize: nat)

  /** The cryptographic primitives behind the precompiled contracts, supplied from outside. */
  datatype Primitives = Primitives(
    ecdsarecover: seq<Byte> -> seq<Byte>,
    sha256: seq<Byte> -> Word,
    ripemd160: seq<Byte> -> Word,
    expmod: seq<Byte> -> seq<Byte>,
    bnAdd: seq<Byte> -> seq<Byte>,
    bnMul: seq<Byte> -> seq<Byte>,
    snarkV: seq<Byte> -> seq<Byte>)

  /** As written: every address up to 8, address 0 included. */
  function IsPrecompiledContractCall(address: Address): (b: bool)
    ensures b <==> address.value == 0 || IsPrecompiledAddress(address)
  {
    address.value <= 8
  }

  /** The addresses the dispatch table has an entry for. */
  predicate IsPrecompiledAddress(address: Address)
  {
    1 <= address.value <= 8
  }

  /** The dispatch key: the address value narrowed with BigInteger.toInt(). */
  function DispatchKey(address: Address): int
  {
    ToInt32(address.value)
  }

  /** The dispatch table as data: what contract `key` returns for `input`. */
  function PrecompiledOutput(key: int, prims: Primitives, input: seq<Byte>): seq<Byte>
    requires 1 <= key <= 8
  {
    if key == 1 then TrimAndPadLeft(prims.ecdsarecover(input), 32)
    else if key == 2 then prims.sha256(input).data
    else if key == 3 then prims.ripemd160(input).data
    else if key == 4 then input
    else if key == 5 then prims.expmod(input)
    else if key == 6 then prims.bnAdd(input)
    else if key == 7 then prims.bnMul(input)
    else prims.snarkV(input)
  }

  /**
   * executePrecompiled: read (inLocation, inSize), apply func, and write the
   * result trimmed or padded to outSize at outLocation unless it is empty.
   * Only the current frame's memory changes.
   */
  function ExecutePrecompiled(ctx: ExecutionContext, args: CallArguments, func: seq<Byte> -> seq<Byte>)
    : (r: ExecutionContext)
    requires HasFrame(ctx)
    ensures OnlyCurrentFrameChanged(ctx, r) && CurrentStack(r) == CurrentStack(ctx)
    ensures var (input, afterRead) := Read(CurrentMemory(ctx), args.inLocation, args.inSize);
            func(input) == [] ==> CurrentMemory(r) == afterRead
    ensures var (input, afterRead) := Read(CurrentMemory(ctx), args.inLocation, args.inSize);
            func(input) != [] ==>
              CurrentMemory(r) == Write(afterRead, args.outLocation, TrimAndPadRight(func(input), args.outSize))
  {
    var (input, newMemory) := Read(CurrentMemory(ctx), args.inLocation, args.inSize);
    var output := func(input);
    var newMemory2 :=
      if output != [] then Write(newMemory, args.outLocation, TrimAndPadRight(output, args.outSize))
      else newMemory;
    UpdateCurrentCallCtx(ctx, CurrentCallContext(ctx).stack, newMemory2)
  }

  /** doPrecompiled: dispatch on the address; an address without an entry is a TODO() error. */
  function DoPrecompiled(ctx: ExecutionContext, args: CallArguments, prims: Primitives)
    : (r: Result<ExecutionContext, EvmError>)
    requires HasFrame(ctx)
    ensures r.Ok? <==> 1 <= DispatchKey(args.address) <= 8
    ensures r.Err? ==> r.error == NotImplemented
    ensures r.Ok? ==> OnlyCurrentFrameChanged(ctx, r.value) && CurrentStack(r.value) == CurrentStack(ctx)
    ensures r.Ok? ==>
              var (input, afterRead) := Read(CurrentMemory(ctx), args.inLocation, args.inSize);
              var output := PrecompiledOutput(DispatchKey(args.address), prims, input);
              CurrentMemory(r.value) ==
                if output == [] then afterRead
                else Write(afterRead, args.outLocation, TrimAndPadRight(output, args.outSize))
  {
    var key := DispatchKey(args.address);
    if key == 1 then Ok(ExecutePrecompiled(ctx, args, input => TrimAndPadLeft(prims.ecdsarecover(input), 32)))
    else if key == 2 then Ok(ExecutePrecompiled(ctx, args, input => prims.sha256(input).data))
    else if key == 3 then Ok(ExecutePrecompiled(ctx, args, input => prims.ripemd160(input).data))
    else if key == 4 then Ok(ExecutePrecompiled(ctx, args, input => input))
    else if key == 5 then Ok(ExecutePrecompiled(ctx, args, input => prims.expmod(input)))
    else if key == 6 then Ok(ExecutePrecompiled(ctx, args, input => prims.bnAdd(input)))
    else if key == 7 then Ok(ExecutePrecompiled(ctx, args, input => prims.bnMul(input)))
    else if key == 8 then Ok(ExecutePrecompiled(ctx, args, input => prims.snarkV(input)))
    else Err(NotImplemented)
  }

  /**
   * When the transform's output is non-empty, the caller's output region
   * holds exactly that output trimmed or padded to outSize, and every byte
   * outside the region is as the input read left it.
   */
  lemma OutputRegion(ctx: ExecutionContext, args: CallArguments, func: seq<Byte> -> seq<Byte>)
    requires HasFrame(ctx)
    requires func(Read(CurrentMemory(ctx), args.inLocation, args.inSize).0) != []
    ensures var (input, afterRead) := Read(CurrentMemory(ctx), args.inLocation, args.inSize);
            var m := CurrentMemory(ExecutePrecompiled(ctx, args, func));
            && Read(m, args.outLocation, args.outSize).0 == TrimAndPadRight(func(input), args.outSize)
            && forall i :: 0 <= i < |m.data| && !(args.outLocation <= i < args.outLocation + args.outSize) ==>
                 m.data[i] == ByteAt(afterRead, i)
  {
    var (input, afterRead) := Read(CurrentMemory(ctx), args.inLocation, args.inSize);
    var out := TrimAndPadRight(func(input), args.outSize);
    ReadAfterWrite(afterRead, args.outLocation, out, args.outSize);
    assert out[..args.outSize] == out;
  }

  /**
   * Identity (address 4): with a non-empty input and an output region at
   * least as large, the output region starts with exactly the input bytes.
   */
  lemma IdentityCopiesInput(ctx: ExecutionContext, args: CallArguments, prims: Primitives)
    requires HasFrame(ctx) && args.address.value == 4
    requires 0 < args.inSize <= args.outSize
    ensures DoPrecompiled(ctx, args, prims).Ok?
    ensures Read(CurrentMemory(DoPrecompiled(ctx, args, prims).value), args.outLocation, args.inSize).0 ==
            Read(CurrentMemory(ctx), args.inLocation, args.inSize).0
  {
    var (input, afterRead) := Read(CurrentMemory(ctx), args.inLocation, args.inSize);
    var out := TrimAndPadRight(input, args.outSize);
    ReadAfterWrite(afterRead, args.outLocation, out, args.inSize);
    assert out[..args.inSize] == input;
  }

  /** As written, address 0 counts as a precompiled call although the table has no entry for it. */
  lemma AddressZeroIsNotDispatched(ctx: ExecutionContext, args: CallArguments, prims: Primitives)
    requires HasFrame(ctx) && args.address == Address(0)
    ensures IsPrecompiledContractCall(args.address)
    ensures DoPrecompiled(ctx, args, prims) == Err(NotImplemented)
  {
  }

  /**
   * The corrected range: for every address the dispatcher can tell apart,
   * it is precompiled exactly when the table has an entry for it; the
   * as-written test admits address 0 on top of these.
   */
  lemma PrecompiledAddressesDispatch(ctx: ExecutionContext, args: CallArguments, prims: Primitives)
    requires HasFrame(ctx) && args.address.value < TwoTo31
    ensures IsPrecompiledAddress(args.address) <==> DoPrecompiled(ctx, args, prims).Ok?
    ensures IsPrecompiledContractCall(args.address) <==> IsPrecompiledAddress(args.address) || args.address.value == 0
  {
  }
}
