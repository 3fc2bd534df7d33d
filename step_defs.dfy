/**
 * The scenario helpers of the interpreter's behaviour tests: the base
 * execution context every scenario starts from, the in-place edits the
 * steps make to it, and the parsers for the hex and opcode-name arguments.
 */
module StepDefs {
  import opened Wrappers
  import opened Bytes
  import opened Context
  import opened Conversions
  import opened Seqs
  import Stack
  import Memory

  // ---------------------------------------------------------------------
  // String helpers
  // ---------------------------------------------------------------------

  /** "0x" occurs in s at position k. */
  predicate Is0xAt(s: string, k: nat)
  {
    k + 1 < |s| && s[k] == '0' && s[k + 1] == 'x'
  }

  /** The position of the first "0x" in s (String.indexOf("0x")), if there is one. */
  function First0x(s: string): (r: Option<nat>)
    ensures r.None? <==> forall k: nat :: !Is0xAt(s, k)
    ensures r.Some? ==> Is0xAt(s, r.value) && forall j: nat :: j < r.value ==> !Is0xAt(s, j)
  {
    if |s| < 2 then None
    else if Is0xAt(s, 0) then Some(0)
    else
      assert forall k: nat :: 1 <= k ==> (Is0xAt(s, k) <==> Is0xAt(s[1..], k - 1));
      match First0x(s[1..])
      case None => None
      case Some(k) => assert Is0xAt(s, k + 1); Some(k + 1)
  }

  /** String.replaceFirst("0x", ""): drop the first occurrence of "0x", wherever it is, and keep the rest. */
  function RemoveFirst0x(s: string): (r: string)
    ensures First0x(s).None? ==> r == s
    ensures First0x(s).Some? ==> r == s[..First0x(s).value] + s[First0x(s).value + 2..]
    ensures StartsWith0x(s) ==> r == s[2..]
  {
    assert StartsWith0x(s) ==> s[0] == s[..2][0] && s[1] == s[..2][1];
    if |s| < 2 then s
    else if Is0xAt(s, 0) then s[2..]
    else
      var rest := RemoveFirst0x(s[1..]);
      if First0x(s[1..]).Some? then
        var k := First0x(s[1..]).value;
        assert [s[0]] + s[1..][..k] == s[..k + 1] && s[1..][k + 2..] == s[k + 3..];
        [s[0]] + rest
      else [s[0]] + rest
  }

  /** The number of occurrences of c in s. */
  function Count(s: string, c: char): nat
  {
    if s == [] then 0 else (if s[0] == c then 1 else 0) + Count(s[1..], c)
  }

  /** String.split(sep): the pieces between separators, empty ones included. */
  function Split(s: string, sep: char): (r: seq<string>)
    ensures |r| == Count(s, sep) + 1
    ensures forall i :: 0 <= i < |r| ==> sep !in r[i]
  {
    if s == [] then [""]
    else
      var rest := Split(s[1..], sep);
      if s[0] == sep then [""] + rest
      else [[s[0]] + rest[0]] + rest[1..]
  }

  /** joinToString(sep), the inverse of Split. */
  function Join(parts: seq<string>, sep: char): string
    requires parts != []
  {
    if |parts| == 1 then parts[0] else parts[0] + [sep] + Join(parts[1..], sep)
  }

  /** Splitting and joining again gives back the original string. */
  lemma {:induction false} SplitJoin(s: string, sep: char)
    ensures Join(Split(s, sep), sep) == s
  {
    if s != [] {
      SplitJoin(s[1..], sep);
      var rest := Split(s[1..], sep);
      if s[0] != sep {
        var r := Split(s, sep);
        assert r[0] == [s[0]] + rest[0] && r[1..] == rest[1..];
        if |rest| > 1 {
          assert rest[1..] != [] && Join(rest, sep) == rest[0] + [sep] + Join(rest[1..], sep);
        }
      } else {
        assert Split(s, sep)[1..] == rest;
      }
    }
  }

  /** Whitespace as Char.isWhitespace reports it on ASCII. */
  predicate IsWhitespace(c: char)
  {
    c == ' ' || '\t' <= c <= '\r' || '\U{1C}' <= c <= '\U{1F}'
  }

  /** The length of the run of whitespace s starts with. */
  function LeadingWhitespace(s: string): (n: nat)
    ensures n <= |s|
    ensures forall k :: 0 <= k < n ==> IsWhitespace(s[k])
    ensures n < |s| ==> !IsWhitespace(s[n])
  {
    if s != [] && IsWhitespace(s[0]) then 1 + LeadingWhitespace(s[1..]) else 0
  }

  function TrimEnd(s: string): (r: string)
    ensures |r| <= |s| && r == s[..|r|]
    ensures r != [] ==> !IsWhitespace(r[|r| - 1])
    ensures forall i :: |r| <= i < |s| ==> IsWhitespace(s[i])
  {
    if s != [] && IsWhitespace(s[|s| - 1]) then TrimEnd(s[..|s| - 1]) else s
  }

  /** String.trim(): the slice of s between its leading and its trailing whitespace. */
  function Trim(s: string): (r: string)
    ensures var i := LeadingWhitespace(s);
            && i + |r| <= |s| && r == s[i..i + |r|]
            && forall k :: i + |r| <= k < |s| ==> IsWhitespace(s[k])
    ensures r != [] ==> !IsWhitespace(r[0]) && !IsWhitespace(r[|r| - 1])
    ensures (forall k :: 0 <= k < |s| ==> !IsWhitespace(s[k])) ==> r == s
  {
    var i := LeadingWhitespace(s);
    var r := TrimEnd(s[i..]);
    assert r == s[i..i + |r|];
    r
  }

  // ---------------------------------------------------------------------
  // toBigInteger, toByteList, byteCodeFromNames
  // ---------------------------------------------------------------------

  /** toBigInteger: "0x"-prefixed text is hex, anything else decimal; None where BigInteger throws. */
  function ToBigInteger(s: string): (r: Option<int>)
    ensures StartsWith0x(s) ==> r == ParseBigInteger(s[2..], 16)
    ensures !StartsWith0x(s) ==> r == ParseBigInteger(s, 10)
  {
    if StartsWith0x(s) then ParseBigInteger(RemoveFirst0x(s), 16) else ParseBigInteger(s, 10)
  }

  /** Hex text of n parses back to n. */
  lemma ToBigIntegerHexRoundTrip(n: nat)
    ensures ToBigInteger("0x" + ToDigits(n, 16)) == Some(n)
  {
    var d := ToDigits(n, 16);
    assert ("0x" + d)[..2] == "0x" && ("0x" + d)[2..] == d;
    ParseBigIntegerRoundTrip(n, 16);
  }

  /** Decimal text of n parses back to n. */
  lemma ToBigIntegerDecimalRoundTrip(n: nat)
    ensures ToBigInteger(ToDigits(n, 10)) == Some(n)
  {
    var d := ToDigits(n, 10);
    assert |d| >= 2 ==> IsDigit(d[1], 10) && d[1] == d[..2][1];
  }

  /** Byte(text): the value of two hex digits; None for anything else. */
  function ParseHexByte(pair: string): (r: Option<Byte>)
    requires |pair| == 2
    ensures r.Some? <==> IsHexDigit(pair[0]) && IsHexDigit(pair[1])
    ensures r.Some? ==> r.value == DigitValue(pair[0], 16) * 16 + DigitValue(pair[1], 16)
  {
    if IsHexDigit(pair[0]) && IsHexDigit(pair[1]) then
      Some(DigitValue(pair[0], 16) * 16 + DigitValue(pair[1], 16))
    else None
  }

  predicate AllHex(s: string)
  {
    forall i :: 0 <= i < |s| ==> IsHexDigit(s[i])
  }

  /** chunked(2).map { Byte(it) } on text of even length. */
  function ParsePairs(s: string): (r: Option<seq<Byte>>)
    requires |s| % 2 == 0
    ensures r.Some? <==> AllHex(s)
    ensures r.Some? ==> |r.value| == |s| / 2
    ensures r.Some? ==> AllDigits(s, 16) && BigEndian(r.value) == HexValue(s)
  {
    if s == [] then Some([])
    else
      var n := |s|;
      var init := ParsePairs(s[..n - 2]);
      var last := ParseHexByte(s[n - 2..]);
      assert forall i :: 0 <= i < n - 2 ==> s[..n - 2][i] == s[i];
      assert s[n - 2..][0] == s[n - 2] && s[n - 2..][1] == s[n - 1];
      if init.None? || last.None? then None
      else
        var r := init.value + [last.value];
        HexDigitsAreDigits(s);
        HexDigitsAreDigits(s[..n - 1]);
        assert r[..|r| - 1] == init.value;
        assert s[..n - 1][..n - 2] == s[..n - 2];
        assert HexValue(s) == DigitsValue(s[..n - 1], 16) * 16 + DigitValue(s[n - 1], 16);
        assert DigitsValue(s[..n - 1], 16) == DigitsValue(s[..n - 2], 16) * 16 + DigitValue(s[n - 2], 16);
        Some(r)
  }

  /**
   * toByteList: drop the first "0x", left-pad odd-length text with '0', and
   * read each pair of hex digits as one byte; None where Byte(text) throws.
   */
  function ToByteList(bytes: string): (r: Option<seq<Byte>>)
    ensures var digits := RemoveFirst0x(bytes);
            && (r.Some? <==> AllHex(digits))
            && (r.Some? ==>
                  |r.value| == (|digits| + 1) / 2 && AllDigits(digits, 16) && BigEndian(r.value) == HexValue(digits))
  {
    var noPrefix := RemoveFirst0x(bytes);
    var clean := if |noPrefix| % 2 == 0 then noPrefix else "0" + noPrefix;
    PadKeepsValue(noPrefix);
    ParsePairs(clean)
  }

  /** Left-padding odd-length text with '0' keeps its digits and their value. */
  lemma PadKeepsValue(s: string)
    ensures var clean := if |s| % 2 == 0 then s else "0" + s;
            && (AllHex(clean) <==> AllHex(s))
            && (AllHex(s) ==> AllDigits(s, 16) && AllDigits(clean, 16) && HexValue(clean) == HexValue(s))
  {
    HexDigitsAreDigits(s);
    if |s| % 2 != 0 {
      var clean := "0" + s;
      assert forall i :: 0 <= i < |s| ==> clean[i + 1] == s[i];
      assert AllHex(clean) <==> AllHex(s);
      if AllHex(s) {
        LeadingZero(s, 16);
      }
    }
  }

  /** The two lower-case hex digits of a byte. */
  function HexByte(b: Byte): string
  {
    [DigitChar(b / 16, 16), DigitChar(b % 16, 16)]
  }

  /** Bytes written as hex text, two digits each. */
  function HexPairs(bytes: seq<Byte>): (s: string)
    ensures |s| == 2 * |bytes|
  {
    if bytes == [] then [] else HexPairs(bytes[..|bytes| - 1]) + HexByte(bytes[|bytes| - 1])
  }

  lemma {:induction false} ParsePairsRoundTrip(bytes: seq<Byte>)
    ensures ParsePairs(HexPairs(bytes)) == Some(bytes)
  {
    if bytes != [] {
      var n := |bytes|;
      var s := HexPairs(bytes);
      ParsePairsRoundTrip(bytes[..n - 1]);
      assert s[..|s| - 2] == HexPairs(bytes[..n - 1]);
      assert s[|s| - 2..] == HexByte(bytes[n - 1]);
      assert bytes[..n - 1] + [bytes[n - 1]] == bytes;
    }
  }

  /** "0x" followed by the hex text of a byte list reads back as that byte list. */
  lemma ToByteListRoundTrip(bytes: seq<Byte>)
    ensures ToByteList("0x" + HexPairs(bytes)) == Some(bytes)
  {
    var s := "0x" + HexPairs(bytes);
    assert s[..2] == "0x" && s[2..] == HexPairs(bytes);
    ParsePairsRoundTrip(bytes);
  }

  /** One name per comma-separated piece, without the surrounding whitespace. */
  function OpcodeNames(byteCodeNames: string): (r: seq<string>)
    ensures |r| == Count(byteCodeNames, ',') + 1
    ensures forall i :: 0 <= i < |r| ==> r[i] == Trim(Split(byteCodeNames, ',')[i])
  {
    var parts := Split(byteCodeNames, ',');
    seq(|parts|, i requires 0 <= i < |parts| => Trim(parts[i]))
  }

  /**
   * byteCodeFromNames: the codes of the names that resolve to an opcode, in
   * order; opcodeCode is Opcode.fromString followed by .code.
   */
  function ByteCodeFromNames(byteCodeNames: string, opcodeCode: string -> Option<Byte>): (r: seq<Byte>)
    ensures |r| <= Count(byteCodeNames, ',') + 1
    ensures var names := OpcodeNames(byteCodeNames);
            |r| == |names| <==> forall i :: 0 <= i < |names| ==> opcodeCode(names[i]).Some?
    ensures var names := OpcodeNames(byteCodeNames);
            |r| == |names| ==> forall i :: 0 <= i < |names| ==> r[i] == opcodeCode(names[i]).value
    ensures var resolving := Filter(OpcodeNames(byteCodeNames), Resolves(opcodeCode));
            && (forall i :: 0 <= i < |resolving| ==> opcodeCode(resolving[i]).Some?)
            && r == Values(resolving, opcodeCode)
  {
    MapNotNullIsFilterValues(OpcodeNames(byteCodeNames), opcodeCode);
    MapNotNull(OpcodeNames(byteCodeNames), opcodeCode)
  }

  // ---------------------------------------------------------------------
  // The scenario state
  // ---------------------------------------------------------------------

  /** Opcode.INVALID. */
  const InvalidOpcode: Byte := 0xFE

  /**
   * createBaseExecutionContext: one INITIAL frame with nothing on its stack,
   * in memory or in its call data, running the single INVALID instruction.
   * The clock and the frame's gas are given; fields the source leaves at
   * their defaults start empty.
   */
  function CreateBaseExecutionContext(clock: int, gas: nat): (ctx: ExecutionContext)
    ensures |ctx.callStack| == 1
    ensures var call := ctx.callStack[0];
            && call.callType == Initial && call.stack.elements == [] && call.memory.data == []
            && call.callData == [] && call.value == 0 && call.valueRemaining == 0
            && call.contract == Contract([InvalidOpcode], Address(0)) && call.caller == Address(0)
            && call.storage == map[] && call.gasRemaining == gas
    ensures ctx.currentBlock == Block(1, 10, 100)
    ensures ctx.currentTransaction == Transaction(Address(0xFFEEDD), 1)
    ensures ctx.coinBase == Address(0xFFEEDD) && ctx.logs == [] && !ctx.completed && ctx.clock == clock
  {
    var call := CallContext(
      caller := Address(0),
      callData := [],
      contract := Contract([InvalidOpcode], Address(0)),
      callType := Initial,
      value := 0,
      valueRemaining := 0,
      stack := Stack.Stack([]),
      memory := Memory.Memory([]),
      storage := map[],
      currentLocation := 0,
      gasRemaining := gas);
    ExecutionContext(
      currentBlock := Block(1, 10, 100),
      currentTransaction := Transaction(Address(0xFFEEDD), 1),
      coinBase := Address(0xFFEEDD),
      logs := [],
      completed := false,
      clock := clock,
      callStack := [call],
      lastReturnData := [],
      previousBlocks := map[],
      evmState := EvmState(map[], map[]))
  }

  /** The scenario object: the execution context the steps build up in place. */
  class StepDefs {
    var executionContext: ExecutionContext

    constructor (clock: int, gas: nat)
      ensures executionContext == CreateBaseExecutionContext(clock, gas)
    {
      executionContext := CreateBaseExecutionContext(clock, gas);
    }

    /** replaceCurrentBlock: only the current block changes, to its update. */
    method ReplaceCurrentBlock(updateBlock: Block -> Block)
      modifies this
      ensures executionContext ==
              old(executionContext).(currentBlock := updateBlock(old(executionContext).currentBlock))
    {
      executionContext := executionContext.(currentBlock := updateBlock(executionContext.currentBlock));
    }

    /**
     * replaceLastCallContext: the call stack keeps its length, the last frame
     * becomes its update and every other frame and field is unchanged.
     */
    method ReplaceLastCallContext(updateContext: CallContext -> CallContext)
      requires |executionContext.callStack| > 0
      modifies this
      ensures |executionContext.callStack| == |old(executionContext.callStack)|
      ensures var n := |executionContext.callStack|;
              && executionContext.callStack[..n - 1] == old(executionContext.callStack)[..n - 1]
              && executionContext.callStack[n - 1] == updateContext(old(executionContext.callStack)[n - 1])
      ensures executionContext.(callStack := old(executionContext.callStack)) == old(executionContext)
    {
      var callStack := executionContext.callStack;
      var lastCallContext := callStack[|callStack| - 1];
      var newCallContext := updateContext(lastCallContext);
      var newCallStackList := callStack[..|callStack| - 1] + [newCallContext];
      executionContext := executionContext.(callStack := newCallStackList);
    }

    /**
     * setPreviousCallType: the first frame takes the call type and the rest
     * stay. On a one-frame stack the source first duplicates the frame, which
     * comes to the same: a single frame with the new type.
     */
    method SetPreviousCallType(callType: CallType)
      requires |executionContext.callStack| > 0
      modifies this
      ensures |executionContext.callStack| == |old(executionContext.callStack)|
      ensures executionContext.callStack[0] == old(executionContext.callStack)[0].(callType := callType)
      ensures executionContext.callStack[1..] == old(executionContext.callStack)[1..]
      ensures executionContext.(callStack := old(executionContext.callStack)) == old(executionContext)
    {
      var original := executionContext.callStack;
      var callStack :=
        if |original| > 1 then original
        else [original[|original| - 1]] + original;
      var newCallContext := callStack[0].(callType := callType);
      var newCallStackList := [newCallContext] + original[1..];
      executionContext := executionContext.(callStack := newCallStackList);
    }
  }
}
