/**
 * The operand stack of a call frame. Element 0 is the top: `peek(0)` is the
 * word most recently pushed. Every operation yields a new stack; None stands
 * for the StackUnderflow the real stack throws.
 */
module Stack {
  import opened Bytes
  import opened Wrappers

  datatype Stack = Stack(elements: seq<Word>)

  function Size(s: Stack): nat
  {
    |s.elements|
  }

  function Push(s: Stack, w: Word): (r: Stack)
    ensures Size(r) == Size(s) + 1
    ensures r.elements[0] == w && r.elements[1..] == s.elements
  {
    Stack([w] + s.elements)
  }

  /** The top word and the stack below it; None on an empty stack. */
  function Pop(s: Stack): (r: Option<(Word, Stack)>)
    ensures r.Some? <==> Size(s) >= 1
    ensures r.Some? ==> [r.value.0] + r.value.1.elements == s.elements
  {
    if |s.elements| == 0 then None else Some((s.elements[0], Stack(s.elements[1..])))
  }

  /** The top n words, topmost first, and the stack below them. */
  function PopWords(s: Stack, n: nat): (r: Option<(seq<Word>, Stack)>)
    ensures r.Some? <==> n <= Size(s)
    ensures r.Some? ==> |r.value.0| == n && r.value.0 + r.value.1.elements == s.elements
  {
    if |s.elements| < n then None else Some((s.elements[..n], Stack(s.elements[n..])))
  }

  /** The word `offset` places below the top. */
  function Peek(s: Stack, offset: nat): (r: Option<Word>)
    ensures r.Some? <==> offset < Size(s)
    ensures r.Some? ==> r.value == s.elements[offset]
  {
    if offset < |s.elements| then Some(s.elements[offset]) else None
  }

  /** The stack with the word `offset` places below the top replaced by w. */
  function Set(s: Stack, offset: nat, w: Word): (r: Option<Stack>)
    ensures r.Some? <==> offset < Size(s)
    ensures r.Some? ==> r.value.elements == s.elements[offset := w]
  {
    if offset < |s.elements| then Some(Stack(s.elements[offset := w])) else None
  }

  /** Last in, first out: popping after a push gives back the word and the old stack. */
  lemma PopAfterPush(s: Stack, w: Word)
    ensures Pop(Push(s, w)) == Some((w, s))
  {
  }
}
