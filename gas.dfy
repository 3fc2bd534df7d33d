/**
 * The fixed gas schedule (the fee schedule of the Ethereum Yellow Paper,
 * Appendix G): named costs, refunds and the categories of opcode cost.
 */
module Gas {

  /** Refunds credited at the end of a transaction, in gas. */
  datatype Refund = SelfDestruct | StorageClear

  function Wei(r: Refund): (w: int)
    ensures w > 0
  {
    match r
    case SelfDestruct => 24000
    case StorageClear => 15000
  }

  /** How an opcode's cost is found: a formula, memory usage, or a fixed entry. */
  datatype GasCategory = Formula | MemoryUsage | Simple

  datatype GasCost =
    | Zero | Base | VeryLow | Low | Mid | High
    | ExtCode | Balance | Sha3 | Sha3Word | SLoad | JumpDest
    | SSet | SReset | SelfDestruct | Create | CodeDeposit
    | Call | CallValue | CallStipend | NewAccount
    | Exp | ExpByte | Memory | BlockHash | Formula | Copy
    | Log | LogData | LogTopic

  /** The cost of each entry, in gas. */
  function Cost(g: GasCost): (c: int)
    ensures c >= 0
    ensures c == 0 <==> g == Zero || g == GasCost.Formula
  {
    match g
    case Zero => 0
    case Base => 2
    case VeryLow => 3
    case Low => 5
    case Mid => 8
    case High => 10
    case ExtCode => 700
    case Balance => 400
    case Sha3 => 30
    case Sha3Word => 6
    case SLoad => 200
    case JumpDest => 1
    case SSet => 20000
    case SReset => 5000
    case SelfDestruct => 5000
    case Create => 32000
    case CodeDeposit => 200
    case Call => 700
    case CallValue => 9000
    case CallStipend => 2300
    case NewAccount => 25000
    case Exp => 10
    case ExpByte => 50
    case Memory => 3
    case BlockHash => 20
    case Formula => 0
    case Copy => 3
    case Log => 375
    case LogData => 8
    case LogTopic => 375
  }

  /** GasCost.costBigInt: the same cost as an unbounded integer. */
  function CostBigInt(g: GasCost): int
  {
    Cost(g)
  }

  /** The entries in declaration order (GasCost.values()). */
  const AllGasCosts: seq<GasCost> :=
    [Zero, Base, VeryLow, Low, Mid, High, ExtCode, Balance, Sha3, Sha3Word, SLoad, JumpDest,
     SSet, SReset, GasCost.SelfDestruct, Create, CodeDeposit, Call, CallValue, CallStipend, NewAccount,
     Exp, ExpByte, Memory, BlockHash, GasCost.Formula, Copy, Log, LogData, LogTopic]

  /** Every entry is listed once and every listed cost is non-negative and agrees with costBigInt. */
  lemma AllGasCostsComplete(g: GasCost)
    ensures g in AllGasCosts
    ensures |AllGasCosts| == 30
    ensures forall i :: 0 <= i < |AllGasCosts| ==> Cost(AllGasCosts[i]) >= 0
    ensures CostBigInt(g) == Cost(g)
  {
  }

  /** The fixed tiers are strictly increasing. */
  lemma TiersIncreasing()
    ensures Cost(Zero) == 0 && Cost(Base) == 2 && Cost(VeryLow) == 3
    ensures Cost(Low) == 5 && Cost(Mid) == 8 && Cost(High) == 10
    ensures Cost(Zero) < Cost(Base) < Cost(VeryLow) < Cost(Low) < Cost(Mid) < Cost(High)
  {
  }

  /** Setting a fresh storage slot costs more than resetting one. */
  lemma StorageSetExceedsReset()
    ensures Cost(SSet) == 20000 && Cost(SReset) == 5000 && Cost(SSet) > Cost(SReset)
  {
  }

  /** The refund for clearing storage and for self-destruction. */
  lemma RefundValues()
    ensures Wei(StorageClear) == 15000 && Wei(Refund.SelfDestruct) == 24000
  {
  }

  /** The parameters of the SHA3 and EXP cost formulas. */
  lemma FormulaParameters()
    ensures Cost(Sha3) == 30 && Cost(Sha3Word) == 6
    ensures Cost(Exp) == 10 && Cost(ExpByte) == 50
  {
  }
}
