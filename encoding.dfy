/**
 * The sequence encoder and the direction classifier: every edge becomes a
 * two-bit digit (source line, edge type), four digits are weighted by their
 * position in time, and the resulting code is looked up in two fixed sets.
 */
module Encoding {
  import opened Ky040Defs

  datatype EdgeType = RisingEdge | FallingEdge

  /** One edge event as the request reports it: its type and the offset of its line. */
  datatype Edge = Edge(edgeType: EdgeType, offset: nat)

  /** The outcome of one decode cycle. */
  datatype Tune = CW | CCW | Idle

  /** Weight of each of the four slots of a cycle, earliest first. */
  const Weights: seq<nat> := [1, 2, 4, 8]

  /** The numeric tuner state the program stores for each outcome. */
  function TuneValue(t: Tune): (v: int)
    ensures v in {CW_VALUE, CCW_VALUE, IDLE_VALUE}
    ensures t == CW <==> v == CW_VALUE
    ensures t == CCW <==> v == CCW_VALUE
  {
    match t
    case CW => CW_VALUE
    case CCW => CCW_VALUE
    case Idle => IDLE_VALUE
  }

  /**
   * The two-bit digit of an edge: the low bit says "rising", the high bit
   * says "came from the CLK line". Every other offset, the switch line's
   * included, reads as a DT edge.
   */
  function Digit(e: Edge): (d: nat)
    ensures d <= 3
    ensures d % 2 == 1 <==> e.edgeType == RisingEdge
    ensures d >= 2 <==> e.offset == NTUNERCLK
  {
    (if e.edgeType == RisingEdge then 1 else 0) + (if e.offset == NTUNERCLK then 2 else 0)
  }

  /** A slot of weight w adds w for a rising edge and 2w for a CLK edge: w times its digit. */
  lemma WeightedDigit(e: Edge, w: nat)
    ensures w * Digit(e) == (if e.edgeType == RisingEdge then w else 0) + (if e.offset == NTUNERCLK then w * 2 else 0)
  {
  }

  /** Sum of the first k weights: the largest partial code is three times this. */
  function WeightTotal(k: nat): (t: nat)
    requires k <= |Weights|
  {
    if k == 0 then 0 else WeightTotal(k - 1) + Weights[k - 1]
  }

  /** The accumulator after the first k slots: the sum of Weights[j] * Digit(s[j]) for j < k. */
  function PartialCode(s: seq<Edge>, k: nat): (r: nat)
    requires k <= |s| && k <= |Weights|
    ensures r <= 3 * WeightTotal(k)
  {
    if k == 0 then 0 else PartialCode(s, k - 1) + Weights[k - 1] * Digit(s[k - 1])
  }

  /** The code of a complete four-edge sequence. */
  function Encode(s: seq<Edge>): (r: nat)
    requires |s| == 4
    ensures r == Digit(s[0]) + 2 * Digit(s[1]) + 4 * Digit(s[2]) + 8 * Digit(s[3])
    ensures r <= 45
  {
    assert PartialCode(s, 2) == Digit(s[0]) + 2 * Digit(s[1]);
    assert PartialCode(s, 4) == PartialCode(s, 2) + 4 * Digit(s[2]) + 8 * Digit(s[3]);
    PartialCode(s, 4)
  }

  /** Codes of the four clockwise edge sequences. */
  const CwCodes: set<int> := {13, 29, 22, 26}

  /** Codes of the four counter-clockwise edge sequences. */
  const CcwCodes: set<int> := {19, 32, 16, 23}

  /** The direction decision: a clockwise code, a counter-clockwise code, or anything else. */
  function Classify(direction: int): (t: Tune)
    ensures t == CW <==> direction in CwCodes
    ensures t == CCW <==> direction in CcwCodes
    ensures t == Idle <==> direction !in CwCodes + CcwCodes
  {
    if direction == 13 || direction == 29 || direction == 22 || direction == 26 then CW
    else if direction == 19 || direction == 32 || direction == 16 || direction == 23 then CCW
    else Idle
  }

  /** The two code sets share no value and hold eight codes between them. */
  lemma CodeSetsDisjoint()
    ensures CwCodes * CcwCodes == {}
    ensures |CwCodes| == 4 && |CcwCodes| == 4 && |CwCodes + CcwCodes| == 8
  {
  }

  /** A switch-line edge, or an edge from any offset but CLK, gives the digit of the DT edge of the same type. */
  lemma NonClkReadsAsDt(t: EdgeType, offset: nat)
    requires offset != NTUNERCLK
    ensures Digit(Edge(t, offset)) == Digit(Edge(t, NTUNERDT))
    ensures Digit(Edge(t, NTUNERSW)) == Digit(Edge(t, NTUNERDT))
  {
  }
}
