/**
 * The eight legitimate edge sequences. They are given twice: as the table
 * in the source comment (KY-040.cpp:141-145), and independently by a model of the
 * encoder's two switch lines stepping through the quadrature cycle.
 */
module Quadrature {
  import opened Ky040Defs
  import opened Encoding

  const ClkRise: Edge := Edge(RisingEdge, NTUNERCLK)
  const ClkFall: Edge := Edge(FallingEdge, NTUNERCLK)
  const DtRise: Edge := Edge(RisingEdge, NTUNERDT)
  const DtFall: Edge := Edge(FallingEdge, NTUNERDT)

  /** The four clockwise edge sequences of the table in the source comment. */
  const CwTable: seq<seq<Edge>> := [
    [ClkRise, DtRise, ClkFall, DtFall],
    [DtRise, ClkFall, DtFall, ClkRise],
    [ClkFall, DtFall, ClkRise, DtRise],
    [DtFall, ClkRise, DtRise, ClkFall]
  ]

  /** The four counter-clockwise edge sequences of the table in the source comment. */
  const CcwTable: seq<seq<Edge>> := [
    [ClkRise, DtFall, ClkFall, DtRise],
    [DtFall, ClkFall, DtRise, ClkRise],
    [ClkFall, DtRise, ClkRise, DtFall],
    [DtRise, ClkRise, DtFall, ClkFall]
  ]

  /** The codes the source comment (KY-040.cpp:207-217) gives for the rows, in row order. */
  const CwCodeList: seq<int> := [13, 29, 22, 26]
  const CcwCodeList: seq<int> := [19, 32, 16, 23]

  /** Whether the CLK line is the one that changes next, at line levels (clk, dt). */
  predicate ClkMoves(cw: bool, clk: bool, dt: bool)
  {
    (clk == dt) == cw
  }

  /**
   * The edge one step of the knob produces from line levels (clk, dt).
   * Clockwise the lines go 00, 10, 11, 01 (CLK leads); counter-clockwise
   * they go 00, 01, 11, 10 (DT leads).
   */
  function StepEdge(cw: bool, clk: bool, dt: bool): (e: Edge)
    ensures e.offset == NTUNERCLK <==> ClkMoves(cw, clk, dt)
    ensures e.offset == NTUNERCLK ==> (e.edgeType == RisingEdge <==> !clk)
    ensures e.offset != NTUNERCLK ==> e.offset == NTUNERDT && (e.edgeType == RisingEdge <==> !dt)
  {
    if ClkMoves(cw, clk, dt) then Edge(if clk then FallingEdge else RisingEdge, NTUNERCLK)
    else Edge(if dt then FallingEdge else RisingEdge, NTUNERDT)
  }

  /** Line levels after n steps of the knob from (clk, dt). */
  function LevelsAfter(cw: bool, clk: bool, dt: bool, n: nat): (bool, bool)
    decreases n
  {
    if n == 0 then (clk, dt)
    else if ClkMoves(cw, clk, dt) then LevelsAfter(cw, !clk, dt, n - 1)
    else LevelsAfter(cw, clk, !dt, n - 1)
  }

  /** The edges n steps of an uninterrupted turn produce, starting at levels (clk, dt). */
  function Turn(cw: bool, clk: bool, dt: bool, n: nat): (s: seq<Edge>)
    ensures |s| == n
    ensures n > 0 ==> s[0] == StepEdge(cw, clk, dt)
    decreases n
  {
    if n == 0 then []
    else if ClkMoves(cw, clk, dt) then [StepEdge(cw, clk, dt)] + Turn(cw, !clk, dt, n - 1)
    else [StepEdge(cw, clk, dt)] + Turn(cw, clk, !dt, n - 1)
  }

  /** Each row of the table in the source comment is the edge run of a turn from one of the four level states. */
  lemma TablesAreTurns()
    ensures CwTable[0] == Turn(true, false, false, 4) && CcwTable[0] == Turn(false, false, true, 4)
    ensures CwTable[1] == Turn(true, true, false, 4) && CcwTable[1] == Turn(false, true, true, 4)
    ensures CwTable[2] == Turn(true, true, true, 4) && CcwTable[2] == Turn(false, true, false, 4)
    ensures CwTable[3] == Turn(true, false, true, 4) && CcwTable[3] == Turn(false, false, false, 4)
  {
  }

  /** The code of each table row, row by row. */
  lemma RowCodes()
    ensures Encode(CwTable[0]) == 13 && Encode(CwTable[1]) == 29 && Encode(CwTable[2]) == 22 && Encode(CwTable[3]) == 26
    ensures Encode(CcwTable[0]) == 19 && Encode(CcwTable[1]) == 32 && Encode(CcwTable[2]) == 16 && Encode(CcwTable[3]) == 23
  {
  }

  /** The code of row p, in each table. */
  lemma RowCode(p: nat)
    requires p < 4
    ensures Encode(CwTable[p]) == CwCodeList[p] && Encode(CcwTable[p]) == CcwCodeList[p]
  {
    RowCodes();
    if p == 0 {} else if p == 1 {} else if p == 2 {} else {}
  }

  /** The codes of the table rows are the ones the source comment lists (KY-040.cpp:207-217), and classify accordingly. */
  lemma TableCodes()
    ensures forall p :: 0 <= p < 4 ==> Encode(CwTable[p]) == CwCodeList[p] && Classify(Encode(CwTable[p])) == CW
    ensures forall p :: 0 <= p < 4 ==> Encode(CcwTable[p]) == CcwCodeList[p] && Classify(Encode(CcwTable[p])) == CCW
    ensures CwCodes == {Encode(CwTable[0]), Encode(CwTable[1]), Encode(CwTable[2]), Encode(CwTable[3])}
    ensures CcwCodes == {Encode(CcwTable[0]), Encode(CcwTable[1]), Encode(CcwTable[2]), Encode(CcwTable[3])}
  {
    RowCodes();
    forall p | 0 <= p < 4
      ensures Encode(CwTable[p]) == CwCodeList[p] && Classify(Encode(CwTable[p])) == CW
      ensures Encode(CcwTable[p]) == CcwCodeList[p] && Classify(Encode(CcwTable[p])) == CCW
    {
      RowCode(p);
    }
  }

  /** The eight rows get eight different codes. */
  lemma TableCodesDistinct(p: nat, q: nat)
    requires p < 4 && q < 4
    ensures Encode(CwTable[p]) == Encode(CwTable[q]) ==> p == q
    ensures Encode(CcwTable[p]) == Encode(CcwTable[q]) ==> p == q
    ensures Encode(CwTable[p]) != Encode(CcwTable[q])
  {
    RowCode(p);
    RowCode(q);
    ListsDistinct(p, q);
  }

  lemma ListsDistinct(p: nat, q: nat)
    requires p < 4 && q < 4
    ensures CwCodeList[p] == CwCodeList[q] ==> p == q
    ensures CcwCodeList[p] == CcwCodeList[q] ==> p == q
    ensures CwCodeList[p] != CcwCodeList[q]
  {
  }

  /**
   * Turning the knob back from where a clockwise row ends undoes its edges
   * in reverse order, each with the opposite edge type; the result is the
   * counter-clockwise row that starts from those levels.
   */
  lemma TurningBackUndoesCw(p: nat)
    requires p < 4
    ensures Undone(CwTable[p]) == CcwTable[3 - p]
    ensures TablesStart(p).0 == LevelsAfter(true, TablesStart(p).0, TablesStart(p).1, 4).0
    ensures TablesStart(p).1 == LevelsAfter(true, TablesStart(p).0, TablesStart(p).1, 4).1
    ensures Undone(CwTable[p]) == Turn(false, TablesStart(p).0, TablesStart(p).1, 4)
  {
    TablesAreTurns();
  }

  /** The line levels (clk, dt) at which clockwise row p starts. */
  function TablesStart(p: nat): (bool, bool)
    requires p < 4
  {
    [(false, false), (true, false), (true, true), (false, true)][p]
  }

  /** The edge that undoes e: the same line, the opposite edge type. */
  function Inverted(e: Edge): (r: Edge)
    ensures r.offset == e.offset && r.edgeType != e.edgeType
  {
    Edge(if e.edgeType == RisingEdge then FallingEdge else RisingEdge, e.offset)
  }

  /** The edges that undo s: its edges in reverse order, each inverted. */
  function Undone(s: seq<Edge>): (r: seq<Edge>)
    ensures |r| == |s|
    ensures forall i :: 0 <= i < |s| ==> r[i] == Inverted(s[|s| - 1 - i])
  {
    if s == [] then [] else Undone(s[1..]) + [Inverted(s[0])]
  }

  /** Four steps of a turn, from any levels, decode to the direction of the turn. */
  lemma FourStepsDecode(cw: bool, clk: bool, dt: bool)
    ensures Classify(Encode(Turn(cw, clk, dt, 4))) == if cw then CW else CCW
  {
    TablesAreTurns();
    RowCodes();
    if cw {
      if clk { if dt { assert Turn(cw, clk, dt, 4) == CwTable[2]; } else { assert Turn(cw, clk, dt, 4) == CwTable[1]; } }
      else { if dt { assert Turn(cw, clk, dt, 4) == CwTable[3]; } else { assert Turn(cw, clk, dt, 4) == CwTable[0]; } }
    } else {
      if clk { if dt { assert Turn(cw, clk, dt, 4) == CcwTable[1]; } else { assert Turn(cw, clk, dt, 4) == CcwTable[2]; } }
      else { if dt { assert Turn(cw, clk, dt, 4) == CcwTable[0]; } else { assert Turn(cw, clk, dt, 4) == CcwTable[3]; } }
    }
  }

  /** Dropping the first i edges of a turn leaves the turn that starts from the levels reached after i steps. */
  lemma {:induction false} TurnSuffix(cw: bool, clk: bool, dt: bool, n: nat, i: nat)
    requires i <= n
    decreases i
    ensures Turn(cw, clk, dt, n)[i..] == Turn(cw, LevelsAfter(cw, clk, dt, i).0, LevelsAfter(cw, clk, dt, i).1, n - i)
  {
    if i > 0 {
      var c := if ClkMoves(cw, clk, dt) then !clk else clk;
      var d := if ClkMoves(cw, clk, dt) then dt else !dt;
      var rest := Turn(cw, c, d, n - 1);
      assert Turn(cw, clk, dt, n) == [StepEdge(cw, clk, dt)] + rest;
      assert Turn(cw, clk, dt, n)[i..] == rest[i - 1..];
      assert LevelsAfter(cw, clk, dt, i) == LevelsAfter(cw, c, d, i - 1);
      TurnSuffix(cw, c, d, n - 1, i - 1);
    }
  }

  /** The first m edges of a longer turn are the turn of m steps. */
  lemma {:induction false} TurnPrefix(cw: bool, clk: bool, dt: bool, n: nat, m: nat)
    requires m <= n
    decreases m
    ensures Turn(cw, clk, dt, n)[..m] == Turn(cw, clk, dt, m)
  {
    if m > 0 {
      var c := if ClkMoves(cw, clk, dt) then !clk else clk;
      var d := if ClkMoves(cw, clk, dt) then dt else !dt;
      assert Turn(cw, clk, dt, n) == [StepEdge(cw, clk, dt)] + Turn(cw, c, d, n - 1);
      assert Turn(cw, clk, dt, m) == [StepEdge(cw, clk, dt)] + Turn(cw, c, d, m - 1);
      TurnPrefix(cw, c, d, n - 1, m - 1);
    }
  }

  /** Every four consecutive edges of an uninterrupted turn decode to the direction of the turn. */
  lemma AnyWindowDecodes(cw: bool, clk: bool, dt: bool, n: nat, i: nat)
    requires i + 4 <= n
    ensures Classify(Encode(Turn(cw, clk, dt, n)[i..i + 4])) == if cw then CW else CCW
  {
    var s := Turn(cw, clk, dt, n);
    var c := LevelsAfter(cw, clk, dt, i).0;
    var d := LevelsAfter(cw, clk, dt, i).1;
    assert s[i..i + 4] == Turn(cw, c, d, 4) by {
      TurnSuffix(cw, clk, dt, n, i);
      TurnPrefix(cw, c, d, n - i, 4);
      assert s[i..i + 4] == s[i..][..4];
    }
    FourStepsDecode(cw, c, d);
  }

  /**
   * The code does not identify the sequence: a stray sequence shares the
   * code of the first clockwise row and is reported clockwise.
   */
  lemma CodeCollision()
    ensures [DtRise, DtFall, ClkRise, DtFall] != CwTable[0]
    ensures Encode([DtRise, DtFall, ClkRise, DtFall]) == Encode(CwTable[0]) == 13
    ensures Classify(Encode([DtRise, DtFall, ClkRise, DtFall])) == CW
  {
  }

  /** A run of four CLK rising edges has the largest code, 45, and is idle. */
  lemma ClkRiseBurstIsIdle()
    ensures Encode([ClkRise, ClkRise, ClkRise, ClkRise]) == 45
    ensures Classify(45) == Idle
  {
  }
}
