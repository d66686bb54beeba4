/**
 * The decode cycle: four drains of the edge-event buffer, each collapsed to
 * its last event, weighted into a code and classified. The last event read
 * is held between drains and between cycles.
 */
module Decoding {
  import opened Ky040Defs
  import opened Encoding
  import opened Quadrature

  datatype Option<T> = None | Some(value: T)

  /** The last event of a drain, or None when the drain read nothing. */
  function LastEvent(drain: seq<Edge>): (o: Option<Edge>)
    ensures o.None? <==> drain == []
    ensures o.Some? ==> o.value in drain
  {
    if drain == [] then None else Some(drain[|drain| - 1])
  }

  /** Within one drain, the last event read wins, whatever came before it. */
  lemma {:induction false} LastEventWins(before: seq<Edge>, e: Edge)
    ensures LastEvent(before + [e]) == Some(e)
  {
    assert (before + [e])[|before + [e]| - 1] == e;
  }

  /**
   * The event each slot of a cycle ends up with, given the event held
   * before the cycle: the last event of its drain, or, for an empty
   * drain, whatever the previous slot (or, for slot 0, the held event) had.
   */
  function Slots(held: Edge, drains: seq<seq<Edge>>): (s: seq<Edge>)
    ensures |s| == |drains|
    ensures forall j :: 0 <= j < |drains| && drains[j] != [] ==> s[j] == drains[j][|drains[j]| - 1]
    ensures forall j :: 0 < j < |drains| && drains[j] == [] ==> s[j] == s[j - 1]
    ensures |drains| > 0 && drains[0] == [] ==> s[0] == held
    decreases |drains|
  {
    if drains == [] then []
    else
      var e := if drains[0] == [] then held else drains[0][|drains[0]| - 1];
      [e] + Slots(e, drains[1..])
  }

  /**
   * Burst coalescing: two cycles whose drains end in the same events (and
   * are empty in the same places) fill the same slots, whatever came
   * before those last events.
   */
  lemma {:induction false} SameLastEventsSameSlots(held: Edge, d1: seq<seq<Edge>>, d2: seq<seq<Edge>>)
    requires |d1| == |d2|
    requires forall j :: 0 <= j < |d1| ==> LastEvent(d1[j]) == LastEvent(d2[j])
    ensures Slots(held, d1) == Slots(held, d2)
    decreases |d1|
  {
    if d1 != [] {
      assert LastEvent(d1[0]) == LastEvent(d2[0]);
      var e := if d1[0] == [] then held else d1[0][|d1[0]| - 1];
      forall j | 0 <= j < |d1[1..]| ensures LastEvent(d1[1..][j]) == LastEvent(d2[1..][j]) {
        assert LastEvent(d1[j + 1]) == LastEvent(d2[j + 1]);
      }
      SameLastEventsSameSlots(e, d1[1..], d2[1..]);
    }
  }

  /** Drains that each read exactly one event fill the slots with those events, in order. */
  lemma {:induction false} SingleEventDrains(held: Edge, events: seq<Edge>)
    ensures Slots(held, seq(|events|, i requires 0 <= i < |events| => [events[i]])) == events
  {
    var drains := seq(|events|, i requires 0 <= i < |events| => [events[i]]);
    var s := Slots(held, drains);
    forall j | 0 <= j < |events| ensures s[j] == events[j] {
      assert drains[j] == [events[j]];
    }
  }

  /**
   * A cycle in which every drain is empty repeats the held event in all
   * four slots; its code is 15 times one digit (0, 15, 30 or 45), so it is
   * always idle.
   */
  lemma {:induction false} EmptyCycleIsIdle(held: Edge, drains: seq<seq<Edge>>)
    requires |drains| == 4
    requires forall j :: 0 <= j < 4 ==> drains[j] == []
    ensures Slots(held, drains) == [held, held, held, held]
    ensures Encode(Slots(held, drains)) == 15 * Digit(held)
    ensures Classify(Encode(Slots(held, drains))) == Idle
  {
    var s := Slots(held, drains);
    assert s[0] == held;
    assert s[1] == s[0];
    assert s[2] == s[1];
    assert s[3] == s[2];
    assert s == [held, held, held, held];
  }

  /**
   * The usual stale-slot case: the three drains after the first, done
   * without waiting, come back empty. All four slots then repeat one event
   * (the first drain's last, or the held one), and the cycle is idle
   * whatever that event is.
   */
  lemma {:induction false} StaleTailIsIdle(held: Edge, first: seq<Edge>)
    ensures var e := if first == [] then held else first[|first| - 1];
      Slots(held, [first, [], [], []]) == [e, e, e, e]
    ensures Classify(Encode(Slots(held, [first, [], [], []]))) == Idle
  {
    var s := Slots(held, [first, [], [], []]);
    assert s[1] == s[0] && s[2] == s[1] && s[3] == s[2];
    assert s == [s[0], s[0], s[0], s[0]];
    assert Encode(s) == 15 * Digit(s[0]);
  }

  /**
   * An end-to-end scenario: one event per drain, CLK rising,
   * DT rising, CLK falling, DT falling, decodes to clockwise whatever was
   * held; so does the same cycle when the first drain is a burst ending in
   * CLK rising.
   */
  lemma ClockwiseScenario(held: Edge, burst: seq<Edge>)
    ensures Classify(Encode(Slots(held, [[ClkRise], [DtRise], [ClkFall], [DtFall]]))) == CW
    ensures Classify(Encode(Slots(held, [burst + [ClkRise], [DtRise], [ClkFall], [DtFall]]))) == CW
  {
    var single := [[ClkRise], [DtRise], [ClkFall], [DtFall]];
    var bursty := [burst + [ClkRise], [DtRise], [ClkFall], [DtFall]];
    assert Slots(held, single) == CwTable[0];
    SameLastEventsSameSlots(held, single, bursty);
    TableCodes();
  }

  /**
   * A cycle whose drains end, in order, in four consecutive edges of an
   * uninterrupted turn reports the direction of the turn, however the
   * drains were padded by bursts.
   */
  lemma TurnThroughDrainsDecodes(held: Edge, drains: seq<seq<Edge>>, cw: bool, clk: bool, dt: bool, n: nat, i: nat)
    requires |drains| == 4 && i + 4 <= n
    requires forall j :: 0 <= j < 4 ==> LastEvent(drains[j]) == Some(Turn(cw, clk, dt, n)[i + j])
    ensures Classify(Encode(Slots(held, drains))) == if cw then CW else CCW
  {
    var s := Slots(held, drains);
    var w := Turn(cw, clk, dt, n)[i..i + 4];
    forall j | 0 <= j < 4 ensures s[j] == w[j] {
      assert LastEvent(drains[j]).Some?;
    }
    assert s == w;
    AnyWindowDecodes(cw, clk, dt, n, i);
  }

  /** The decoder's state: the type and line offset of the last edge event read. */
  class Decoder {
    var edgeType: EdgeType
    var edgeOS: nat

    /** The held event, as a value. */
    function Held(): Edge
      reads this
    {
      Edge(edgeType, edgeOS)
    }

    /** The held event starts as the given one (the program leaves it uninitialised). */
    constructor (initial: Edge)
      ensures Held() == initial
    {
      edgeType := initial.edgeType;
      edgeOS := initial.offset;
    }

    /**
     * One decode cycle over the four drains of the buffer: the returned
     * direction is the code of the slots the drains fill, the tune is the
     * tuner value (20, 21 or 22) of its classification, and the held event
     * is the one the last slot used.
     */
    method Cycle(drains: seq<seq<Edge>>) returns (direction: int, tune: int)
      requires |drains| == 4
      modifies this
      ensures direction == Encode(Slots(old(Held()), drains))
      ensures tune == TuneValue(Classify(direction))
      ensures Held() == Slots(old(Held()), drains)[3]
    {
      ghost var slots := Slots(Held(), drains);
      ghost var start := Held();
      var weight := Weights;
      direction := 0;
      var j := 0;
      while j < 4
        invariant 0 <= j <= 4
        invariant direction == PartialCode(slots, j)
        invariant Held() == if j == 0 then start else slots[j - 1]
      {
        var readEvents := |drains[j]|;
        var idx := 0;
        while idx < readEvents
          invariant 0 <= idx <= readEvents
          invariant idx == 0 ==> Held() == (if j == 0 then start else slots[j - 1])
          invariant idx > 0 ==> Held() == drains[j][idx - 1]
        {
          edgeType := drains[j][idx].edgeType;
          edgeOS := drains[j][idx].offset;
          idx := idx + 1;
        }
        assert Held() == slots[j];
        ghost var before := direction;
        if edgeType == RisingEdge {
          direction := direction + weight[j];
        }
        if edgeOS == NTUNERCLK {
          direction := direction + weight[j] * 2;
        }
        assert direction == before + Weights[j] * Digit(slots[j]) by {
          WeightedDigit(slots[j], Weights[j]);
        }
        j := j + 1;
      }
      if direction == 13 || direction == 29 || direction == 22 || direction == 26 {
        tune := CW_VALUE;
      } else if direction == 19 || direction == 32 || direction == 16 || direction == 23 {
        tune := CCW_VALUE;
      } else {
        tune := IDLE_VALUE;
      }
    }
  }

  /**
   * Two cycles of the program's endless loop on one decoder: a clean
   * clockwise step, then a cycle whose drains all come back empty. The
   * second cycle reuses the DT falling edge held over from the first and
   * reports idle (22) with code 0.
   */
  method RepeatedCycles(initial: Edge) returns (first: int, second: int, secondCode: int)
    ensures first == CW_VALUE
    ensures second == IDLE_VALUE && secondCode == 0
  {
    var d := new Decoder(initial);
    var code;
    code, first := d.Cycle([[ClkRise], [DtRise], [ClkFall], [DtFall]]);
    ClockwiseScenario(initial, []);
    assert d.Held() == DtFall;
    EmptyCycleIsIdle(d.Held(), [[], [], [], []]);
    secondCode, second := d.Cycle([[], [], [], []]);
  }
}
