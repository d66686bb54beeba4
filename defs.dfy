/** Constants of the KY-040 reader: line offsets, tuner outcomes and return codes. */
module Ky040Defs {

  /** Number of rotary encoder input lines requested together (DT, CLK, SW). */
  const NINTUNE: nat := 3

  /** Line offsets on the GPIO chip. */
  const NTUNERDT: nat := 17
  const NTUNERCLK: nat := 27
  const NTUNERSW: nat := 4

  /** The offsets in the order the program lists and requests them. */
  const TunerLines: seq<nat> := [NTUNERDT, NTUNERCLK, NTUNERSW]

  /** Tuner state values reported after each decode cycle. */
  const CW_VALUE: int := 20
  const CCW_VALUE: int := 21
  const IDLE_VALUE: int := 22

  /** Return codes of the line-ownership check. */
  const OKGPIOLINEFREE: int := 104
  const ERRREADINFO: int := 916
  const ERRLINENOTFREE: int := 917
  const ERRKY040OWNED: int := 918
  const ERRGPIOINUSE: int := 920

  /** Consumer name under which this program claims its lines. */
  const CONSUMER: string := "KY-040"
}
