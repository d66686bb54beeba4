/**
 * The startup ownership check: whether each input line is free, decided
 * from the line information the chip reports, and the scan over the three
 * tuner lines that stops at the first line that is not free.
 */
module LineCheck {
  import opened Ky040Defs

  datatype Option<T> = None | Some(value: T)

  /** What the chip reports about one line: its name and its consumer, each possibly absent. */
  datatype LineInfo = LineInfo(name: Option<string>, consumer: Option<string>)

  /**
   * The outcome of checking one line: the return code and, when the check
   * reached the point where it copies the line's name into the line record,
   * the name copied.
   */
  datatype FreeCheck = FreeCheck(rc: int, copiedName: Option<string>)

  /**
   * The ownership decision for one line; `info` is None when reading the
   * line information failed. A consumer of this very program and a
   * consumer of any other program are told apart; only a line without a
   * consumer is free, and the final "not free" return is never reached.
   */
  function GpioLineFree(info: Option<LineInfo>): (r: FreeCheck)
    ensures r.rc in {ERRREADINFO, ERRKY040OWNED, ERRGPIOINUSE, OKGPIOLINEFREE}
    ensures r.rc != ERRLINENOTFREE
    ensures r.rc == ERRREADINFO <==> info.None?
    ensures r.rc == ERRKY040OWNED <==> info.Some? && info.value.consumer == Some(CONSUMER)
    ensures r.rc == ERRGPIOINUSE <==> info.Some? && info.value.consumer.Some? && info.value.consumer.value != CONSUMER
    ensures r.rc == OKGPIOLINEFREE <==> info.Some? && info.value.consumer.None?
    ensures r.copiedName.Some? <==> r.rc == OKGPIOLINEFREE
    ensures r.copiedName.Some? && info.Some? && info.value.name.Some? ==> r.copiedName.value == info.value.name.value
    ensures r.copiedName.Some? && info.Some? && info.value.name.None? ==> r.copiedName.value == "unnamed"
  {
    match info
    case None => FreeCheck(ERRREADINFO, None)
    case Some(li) =>
      var name := if li.name.Some? then li.name.value else "unnamed";
      if li.consumer.Some? && li.consumer.value == CONSUMER then FreeCheck(ERRKY040OWNED, None)
      else if li.consumer.Some? then FreeCheck(ERRGPIOINUSE, None)
      else
        var consumer := "unused";
        if consumer == "unused" then FreeCheck(OKGPIOLINEFREE, Some(name))
        else FreeCheck(ERRLINENOTFREE, None)
  }

  /**
   * The startup scan over the tuner lines (DT, CLK, SW, in that order):
   * the result is OKGPIOLINEFREE exactly when every line is free, and
   * otherwise the code of the first line that is not free.
   */
  method StartupScan(infos: seq<Option<LineInfo>>) returns (rtn: int)
    requires |infos| == NINTUNE
    ensures rtn == OKGPIOLINEFREE <==> forall i :: 0 <= i < |infos| ==> GpioLineFree(infos[i]).rc == OKGPIOLINEFREE
    ensures rtn != OKGPIOLINEFREE ==>
      exists i :: 0 <= i < |infos| && GpioLineFree(infos[i]).rc == rtn &&
        forall k :: 0 <= k < i ==> GpioLineFree(infos[k]).rc == OKGPIOLINEFREE
  {
    rtn := OKGPIOLINEFREE;
    var i := 0;
    while i < NINTUNE
      invariant 0 <= i <= NINTUNE
      invariant forall k :: 0 <= k < i ==> GpioLineFree(infos[k]).rc == OKGPIOLINEFREE
      invariant rtn == OKGPIOLINEFREE
    {
      rtn := GpioLineFree(infos[i]).rc;
      if rtn != OKGPIOLINEFREE {
        return;
      }
      i := i + 1;
    }
  }
}
