/**
 * One time log, as the dictionaries of chronologicon hold it: the in-progress
 * log CUR_LOG, the content of temp.json and every element of logs.json carry
 * the same six keys.
 */
module Entries {

  /** TIME_START and TIME_END are epoch milliseconds, TIME_LENGTH is seconds. */
  datatype Log = Log(
    timeStart: int,
    timeEnd: int,
    timeLength: int,
    disc: string,
    proj: string,
    xnote: string)

  /** The value CUR_LOG has when the module is loaded. */
  const ZeroLog := Log(0, 0, 0, "", "", "")

  /** Python's floor division `a // b`, for the positive divisors the code uses. */
  function FloorDiv(a: int, b: int): int
    requires b > 0
  {
    a / b
  }

  /** Dafny's division rounds towards minus infinity for a positive divisor, as Python's `//` does. */
  lemma FloorDivRoundsDown(a: int, b: int)
    requires b > 0
    ensures FloorDiv(a, b) * b <= a < FloorDiv(a, b) * b + b
  {
  }

  /**
   * The log StopLog records from the one read back out of temp.json: the end
   * stamp is the clock, the length is the elapsed time in whole seconds,
   * rounded towards minus infinity, and everything else is kept.
   */
  function Finish(active: Log, nowMs: int): (e: Log)
    ensures e.timeStart == active.timeStart && e.timeEnd == nowMs
    ensures e.disc == active.disc && e.proj == active.proj && e.xnote == active.xnote
    ensures e.timeLength * 1000 <= e.timeEnd - e.timeStart < e.timeLength * 1000 + 1000
  {
    FloorDivRoundsDown(nowMs - active.timeStart, 1000);
    active.(timeEnd := nowMs, timeLength := FloorDiv(nowMs - active.timeStart, 1000))
  }
}
