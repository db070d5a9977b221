/**
 * The arithmetic of the idle and grace timers. `idle_timeout` and the grace duration are
 * in seconds; the delays handed to `timeout_add` are in milliseconds.
 */
module IdleTimeout {
  import opened Common
  import opened Arith

  /** The shortest grace duration, in seconds. */
  const MIN_GRACE: int := 10

  /** `max(10, int(idle_timeout * (100 - GRACE_PERCENT) // 100))`; `//` is floor division, as `/` is here for a positive divisor. */
  function GraceDuration(idleTimeout: int, gracePercent: int): (g: int)
    ensures g >= MIN_GRACE
    ensures g == MIN_GRACE || g == idleTimeout * (100 - gracePercent) / 100
    ensures g >= idleTimeout * (100 - gracePercent) / 100
  {
    Max(MIN_GRACE, idleTimeout * (100 - gracePercent) / 100)
  }

  /** The idle timer's delay. */
  function IdleDelayMs(idleTimeout: int): int
  {
    idleTimeout * 1000
  }

  /** `max(0, int((idle_timeout - grace) * 1000))`: the grace timer fires `grace` seconds before the idle timer, but never in the past. */
  function GraceDelayMs(idleTimeout: int, graceDuration: int): (d: int)
    ensures d >= 0
    ensures idleTimeout <= graceDuration ==> d == 0
    ensures idleTimeout > graceDuration ==> d == IdleDelayMs(idleTimeout) - graceDuration * 1000
  {
    Max(0, (idleTimeout - graceDuration) * 1000)
  }

  /** With a positive idle timeout, the grace timer always fires strictly before the idle timer. */
  lemma GraceFiresFirst(idleTimeout: int, gracePercent: int)
    requires idleTimeout > 0
    ensures 0 <= GraceDelayMs(idleTimeout, GraceDuration(idleTimeout, gracePercent)) < IdleDelayMs(idleTimeout)
  {
  }

  /**
   * The grace duration is shorter than the idle timeout once the timeout is above the
   * 10-second floor and some percentage is kept for the idle period.
   */
  lemma GraceShorterThanTimeout(idleTimeout: int, gracePercent: int)
    requires idleTimeout > MIN_GRACE && 0 < gracePercent <= 100
    ensures GraceDuration(idleTimeout, gracePercent) < idleTimeout
  {
    var part := idleTimeout * (100 - gracePercent);
    MulMono(idleTimeout, 100 - gracePercent, 99);
    MulMono(idleTimeout, 0, 100 - gracePercent);
    DivMonotone(part, idleTimeout * 99, 100);
    assert idleTimeout * 99 < idleTimeout * 100;
    MulDiv(idleTimeout, 100);
    DivMonotone(idleTimeout * 99, idleTimeout * 100 - 1, 100);
    assert (idleTimeout * 100 - 1) / 100 == idleTimeout - 1 by {
      assert idleTimeout * 100 - 1 == 100 * (idleTimeout - 1) + 99;
    }
  }

  /** With an idle timeout of at most 10 seconds the grace duration swallows it and the grace timer fires at once. */
  lemma ShortTimeoutGraceImmediate(idleTimeout: int, gracePercent: int)
    requires 0 < idleTimeout <= MIN_GRACE
    ensures GraceDelayMs(idleTimeout, GraceDuration(idleTimeout, gracePercent)) == 0
  {
  }

  /** A 60-second idle timeout with the default 90 percent: 10 seconds of grace, fired at 50 s, idle at 60 s. */
  lemma SixtySecondExample()
    ensures GraceDuration(60, 90) == 10
    ensures GraceDelayMs(60, GraceDuration(60, 90)) == 50000
    ensures IdleDelayMs(60) == 60000
  {
  }
}
