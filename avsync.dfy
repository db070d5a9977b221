/** The audio/video synchronisation delay a session pushes to its window sources. */
module AvSync {

  /** The largest total delay, in milliseconds. */
  const MAX_TOTAL_DELAY: int := 1000

  /**
   * `update_av_sync_delay_total`: 0 when av-sync is off for the session, otherwise the
   * client delay plus the server delta plus the encoder latency, clamped to [0, 1000].
   */
  function AvSyncTotal(enabled: bool, delay: int, delta: int, encoderLatency: int): (t: int)
    ensures 0 <= t <= MAX_TOTAL_DELAY
    ensures !enabled ==> t == 0
    ensures enabled && 0 <= delay + delta + encoderLatency <= MAX_TOTAL_DELAY ==> t == delay + delta + encoderLatency
    ensures enabled && delay + delta + encoderLatency < 0 ==> t == 0
    ensures enabled && delay + delta + encoderLatency > MAX_TOTAL_DELAY ==> t == MAX_TOTAL_DELAY
  {
    if !enabled then 0
    else
      var sum := delay + delta + encoderLatency;
      if sum < 0 then 0 else if sum > MAX_TOTAL_DELAY then MAX_TOTAL_DELAY else sum
  }

  /**
   * The client delay `parse_hello` sets: `int(server_av_sync and client_av_sync) * default_delay`,
   * so the client's declared default only counts when both sides enable av-sync.
   */
  function NegotiatedDelay(serverAvSync: bool, clientAvSync: bool, clientDefaultDelay: int): (d: int)
    ensures serverAvSync && clientAvSync ==> d == clientDefaultDelay
    ensures !serverAvSync || !clientAvSync ==> d == 0
  {
    (if serverAvSync && clientAvSync then 1 else 0) * clientDefaultDelay
  }

  /** A longer client delay never gives a shorter total. */
  lemma TotalMonotoneInDelay(enabled: bool, d1: int, d2: int, delta: int, latency: int)
    requires d1 <= d2
    ensures AvSyncTotal(enabled, d1, delta, latency) <= AvSyncTotal(enabled, d2, delta, latency)
  {
  }
}
