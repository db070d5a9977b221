/**
 * The per-client session source (`ClientConnection`): packet scheduling towards the
 * transport, bandwidth and av-sync pushes to the window sources, the idle and grace
 * timers, notification gating and the non-mixin part of the hello negotiation.
 * Everything runs sequentially here; the closed flag is a plain boolean.
 */
module ServerSource {
  import opened Common
  import opened PacketScheduler
  import opened Capabilities
  import opened Hello
  import Bandwidth
  import AvSync
  import IdleTimeout
  import Negotiation

  /** The reserved id of the "you have been idle" notification (`XPRA_IDLE_NOTIFICATION_ID`). */
  const IDLE_NOTIFICATION_ID: int := 2

  /** Which method of the session a timer calls back. */
  datatype TimerCallback = IdleTimedout | IdleGraceTimedout

  /** An armed timer of the main loop: its delay in milliseconds and its callback. */
  datatype Timer = Timer(delayMs: int, callback: TimerCallback)

  /** Calls the session makes into code this model does not include, in the order made. */
  datatype Hook =
    | SourceHasMore       // protocol.source_has_more()
    | IdleTimeoutCb       // the server's idle_timeout_cb(self)
    | IdleGraceTimeoutCb  // the server's idle_grace_timeout_cb(self)
    | NoIdle              // self.no_idle()

  /** An item of `encode_work_queue`: work for the encode thread, or the `None` end-of-queue marker. */
  datatype WorkItem = EncodeWork(wid: int) | EndOfQueue

  /** The arguments of `notify` besides the notification id and the user callback. */
  datatype Notification = Notification(dbusId: Arg, appName: string, replacesNid: int, appIcon: string,
                                       summary: string, body: string, actions: seq<string>, hints: Arg,
                                       expireTimeout: int, icon: Arg)

  /** The `notify_show` packet; actions and hints go last. */
  function NotifyShowPacket(nid: int, n: Notification): Packet
  {
    Packet("notify_show", [n.dbusId, IntArg(nid), StrArg(n.appName), IntArg(n.replacesNid), StrArg(n.appIcon),
                           StrArg(n.summary), StrArg(n.body), IntArg(n.expireTimeout), n.icon,
                           StrListArg(n.actions), n.hints])
  }

  function NotifyClosePacket(nid: int): Packet
  {
    Packet("notify_close", [IntArg(nid)])
  }

  /** The keyboard configuration object; only its keycode lookup is used here. */
  datatype KeyboardConfig = KeyboardConfig(keycodeOf: (int, string, seq<string>) -> int)

  function OptSet(o: Option<nat>): set<nat>
  {
    if o.Some? then {o.value} else {}
  }

  /** The server side of one window for this client: what the bandwidth and av-sync pushes touch. */
  class WindowSource {
    const wid: int
    var suspended: bool
    var width: nat
    var height: nat
    /** `statistics.get_damage_pixels()`: pixels damaged recently. */
    var damagePixels: nat
    var bandwidthLimit: int
    var avSyncDelay: int

    constructor(wid: int, width: nat, height: nat)
      ensures this.wid == wid && this.width == width && this.height == height
      ensures !suspended && damagePixels == 0 && bandwidthLimit == 0 && avSyncDelay == 0
    {
      this.wid := wid;
      this.width := width;
      this.height := height;
      suspended := false;
      damagePixels := 0;
      bandwidthLimit := 0;
      avSyncDelay := 0;
    }

    /** The window's weight in the bandwidth split. */
    function Weight(): nat
      reads this`suspended, this`width, this`height, this`damagePixels
    {
      Bandwidth.WindowWeight(suspended, width, height, damagePixels)
    }

    method SetAvSyncDelay(delay: int)
      modifies this`avSyncDelay
      ensures avSyncDelay == delay
    {
      avSyncDelay := delay;
    }
  }

  /** What a `send` queues: one entry while the protocol is attached and `cond` holds, nothing otherwise. */
  function Queued(cond: bool, p: Packet, opts: SendOptions): seq<OrdinaryEntry>
  {
    if cond then [EntryFor(p, opts)] else []
  }

  /** The wake-up (`source_has_more`) that goes with a queued packet. */
  function Wakeup(cond: bool): seq<Hook>
  {
    if cond then [SourceHasMore] else []
  }

  /** Notifications may be shown or closed: the client supports them, is not suspended and has had its hello. */
  predicate NotificationsOpen(features: Features, suspended: bool, helloSent: bool)
  {
    features.notifications && !suspended && helloSent
  }

  /** The weights of a sequence of window sources, in order. */
  ghost function WeightsOf(sources: seq<WindowSource>): (w: seq<int>)
    reads set ws | ws in sources
    ensures |w| == |sources|
    ensures forall k :: 0 <= k < |w| ==> w[k] == sources[k].Weight()
    decreases |sources|
  {
    if sources == [] then [] else WeightsOf(sources[..|sources| - 1]) + [sources[|sources| - 1].Weight()]
  }

  class ClientConnection {
    // Configuration: constructor arguments and environment settings.
    const idleTimeout: int            // seconds
    const gracePercent: int           // XPRA_GRACE_PERCENT
    const idleGraceDuration: int      // seconds
    const serverBandwidthLimit: int
    const avSync: bool
    const bandwidthDetection: bool    // XPRA_BANDWIDTH_DETECTION

    // Transport side.
    var closed: bool
    var protocolAttached: bool
    var ordinaryPackets: seq<OrdinaryEntry>
    var packetQueue: seq<BulkEntry>
    var encodeWorkQueue: seq<WorkItem>
    var hooks: seq<Hook>

    // Idle handling: the main loop's timer table, as far as this session's timers go.
    var timers: map<nat, Timer>
    var nextTimerHandle: nat
    var idleTimer: Option<nat>
    var idleGraceTimer: Option<nat>
    var idle: bool
    var lastUserEvent: int

    // Bandwidth and av-sync.
    var windowSources: seq<WindowSource>
    var avgCongestionSendSpeed: int
    var mmapSize: int
    var bandwidthLimit: int
    var softBandwidthLimit: int
    var avSyncDelay: int
    var avSyncDelta: int
    var avSyncDelayTotal: int

    // What the hello negotiated.
    var helloSent: bool
    var suspended: bool
    var wants: ClientWants
    var features: Features
    var desktop: Desktop
    var desktopSizeServer: Option<(int, int)>
    var notificationCallbacks: map<int, Callback>
    var keyboardConfig: Option<KeyboardConfig>
    var mouseShow: bool
    var mouseLastPosition: Option<(int, int, int, int)>

    /** The timer table holds this session's armed timers and nothing else: at most one of each kind. */
    ghost predicate TimersValid()
      reads this`timers, this`nextTimerHandle, this`idleTimer, this`idleGraceTimer
    {
      && nextTimerHandle >= 1
      && (forall h :: h in timers ==> 1 <= h < nextTimerHandle)
      && timers.Keys == OptSet(idleTimer) + OptSet(idleGraceTimer)
      && (idleTimer.Some? && idleGraceTimer.Some? ==> idleTimer.value != idleGraceTimer.value)
      && (idleTimer.Some? ==> timers[idleTimer.value] == Timer(IdleTimeout.IdleDelayMs(idleTimeout), IdleTimedout))
      && (idleGraceTimer.Some? ==>
            timers[idleGraceTimer.value] == Timer(IdleTimeout.GraceDelayMs(idleTimeout, idleGraceDuration), IdleGraceTimedout))
      && (idleTimeout <= 0 ==> idleTimer.None? && idleGraceTimer.None?)
    }

    /** One window source per window: distinct objects under distinct window ids. */
    ghost predicate DistinctWindows()
      reads this`windowSources
    {
      forall i, j :: 0 <= i < j < |windowSources| ==>
        windowSources[i] != windowSources[j] && windowSources[i].wid != windowSources[j].wid
    }

    ghost predicate Valid()
      reads this`timers, this`nextTimerHandle, this`idleTimer, this`idleGraceTimer, this`windowSources
    {
      && TimersValid()
      && idleGraceDuration == IdleTimeout.GraceDuration(idleTimeout, gracePercent)
      && DistinctWindows()
    }

    ghost function Windows(): set<WindowSource>
      reads this`windowSources
    {
      set ws | ws in windowSources
    }

    /** The window weights, in window order. */
    ghost function Weights(): (w: seq<int>)
      reads this`windowSources, Windows()
      ensures |w| == |windowSources|
      ensures forall k :: 0 <= k < |w| ==> w[k] == windowSources[k].Weight()
      ensures Bandwidth.NonNegative(w)
    {
      WeightsOf(windowSources)
    }

    /** A session just set up: open, attached to its protocol, nothing queued and nothing called out yet. */
    ghost predicate Open()
      reads this`closed, this`protocolAttached, this`ordinaryPackets, this`packetQueue, this`encodeWorkQueue, this`hooks
    {
      !closed && protocolAttached && ordinaryPackets == [] && packetQueue == [] && encodeWorkQueue == [] && hooks == []
    }

    /** The state `init_vars` resets: no hello yet, no client features, the server's bandwidth limit. */
    ghost predicate VarsInitialised()
      reads this`helloSent, this`features, this`notificationCallbacks, this`desktop, this`desktopSizeServer
      reads this`bandwidthLimit, this`softBandwidthLimit, this`wants, this`keyboardConfig
    {
      && !helloSent && features == INITIAL_FEATURES && notificationCallbacks == map[]
      && desktop == INITIAL_DESKTOP && desktopSizeServer.None?
      && bandwidthLimit == serverBandwidthLimit && softBandwidthLimit == serverBandwidthLimit
      && wants == INITIAL_WANTS && keyboardConfig.None?
    }

    /**
     * `__init__`, with the `init_vars` it ends with. Neither timer exists yet, so
     * `schedule_idle_grace_timeout` and then `schedule_idle_timeout` only add: with an idle
     * timeout the grace timer gets the first handle and the idle timer the second.
     */
    constructor(idleTimeout: int, bandwidthLimit: int, avSync: bool,
                gracePercent: int, avSyncDelta: int, bandwidthDetection: bool, now: int)
      ensures Valid() && VarsInitialised()
      ensures this.idleTimeout == idleTimeout && this.gracePercent == gracePercent
      ensures this.serverBandwidthLimit == bandwidthLimit && this.avSync == avSync
      ensures this.bandwidthDetection == bandwidthDetection
      ensures Open() && windowSources == []
      ensures avSyncDelay == 0 && avSyncDelayTotal == 0 && this.avSyncDelta == avSyncDelta
      ensures !suspended && !idle && lastUserEvent == now
      ensures idleTimer.Some? <==> idleTimeout > 0
      ensures idleGraceTimer.Some? <==> idleTimeout > 0
    {
      this.idleTimeout := idleTimeout;
      this.gracePercent := gracePercent;
      var graceDuration := IdleTimeout.GraceDuration(idleTimeout, gracePercent);
      this.idleGraceDuration := graceDuration;
      this.serverBandwidthLimit := bandwidthLimit;
      this.avSync := avSync;
      this.bandwidthDetection := bandwidthDetection;
      closed := false;
      protocolAttached := true;
      ordinaryPackets := [];
      packetQueue := [];
      encodeWorkQueue := [];
      hooks := [];
      if idleTimeout > 0 {
        timers := map[1 := Timer(Max(0, (idleTimeout - graceDuration) * 1000), IdleGraceTimedout),
                      2 := Timer(IdleTimeout.IdleDelayMs(idleTimeout), IdleTimedout)];
        idleGraceTimer := Some(1);
        idleTimer := Some(2);
        nextTimerHandle := 3;
      } else {
        timers := map[];
        idleGraceTimer := None;
        idleTimer := None;
        nextTimerHandle := 1;
      }
      idle := false;
      suspended := false;
      lastUserEvent := now;
      windowSources := [];
      avgCongestionSendSpeed := 0;
      mmapSize := 0;
      avSyncDelay := 0;
      avSyncDelayTotal := 0;
      this.avSyncDelta := avSyncDelta;
      mouseShow := false;
      mouseLastPosition := None;
      // init_vars
      helloSent := false;
      features := INITIAL_FEATURES;
      notificationCallbacks := map[];
      desktop := INITIAL_DESKTOP;
      desktopSizeServer := None;
      this.bandwidthLimit := bandwidthLimit;
      softBandwidthLimit := bandwidthLimit;
      wants := INITIAL_WANTS;
      keyboardConfig := None;
    }

    /** The main loop's `timeout_add`: arm a timer under a fresh, positive handle. */
    method TimeoutAdd(t: Timer) returns (h: nat)
      requires nextTimerHandle >= 1 && forall k :: k in timers ==> 1 <= k < nextTimerHandle
      modifies this`timers, this`nextTimerHandle
      ensures h == old(nextTimerHandle) && h >= 1 && h !in old(timers) && timers == old(timers)[h := t]
      ensures nextTimerHandle == h + 1 && forall k :: k in timers ==> 1 <= k < nextTimerHandle
    {
      h := nextTimerHandle;
      timers := timers[h := t];
      nextTimerHandle := nextTimerHandle + 1;
    }

    /** The main loop's `source_remove`. */
    method SourceRemove(h: nat)
      modifies this`timers
      ensures timers == old(timers) - {h}
    {
      timers := timers - {h};
    }

    /** `schedule_idle_timeout`: cancel the idle timer, then arm a fresh one if there is an idle timeout. */
    method ScheduleIdleTimeout()
      requires TimersValid()
      modifies this`timers, this`nextTimerHandle, this`idleTimer
      ensures TimersValid()
      ensures idleTimer.Some? <==> idleTimeout > 0
      ensures idleTimer.Some? ==> idleTimer.value == old(nextTimerHandle) && idleTimer.value !in old(timers)
      ensures nextTimerHandle == old(nextTimerHandle) + (if idleTimer.Some? then 1 else 0)
      ensures timers.Keys == old(timers).Keys - OptSet(old(idleTimer)) + OptSet(idleTimer)
    {
      if idleTimer.Some? {
        SourceRemove(idleTimer.value);
        idleTimer := None;
      }
      if idleTimeout > 0 {
        var h := TimeoutAdd(Timer(IdleTimeout.IdleDelayMs(idleTimeout), IdleTimedout));
        idleTimer := Some(h);
      }
    }

    /** `schedule_idle_grace_timeout`: as above, but no grace timer is armed on a closed session. */
    method ScheduleIdleGraceTimeout()
      requires TimersValid()
      modifies this`timers, this`nextTimerHandle, this`idleGraceTimer
      ensures TimersValid()
      ensures idleGraceTimer.Some? <==> idleTimeout > 0 && !closed
      ensures idleGraceTimer.Some? ==> idleGraceTimer.value == old(nextTimerHandle) && idleGraceTimer.value !in old(timers)
      ensures nextTimerHandle == old(nextTimerHandle) + (if idleGraceTimer.Some? then 1 else 0)
      ensures timers.Keys == old(timers).Keys - OptSet(old(idleGraceTimer)) + OptSet(idleGraceTimer)
    {
      if idleGraceTimer.Some? {
        SourceRemove(idleGraceTimer.value);
        idleGraceTimer := None;
      }
      if idleTimeout > 0 && !closed {
        var grace := idleTimeout - idleGraceDuration;
        var h := TimeoutAdd(Timer(Max(0, grace * 1000), IdleGraceTimedout));
        idleGraceTimer := Some(h);
      }
    }

    /**
     * The grace timer fires: the main loop drops it (its callback returns None), then
     * `idle_grace_timedout` clears the handle and calls the server back. Nothing is re-armed.
     */
    method FireIdleGraceTimer()
      requires TimersValid() && idleGraceTimer.Some?
      modifies this`timers, this`idleGraceTimer, this`hooks
      ensures TimersValid()
      ensures idleGraceTimer.None? && timers == old(timers) - {old(idleGraceTimer).value}
      ensures hooks == old(hooks) + [IdleGraceTimeoutCb]
    {
      timers := timers - {idleGraceTimer.value};
      idleGraceTimer := None;
      hooks := hooks + [IdleGraceTimeoutCb];
    }

    /**
     * The idle timer fires: the main loop drops it, `idle_timedout` clears the handle and calls
     * the server back (`callbackCloses`: that callback closed the session), then re-arms the
     * idle timer alone unless the session is closed.
     */
    method FireIdleTimer(callbackCloses: bool)
      requires TimersValid() && idleTimer.Some?
      modifies this`timers, this`nextTimerHandle, this`idleTimer, this`hooks
      modifies this`closed, this`encodeWorkQueue, this`protocolAttached
      ensures TimersValid()
      ensures closed == (old(closed) || callbackCloses)
      ensures idleTimer.Some? <==> !closed
      ensures idleGraceTimer == old(idleGraceTimer)
      ensures timers.Keys == old(timers).Keys - {old(idleTimer).value} + OptSet(idleTimer)
      ensures idleTimer.Some? ==> idleTimer.value !in old(timers)
      ensures hooks == old(hooks) + [IdleTimeoutCb]
      ensures protocolAttached == (old(protocolAttached) && !callbackCloses)
      ensures encodeWorkQueue == old(encodeWorkQueue) + (if callbackCloses then [EndOfQueue] else [])
    {
      timers := timers - {idleTimer.value};
      idleTimer := None;
      hooks := hooks + [IdleTimeoutCb];
      if callbackCloses {
        Close();
      }
      if !closed {
        ScheduleIdleTimeout();
      }
    }

    /** The end of `user_event`: forget the idle notification's callback and, if there was one, close it. */
    method DropIdleNotification()
      modifies this`notificationCallbacks, this`ordinaryPackets, this`hooks
      ensures notificationCallbacks == old(notificationCallbacks) - {IDLE_NOTIFICATION_ID}
      ensures var closes := protocolAttached && old(IDLE_NOTIFICATION_ID in notificationCallbacks) && NotificationsOpen(features, suspended, helloSent);
        && ordinaryPackets == old(ordinaryPackets) + Queued(closes, NotifyClosePacket(IDLE_NOTIFICATION_ID), MoreOptions(NoOptions))
        && hooks == old(hooks) + Wakeup(closes)
    {
      if IDLE_NOTIFICATION_ID in notificationCallbacks {
        notificationCallbacks := notificationCallbacks - {IDLE_NOTIFICATION_ID};
        NotifyClose(IDLE_NOTIFICATION_ID);
      }
    }

    /**
     * `user_event`: note the time, re-arm both timers, leave the idle state, and close the
     * idle notification if one was recorded.
     */
    method UserEvent(now: int)
      requires TimersValid()
      modifies this`lastUserEvent, this`timers, this`nextTimerHandle, this`idleTimer, this`idleGraceTimer
      modifies this`hooks, this`notificationCallbacks, this`ordinaryPackets
      ensures TimersValid()
      ensures lastUserEvent == now
      ensures idleTimer.Some? <==> idleTimeout > 0
      ensures idleGraceTimer.Some? <==> idleTimeout > 0 && !closed
      ensures idleGraceTimer.Some? ==> idleGraceTimer.value == old(nextTimerHandle) && idleGraceTimer.value !in old(timers)
      ensures idleTimer.Some? ==> idleTimer.value == old(nextTimerHandle) + (if idleGraceTimer.Some? then 1 else 0) && idleTimer.value !in old(timers)
      ensures timers.Keys == old(timers).Keys - OptSet(old(idleGraceTimer)) - OptSet(old(idleTimer))
                             + OptSet(idleGraceTimer) + OptSet(idleTimer)
      ensures notificationCallbacks == old(notificationCallbacks) - {IDLE_NOTIFICATION_ID}
      ensures var closes := protocolAttached && old(IDLE_NOTIFICATION_ID in notificationCallbacks) && NotificationsOpen(features, suspended, helloSent);
        && ordinaryPackets == old(ordinaryPackets) + Queued(closes, NotifyClosePacket(IDLE_NOTIFICATION_ID), MoreOptions(NoOptions))
        && hooks == old(hooks) + (if idle then [NoIdle] else []) + Wakeup(closes)
    {
      lastUserEvent := now;
      RearmIdleTimers();
      LeaveIdle();
      DropIdleNotification();
    }

    /** The first half of `user_event`: both timers cancelled and re-armed under fresh handles, grace first. */
    method RearmIdleTimers()
      requires TimersValid()
      modifies this`timers, this`nextTimerHandle, this`idleTimer, this`idleGraceTimer
      ensures TimersValid()
      ensures idleTimer.Some? <==> idleTimeout > 0
      ensures idleGraceTimer.Some? <==> idleTimeout > 0 && !closed
      ensures idleGraceTimer.Some? ==> idleGraceTimer.value == old(nextTimerHandle) && idleGraceTimer.value !in old(timers)
      ensures idleTimer.Some? ==> idleTimer.value == old(nextTimerHandle) + (if idleGraceTimer.Some? then 1 else 0) && idleTimer.value !in old(timers)
      ensures timers.Keys == old(timers).Keys - OptSet(old(idleGraceTimer)) - OptSet(old(idleTimer))
                             + OptSet(idleGraceTimer) + OptSet(idleTimer)
    {
      ScheduleIdleGraceTimeout();
      ScheduleIdleTimeout();
    }

    /** `if self.idle: self.no_idle()`. */
    method LeaveIdle()
      modifies this`hooks
      ensures hooks == old(hooks) + (if idle then [NoIdle] else [])
    {
      if idle {
        hooks := hooks + [NoIdle];
      }
    }

    /** `close`: mark the session closed, queue the end-of-queue marker, drop the protocol. */
    method Close()
      modifies this`closed, this`encodeWorkQueue, this`protocolAttached
      ensures closed && !protocolAttached
      ensures encodeWorkQueue == old(encodeWorkQueue) + [EndOfQueue]
    {
      closed := true;
      encodeWorkQueue := encodeWorkQueue + [EndOfQueue];
      protocolAttached := false;
    }

    /** `next_packet`, called by the protocol when it can send: it hands out what `Pull` says. */
    method NextPacket() returns (r: Pulled)
      modifies this`ordinaryPackets, this`packetQueue
      ensures (r, Queues(ordinaryPackets, packetQueue)) == Pull(closed, old(Queues(ordinaryPackets, packetQueue)))
    {
      r := NothingToSend;
      if !closed {
        if |ordinaryPackets| > 0 {
          var e := ordinaryPackets[0];
          ordinaryPackets := ordinaryPackets[1..];
          r := r.(packet := Some(e.packet), synchronous := e.synchronous, failCb := e.failCb,
                  willHaveMore := e.willHaveMore);
        } else if |packetQueue| > 0 {
          var b := packetQueue[0];
          packetQueue := packetQueue[1..];
          r := r.(packet := b.packet, startSendCb := b.startSendCb, endSendCb := b.endSendCb,
                  failCb := b.failCb, willHaveMore := b.willHaveMore);
        }
        r := r.(haveMore := r.packet.Some? && (|ordinaryPackets| > 0 || |packetQueue| > 0));
      }
    }

    /** `send`: queue an ordinary packet and wake the protocol up; nothing once the protocol is gone. */
    method Send(p: Packet, opts: SendOptions)
      modifies this`ordinaryPackets, this`hooks
      ensures ordinaryPackets == old(ordinaryPackets) + Queued(protocolAttached, p, opts)
      ensures hooks == old(hooks) + Wakeup(protocolAttached)
    {
      if protocolAttached {
        ordinaryPackets := ordinaryPackets + [EntryFor(p, opts)];
        hooks := hooks + [SourceHasMore];
      }
    }

    /** `send_more`: `send` with `will_have_more=True`. */
    method SendMore(p: Packet, opts: SendOptions)
      modifies this`ordinaryPackets, this`hooks
      ensures ordinaryPackets == old(ordinaryPackets) + Queued(protocolAttached, p, MoreOptions(opts))
      ensures hooks == old(hooks) + Wakeup(protocolAttached)
    {
      Send(p, MoreOptions(opts));
    }

    /** `send_async`: `send` with `synchronous=False`. */
    method SendAsync(p: Packet, opts: SendOptions)
      modifies this`ordinaryPackets, this`hooks
      ensures ordinaryPackets == old(ordinaryPackets) + Queued(protocolAttached, p, AsyncOptions(opts))
      ensures hooks == old(hooks) + Wakeup(protocolAttached)
    {
      Send(p, AsyncOptions(opts));
    }

    /** `send_hello`: send the (already merged) capabilities, then mark the hello as sent. */
    method SendHello(capabilities: Arg)
      modifies this`ordinaryPackets, this`hooks, this`helloSent
      ensures helloSent
      ensures ordinaryPackets == old(ordinaryPackets) + Queued(protocolAttached, Packet("hello", [capabilities]), NoOptions)
      ensures hooks == old(hooks) + Wakeup(protocolAttached)
    {
      Send(Packet("hello", [capabilities]), NoOptions);
      helloSent := true;
    }

    /** The window weights, summed as `update_bandwidth_limits` does before splitting. */
    method WindowWeights() returns (weights: seq<int>, total: int)
      ensures weights == Weights()
      ensures total == Bandwidth.Sum(weights) && total >= 0
    {
      weights := [];
      total := 0;
      var i := 0;
      while i < |windowSources|
        invariant 0 <= i <= |windowSources|
        invariant weights == Weights()[..i]
        invariant total == Bandwidth.Sum(weights) && total >= 0
      {
        var weight := windowSources[i].Weight();
        Bandwidth.SumSnoc(weights, weight);
        weights := weights + [weight];
        total := total + weight;
        i := i + 1;
      }
      assert Weights()[..i] == Weights();
    }

    /**
     * The end of `update_bandwidth_limits`: split the soft limit between the windows by weight.
     * A total weight of 0 with windows present is Python's ZeroDivisionError (`raised`), and
     * then no window is written.
     */
    method SplitSoftLimit() returns (raised: bool)
      requires DistinctWindows()
      modifies Windows()`bandwidthLimit
      ensures raised <==> |windowSources| > 0 && Bandwidth.Sum(old(Weights())) == 0
      ensures !raised && Bandwidth.Sum(old(Weights())) > 0 ==>
        forall k :: 0 <= k < |windowSources| ==>
          windowSources[k].bandwidthLimit == Bandwidth.Share(softBandwidthLimit, old(Weights())[k], Bandwidth.Sum(old(Weights())))
      ensures raised ==>
        forall k :: 0 <= k < |windowSources| ==> windowSources[k].bandwidthLimit == old(windowSources[k].bandwidthLimit)
    {
      var weights, total := WindowWeights();
      if |windowSources| > 0 && total == 0 {
        return true;
      }
      var i := 0;
      while i < |windowSources|
        invariant 0 <= i <= |windowSources|
        invariant total > 0 || i == |windowSources|
        invariant forall k :: 0 <= k < i ==>
          windowSources[k].bandwidthLimit == Bandwidth.Share(softBandwidthLimit, weights[k], total)
      {
        windowSources[i].bandwidthLimit := Max(1, softBandwidthLimit * weights[i] / total);
        i := i + 1;
      }
      return false;
    }

    /**
     * `update_bandwidth_limits`. Nothing happens with mmap. Otherwise the soft limit is
     * recomputed from the detected send speed and the hard limit and, when positive, split
     * between the windows.
     */
    method UpdateBandwidthLimits() returns (raised: bool)
      requires DistinctWindows()
      modifies this`softBandwidthLimit, Windows()`bandwidthLimit
      ensures mmapSize > 0 ==> !raised && softBandwidthLimit == old(softBandwidthLimit)
      ensures mmapSize <= 0 ==>
        softBandwidthLimit == Bandwidth.SoftLimit(bandwidthDetection, avgCongestionSendSpeed, bandwidthLimit)
      ensures raised <==> mmapSize <= 0 && softBandwidthLimit > 0 && |windowSources| > 0 && Bandwidth.Sum(old(Weights())) == 0
      ensures mmapSize <= 0 && softBandwidthLimit > 0 && !raised && Bandwidth.Sum(old(Weights())) > 0 ==>
        forall k :: 0 <= k < |windowSources| ==>
          windowSources[k].bandwidthLimit == Bandwidth.Share(softBandwidthLimit, old(Weights())[k], Bandwidth.Sum(old(Weights())))
      ensures mmapSize > 0 || softBandwidthLimit <= 0 || raised ==>
        forall k :: 0 <= k < |windowSources| ==> windowSources[k].bandwidthLimit == old(windowSources[k].bandwidthLimit)
    {
      if mmapSize > 0 {
        return false;
      }
      var limit := 0;
      if bandwidthDetection {
        limit := avgCongestionSendSpeed;
        if limit > 20 * 1024 * 1024 {
          limit := 0;
        }
      }
      if bandwidthLimit > 0 {
        limit := Min(bandwidthLimit, limit);
      }
      softBandwidthLimit := limit;
      if softBandwidthLimit <= 0 {
        return false;
      }
      raised := SplitSoftLimit();
    }

    /** `update_av_sync_delay_total`: recompute the total and push it to every window source. */
    method UpdateAvSyncDelayTotal(encoderLatency: int)
      modifies this`avSyncDelayTotal, Windows()`avSyncDelay
      ensures avSyncDelayTotal == AvSync.AvSyncTotal(avSync, avSyncDelay, avSyncDelta, encoderLatency)
      ensures forall k :: 0 <= k < |windowSources| ==> windowSources[k].avSyncDelay == avSyncDelayTotal
    {
      if avSync {
        avSyncDelayTotal := Min(1000, Max(0, avSyncDelay + avSyncDelta + encoderLatency));
      } else {
        avSyncDelayTotal := 0;
      }
      var total := avSyncDelayTotal;
      var i := 0;
      while i < |windowSources|
        invariant 0 <= i <= |windowSources|
        invariant avSyncDelayTotal == total
        invariant forall k :: 0 <= k < i ==> windowSources[k].avSyncDelay == avSyncDelayTotal
      {
        windowSources[i].SetAvSyncDelay(avSyncDelayTotal);
        i := i + 1;
      }
    }

    /** `set_av_sync_delta`. */
    method SetAvSyncDelta(delta: int, encoderLatency: int)
      modifies this`avSyncDelta, this`avSyncDelayTotal, Windows()`avSyncDelay
      ensures avSyncDelta == delta
      ensures avSyncDelayTotal == AvSync.AvSyncTotal(avSync, avSyncDelay, delta, encoderLatency)
      ensures forall k :: 0 <= k < |windowSources| ==> windowSources[k].avSyncDelay == avSyncDelayTotal
    {
      avSyncDelta := delta;
      UpdateAvSyncDelayTotal(encoderLatency);
    }

    /** `set_av_sync_delay`. */
    method SetAvSyncDelay(delay: int, encoderLatency: int)
      modifies this`avSyncDelay, this`avSyncDelayTotal, Windows()`avSyncDelay
      ensures avSyncDelay == delay
      ensures avSyncDelayTotal == AvSync.AvSyncTotal(avSync, delay, avSyncDelta, encoderLatency)
      ensures forall k :: 0 <= k < |windowSources| ==> windowSources[k].avSyncDelay == avSyncDelayTotal
    {
      avSyncDelay := delay;
      UpdateAvSyncDelayTotal(encoderLatency);
    }

    /** `set_screen_sizes`: `screen_sizes or []`. */
    method SetScreenSizes(sizes: Option<seq<CapValue>>)
      modifies this`desktop
      ensures desktop == old(desktop).(screenSizes := sizes.GetOr([]))
    {
      desktop := desktop.(screenSizes := sizes.GetOr([]));
    }

    /** `set_desktops`: `desktops or 1` and `desktop_names or []`. */
    method SetDesktops(count: int, names: seq<string>)
      modifies this`desktop
      ensures desktop == old(desktop).(count := Negotiation.DesktopCount(count), names := names)
    {
      desktop := desktop.(count := if count == 0 then 1 else count, names := names);
    }

    /** The desktop block of `parse_hello`: a desktop size out of range is dropped. */
    method ParseDesktopCaps(c: Caps)
      modifies this`desktop
      ensures desktop == ParseDesktop(c)
    {
      var size := IntPair(c, "desktop_size");
      if size.Some? {
        var (w, h) := size.value;
        if w <= 0 || h <= 0 || w >= 32768 || h >= 32768 {
          size := None;
        }
      }
      desktop := desktop.(size := size, modeSize := IntPair(c, "desktop_mode_size"),
                          sizeUnscaled := IntPair(c, "desktop_size.unscaled"));
      SetScreenSizes(ListGet(c, "screen_sizes"));
      SetDesktops(IntGet(c, "desktops", 1), StrListGet(c, "desktop.names"));
    }

    /**
     * `parse_hello`, without the mixins' own parsing: `negotiatedMmapSize` is what the mmap
     * mixin settled on, `encoderLatency` what the audio mixin reports. The bandwidth limit
     * is the smaller of the server's and the client's, or the client's alone when the server
     * has none, and 0 once mmap is in use.
     */
    method ParseHello(c: Caps, negotiatedMmapSize: int, encoderLatency: int)
      modifies this`wants, this`mmapSize, this`features, this`bandwidthLimit, this`desktop
      modifies this`avSyncDelay, this`avSyncDelayTotal, this`keyboardConfig, Windows()`avSyncDelay
      ensures wants == ParseWants(c) && features == ParseFeatures(c) && desktop == ParseDesktop(c)
      ensures mmapSize == negotiatedMmapSize
      ensures bandwidthLimit ==
        Negotiation.NegotiatedBandwidthLimit(serverBandwidthLimit, IntGet(c, "bandwidth-limit", 0), negotiatedMmapSize)
      ensures avSyncDelay == AvSync.NegotiatedDelay(avSync, BoolGet(c, "av-sync", false), IntGet(c, "av-sync.delay.default", 150))
      ensures avSyncDelayTotal == AvSync.AvSyncTotal(avSync, avSyncDelay, avSyncDelta, encoderLatency)
      ensures forall k :: 0 <= k < |windowSources| ==> windowSources[k].avSyncDelay == avSyncDelayTotal
      ensures keyboardConfig.None?
    {
      wants := ParseWants(c);
      // the mixins parse their own capabilities here; of those, only mmap_size is used below
      mmapSize := negotiatedMmapSize;
      features := ParseFeatures(c);
      NegotiateBandwidthLimit(IntGet(c, "bandwidth-limit", 0));
      ParseDesktopCaps(c);
      SetAvSyncDelay(AvSync.NegotiatedDelay(avSync, BoolGet(c, "av-sync", false), IntGet(c, "av-sync.delay.default", 150)),
                     encoderLatency);
      keyboardConfig := None;
    }

    /**
     * The bandwidth limit of `parse_hello`, together with its final step that zeroes the limit
     * once mmap is in use (nothing in between reads the limit).
     */
    method NegotiateBandwidthLimit(clientLimit: int)
      modifies this`bandwidthLimit
      ensures bandwidthLimit == Negotiation.NegotiatedBandwidthLimit(serverBandwidthLimit, clientLimit, mmapSize)
    {
      if serverBandwidthLimit <= 0 {
        bandwidthLimit := clientLimit;
      } else {
        bandwidthLimit := Min(serverBandwidthLimit, clientLimit);
      }
      if mmapSize > 0 {
        bandwidthLimit := 0;
      }
    }

    /**
     * `notify`: refused (False, nothing recorded) without client support or while suspended;
     * otherwise the callback is recorded (replacing any for `nid`) and the notification is
     * sent only once the hello has gone out.
     */
    method Notify(nid: int, n: Notification, userCallback: Option<Callback>) returns (delivered: bool)
      modifies this`notificationCallbacks, this`ordinaryPackets, this`hooks
      ensures delivered <==> old(features.notifications && !suspended)
      ensures !delivered ==> notificationCallbacks == old(notificationCallbacks)
      ensures delivered && userCallback.Some? ==> notificationCallbacks == old(notificationCallbacks)[nid := userCallback.value]
      ensures delivered && userCallback.None? ==> notificationCallbacks == old(notificationCallbacks)
      ensures ordinaryPackets ==
        old(ordinaryPackets) + Queued(protocolAttached && delivered && helloSent, NotifyShowPacket(nid, n), AsyncOptions(NoOptions))
      ensures hooks == old(hooks) + Wakeup(protocolAttached && delivered && helloSent)
    {
      if !features.notifications {
        return false;
      }
      if suspended {
        return false;
      }
      if userCallback.Some? {
        notificationCallbacks := notificationCallbacks[nid := userCallback.value];
      }
      if helloSent {
        SendAsync(NotifyShowPacket(nid, n), NoOptions);
      }
      return true;
    }

    /** `notify_close`: queue a close only when notifications may be shown at all. */
    method NotifyClose(nid: int)
      modifies this`ordinaryPackets, this`hooks
      ensures ordinaryPackets == old(ordinaryPackets) +
        Queued(protocolAttached && NotificationsOpen(features, suspended, helloSent), NotifyClosePacket(nid), MoreOptions(NoOptions))
      ensures hooks == old(hooks) + Wakeup(protocolAttached && NotificationsOpen(features, suspended, helloSent))
    {
      if !features.notifications || suspended || !helloSent {
        return;
      }
      SendMore(NotifyClosePacket(nid), NoOptions);
    }

    /**
     * `updated_desktop_size`: tell a randr-aware client about a new root size, once per size,
     * and only after the hello.
     */
    method UpdatedDesktopSize(rootW: int, rootH: int, maxW: int, maxH: int) returns (sent: bool)
      modifies this`desktopSizeServer, this`ordinaryPackets, this`hooks
      ensures sent <==> old(helloSent && features.randrNotify && desktopSizeServer != Some((rootW, rootH)))
      ensures sent ==> desktopSizeServer == Some((rootW, rootH))
      ensures !sent ==> desktopSizeServer == old(desktopSizeServer)
      ensures ordinaryPackets == old(ordinaryPackets) +
        Queued(protocolAttached && sent, Packet("desktop_size", [IntArg(rootW), IntArg(rootH), IntArg(maxW), IntArg(maxH)]), NoOptions)
      ensures hooks == old(hooks) + Wakeup(protocolAttached && sent)
    {
      if !helloSent {
        return false;
      }
      if features.randrNotify && (desktopSizeServer.None? || desktopSizeServer.value != (rootW, rootH)) {
        desktopSizeServer := Some((rootW, rootH));
        Send(Packet("desktop_size", [IntArg(rootW), IntArg(rootH), IntArg(maxW), IntArg(maxH)]), NoOptions);
        return true;
      }
      return false;
    }

    /** `update_mouse`: forward a pointer position asynchronously, skipping a repeat of the last one. */
    method UpdateMouse(wid: int, x: int, y: int, rx: int, ry: int)
      modifies this`mouseLastPosition, this`ordinaryPackets, this`hooks
      ensures var moved := old(mouseShow && mouseLastPosition != Some((x, y, rx, ry)));
        && mouseLastPosition == (if moved then Some((x, y, rx, ry)) else old(mouseLastPosition))
        && ordinaryPackets == old(ordinaryPackets) + Queued(protocolAttached && moved,
             Packet("pointer-position", [IntArg(wid), IntArg(x), IntArg(y), IntArg(rx), IntArg(ry)]), AsyncOptions(NoOptions))
        && hooks == old(hooks) + Wakeup(protocolAttached && moved)
    {
      if !mouseShow {
        return;
      }
      if mouseLastPosition != Some((x, y, rx, ry)) {
        mouseLastPosition := Some((x, y, rx, ry));
        SendAsync(Packet("pointer-position", [IntArg(wid), IntArg(x), IntArg(y), IntArg(rx), IntArg(ry)]), NoOptions);
      }
    }

    /** `get_keycode`: -1 while no keyboard is configured, otherwise the keyboard's answer. */
    function GetKeycode(clientKeycode: int, keyname: string, modifiers: seq<string>): (k: int)
      reads this`keyboardConfig
      ensures keyboardConfig.None? ==> k == -1
      ensures keyboardConfig.Some? ==> k == keyboardConfig.value.keycodeOf(clientKeycode, keyname, modifiers)
    {
      match keyboardConfig
      case None => -1
      case Some(config) => config.keycodeOf(clientKeycode, keyname, modifiers)
    }
  }
}
