# xpra client session source and sound pipeline bookkeeping, in Dafny

This project models two parts of the xpra remote-display server.

**The per-client session source, `ClientConnection`** (`src/xpra/server/source/client_connection.py`).
It is modelled as the class `ServerSource.ClientConnection`:

- It keeps two outbound queues. `ordinary_packets` holds control messages and `packet_queue` holds encoded window data. `next_packet` always drains the first before the second, and returns nothing once the session is closed.
- `send`, `send_more` and `send_async` queue control packets. They do nothing once the protocol is gone.
- `update_bandwidth_limits` derives a soft limit from the detected congestion send speed and the hard limit. It then splits that limit between the window sources by weight.
- The av-sync delay is clamped to [0, 1000] ms and pushed to every window source.
- The idle and grace timers are modelled as entries of the main loop's timer table. `user_event` re-arms them.
- Notifications are gated on client support, suspension and whether the hello has been sent.
- `parse_hello` reads the client's capabilities through typed getters that fall back to a default. Only the non-mixin part is modelled.
- `close` sets the closed flag, queues the end-of-queue marker and drops the protocol.

The pure parts have modules of their own:

| module | what it holds |
|---|---|
| `PacketScheduler` | the queue discipline |
| `Bandwidth` | the allocator |
| `AvSync` | the av-sync delay arithmetic |
| `IdleTimeout` | the timer arithmetic |
| `Capabilities` | the capability getters |
| `Negotiation` | the hello decisions |
| `Hello` | the records `parse_hello` fills in and their `init_vars` values |

**The bookkeeping of `SoundPipeline`** (`src/xpra/sound/sound_pipeline.py`).
It is modelled as the module `Sound`:

- The `state` string (`Sound.State`) and its transitions in `start`, `stop`, `cleanup` and `on_message`.
- `do_get_state`.
- The `emit_info` debounce flag, with the pending main-loop callback it stands for.
- `update_bitrate`.
- The optional keys of `get_info`.
- The process-wide fault-injection counter (`Sound.FaultInjector`).
- The `" ! "` pipeline description.
- The prettifier for error details.

GStreamer objects are presence flags, and the `set_state` requests made of the pipeline are recorded in order. Signals are recorded in the order they are emitted or queued for the main loop.

Calls into code outside the model are recorded in a `hooks` log, in the order made. These are `protocol.source_has_more`, the server's idle callbacks and `no_idle`.

The `Strings` module holds Python's `str.find`, `str.split` and `str.join`. `Arith` holds the facts about Euclidean division that the proofs need. Dafny's `/` equals Python's `//` whenever the divisor is positive. Every divisor in the source is positive except `total_weight` in `update_bandwidth_limits`, whose zero case is modelled as the `raised` result.

The following behaviour of the code may surprise a reader; the model keeps it as written:

- `close` does not cancel the idle and grace timers.
- `close` puts its end-of-queue marker (`None`) on `encode_work_queue`, not on the outbound bulk queue. Calling `close` twice queues two markers.
- A suspended window has weight 0 but still gets a bandwidth limit of `max(1, 0) = 1`. Its limit is not left untouched.
- Because of that floor of 1, the window limits can add up to more than the soft limit (`Bandwidth.SharesCanOvercommit`). Their sum is bounded by the soft limit plus one unit per window (`Bandwidth.SharesTotal`).
- When every window has weight 0, the split divides by zero. `update_bandwidth_limits` then raises and no window is written. This is the `raised` result.
- With an idle timeout of at most 10 seconds, the grace duration's 10-second floor swallows the whole timeout. The grace timer then fires at once, not strictly before a shorter timeout.
- A hello that does not declare the double-click settings sets them to 0 and None. The -1 values of `init_vars` do not survive `parse_hello`.

## Model

| member | source | states |
|---|---|---|
| PacketScheduler.EntryFor | src/xpra/server/source/client_connection.py:469-476 | the queued entry keeps the packet and the fail callback; `synchronous` defaults to True and `will_have_more` to `not synchronous` unless given |
| PacketScheduler.AsyncEntry | src/xpra/server/source/client_connection.py:483-485 | `send_async` always queues an asynchronous entry, which announces more to come unless the caller says otherwise |
| PacketScheduler.MoreEntry | src/xpra/server/source/client_connection.py:479-481 | `send_more` always announces more to come and keeps the caller's `synchronous` choice |
| PacketScheduler.Pull | src/xpra/server/source/client_connection.py:458-467 | a closed session or empty queues give the empty tuple; otherwise the head of `ordinary_packets` goes out if there is one, else the head of `packet_queue`; `have_more` iff a packet went out and something is left |
| PacketScheduler.PullAdvancesBacklog | src/xpra/server/source/client_connection.py:458-467 | each pull hands out exactly the head of the backlog (ordinary entries, then bulk) and removes it |
| PacketScheduler.DrainOrder | src/xpra/server/source/client_connection.py:458-467 | n pulls on an open session deliver the first n packets of the backlog: both queues FIFO, every ordinary packet before any bulk one |
| PacketScheduler.DrainedPullsNothing | src/xpra/server/source/client_connection.py:460-467 | with both queues empty a pull returns the empty tuple and changes nothing |
| Bandwidth.SoftLimit | src/xpra/server/source/client_connection.py:216-226 | the soft limit is the detected speed (0 when detection is off or the speed is above 20*1024*1024, "20Mbps" in the source's words), capped by a positive hard limit through `min` |
| Bandwidth.FastLinkIsUnconstrained | src/xpra/server/source/client_connection.py:220-222 | a measured speed of 25*1024*1024 with no hard limit gives a soft limit of 0 |
| Bandwidth.WindowWeight | src/xpra/server/source/client_connection.py:235-241 | a suspended window weighs 0; any other at least its pixel area and at least its damaged pixels |
| Bandwidth.Share | src/xpra/server/source/client_connection.py:247 | a window's limit is at least 1, at most the soft limit when its weight is within the total, and exactly 1 for weight 0 (a suspended window gets 1) |
| Bandwidth.Shares | src/xpra/server/source/client_connection.py:244-247 | the limits written, one per window in order, each the window's `Share` |
| Bandwidth.SharesWithinSoft | src/xpra/server/source/client_connection.py:243-247 | with a positive total weight, every window's limit lies between 1 and the soft limit |
| Bandwidth.FloorSharesBelow | src/xpra/server/source/client_connection.py:243-247 | the rounded-down shares add up to no more than `soft * sum(weights) // total` |
| Bandwidth.FloorSharesWithinSoft | src/xpra/server/source/client_connection.py:243-247 | when the total is the sum of the weights, the rounded-down shares add up to at most the soft limit |
| Bandwidth.SharesOvercommitBound | src/xpra/server/source/client_connection.py:247 | the floor of 1 adds at most one unit per window to the rounded-down shares, and the limits add up to at least one per window |
| Bandwidth.SharesTotal | src/xpra/server/source/client_connection.py:243-247 | the window limits add up to at most the soft limit plus the number of windows |
| Bandwidth.SharesCanOvercommit | src/xpra/server/source/client_connection.py:247 | soft limit 10 and weights 1, 1, 1000000 give limits adding up to 11, more than the soft limit |
| Bandwidth.TwoWindowsExample | src/xpra/server/source/client_connection.py:243-247 | weights 100 and 300 under a soft limit of 1000 give 250 and 750 |
| Bandwidth.SumSnoc | src/xpra/server/source/client_connection.py:243 | adding one more weight adds it to the total |
| AvSync.AvSyncTotal | src/xpra/server/source/client_connection.py:388-394 | the total is 0 with av-sync off; otherwise delay + delta + encoder latency clamped to [0, 1000], with each clamp case stated |
| AvSync.NegotiatedDelay | src/xpra/server/source/client_connection.py:343-344 | the client's default delay counts only when both server and client enable av-sync; otherwise the delay is 0 |
| AvSync.TotalMonotoneInDelay | src/xpra/server/source/client_connection.py:390 | a longer client delay never gives a shorter total |
| IdleTimeout.GraceDuration | src/xpra/server/source/client_connection.py:125 | the grace duration is `max(10, idle_timeout * (100 - GRACE_PERCENT) // 100)`: at least both, and equal to one of them |
| IdleTimeout.GraceDelayMs | src/xpra/server/source/client_connection.py:279-280 | the grace timer's delay is never negative; 0 when the grace duration reaches the timeout, otherwise the idle delay minus the grace duration |
| IdleTimeout.GraceFiresFirst | src/xpra/server/source/client_connection.py:265-280 | with a positive idle timeout the grace timer's delay is strictly below the idle timer's |
| IdleTimeout.GraceShorterThanTimeout | src/xpra/server/source/client_connection.py:125 | above the 10-second floor and with a positive percentage, the grace duration is strictly shorter than the idle timeout |
| IdleTimeout.ShortTimeoutGraceImmediate | src/xpra/server/source/client_connection.py:279-280 | an idle timeout of at most 10 seconds clamps the grace delay to 0 |
| IdleTimeout.SixtySecondExample | src/xpra/server/source/client_connection.py:125-129 | a 60-second timeout at 90 percent: 10 seconds of grace, the grace timer at 50000 ms, the idle timer at 60000 ms |
| Capabilities.BoolGet | src/xpra/server/source/client_connection.py:296-303 | an absent key gives the default, a boolean is read as is, an integer 0 is False |
| Capabilities.IntGet | src/xpra/server/source/client_connection.py:320-322 | an integer is read as is; an absent key or a string or list value gives the default |
| Capabilities.IntPair | src/xpra/server/source/client_connection.py:329 | a pair only for a two-element list whose elements both read as integers, and then exactly those integers |
| Capabilities.StrListGet | src/xpra/server/source/client_connection.py:319 | a list of strings is read element by element; anything else gives the empty list |
| Capabilities.ListGet | src/xpra/server/source/client_connection.py:337 | the list as sent, present iff the key holds a list |
| Capabilities.RoundTrip | src/xpra/server/source/client_connection.py:296-338 | a boolean, integer, integer pair or string list a client sends is read back unchanged by the matching getter |
| Capabilities.AbsentGivesDefault | src/xpra/server/source/client_connection.py:296-338 | every getter gives its default for an absent key |
| Negotiation.CheckedDesktopSize | src/xpra/server/source/client_connection.py:329-334 | the desktop size is kept iff both dimensions lie in (0, 32768), and is then unchanged |
| Negotiation.OversizedDesktopDropped | src/xpra/server/source/client_connection.py:332-334 | a 40000 x 10 desktop size is dropped, not refused |
| Negotiation.NegotiatedBandwidthLimit | src/xpra/server/source/client_connection.py:322-326 | the limit is 0 with mmap in use; otherwise the client's when the server has none; otherwise at most both and equal to one of them |
| Negotiation.ZeroClientLimit | src/xpra/server/source/client_connection.py:322-326 | a client limit of 0 under a positive server limit yields 0 |
| Negotiation.DesktopCount | src/xpra/server/source/client_connection.py:685 | the desktop count is never 0; a non-zero count is kept |
| Hello.ParseWants | src/xpra/server/source/client_connection.py:296-303 | `ui_client` defaults to True, and an undeclared `wants_encodings` or `wants_display` follows it |
| Hello.NonUiClientWantsNoDisplay | src/xpra/server/source/client_connection.py:296-298 | a client that says it is not a UI client, and declares nothing else, wants neither encodings nor the display |
| Hello.EmptyHelloKeepsInitialWants | src/xpra/server/source/client_connection.py:183-191 | a hello that declares nothing leaves the wants as `init_vars` set them |
| Hello.EmptyHelloFeatures | src/xpra/server/source/client_connection.py:312-321 | a hello that declares nothing turns every feature off but sets the double-click time to 0 and the distance to None, not the -1 of `init_vars` |
| Hello.ParseFeatures | src/xpra/server/source/client_connection.py:312-321 | every feature flag is off, the control commands empty, the double-click time 0 and the distance None unless the client declares them |
| Hello.ParseDesktop | src/xpra/server/source/client_connection.py:329-338 | a declared pair with valid dimensions is kept as is, and nothing else is kept; the count is never 0 and is 1 when undeclared |
| Hello.EmptyHelloKeepsInitialDesktop | src/xpra/server/source/client_connection.py:170-176 | a hello that declares nothing leaves the desktop geometry as `init_vars` set it |
| ServerSource.ClientConnection.constructor | src/xpra/server/source/client_connection.py:110-195 | a new session is open with nothing queued, has the `init_vars` state and the grace duration formula, and has both timers armed iff the idle timeout is positive |
| ServerSource.ClientConnection.ScheduleIdleTimeout | src/xpra/server/source/client_connection.py:265-271 | the old idle timer is removed and a timer with a fresh handle is armed iff the idle timeout is positive; the timer table stays consistent |
| ServerSource.ClientConnection.ScheduleIdleGraceTimeout | src/xpra/server/source/client_connection.py:273-280 | the same for the grace timer, which is never armed on a closed session |
| ServerSource.ClientConnection.FireIdleGraceTimer | src/xpra/server/source/client_connection.py:282-285 | the grace timer is gone, the server callback runs, and nothing is re-armed |
| ServerSource.ClientConnection.FireIdleTimer | src/xpra/server/source/client_connection.py:287-292 | the idle timer is gone, the server callback runs (closing the session, dropping the protocol and queuing the end-of-queue marker when it closes), the idle timer alone is re-armed iff the session is still open, and the grace timer is untouched |
| ServerSource.ClientConnection.UserEvent | src/xpra/server/source/client_connection.py:250-262 | the activity time is recorded; both old timers are removed and re-armed iff the idle timeout is positive (grace only while open) under fresh handles, grace first; `no_idle` runs iff idle; the idle notification's callback is dropped and a close is queued only if it was recorded and notifications are open |
| ServerSource.ClientConnection.RearmIdleTimers | src/xpra/server/source/client_connection.py:253-254 | both old timers are removed and re-armed iff the idle timeout is positive (grace only while open), under fresh handles never in the old table, grace first |
| ServerSource.ClientConnection.LeaveIdle | src/xpra/server/source/client_connection.py:255-256 | `no_idle` is called iff the session is idle |
| ServerSource.ClientConnection.DropIdleNotification | src/xpra/server/source/client_connection.py:257-262 | the idle notification's callback is removed and a `notify_close` is queued iff it was present and notifications are open |
| ServerSource.ClientConnection.Close | src/xpra/server/source/client_connection.py:200-209 | the session is closed, one end-of-queue marker is appended, and the protocol is dropped |
| ServerSource.ClientConnection.NextPacket | src/xpra/server/source/client_connection.py:458-467 | the returned tuple and the queues left behind are exactly what `Pull` gives on the old queues |
| ServerSource.ClientConnection.Send | src/xpra/server/source/client_connection.py:469-477 | one entry is appended and the protocol woken iff the protocol is attached; otherwise nothing changes |
| ServerSource.ClientConnection.SendMore | src/xpra/server/source/client_connection.py:479-481 | `send` with `will_have_more` forced on |
| ServerSource.ClientConnection.SendAsync | src/xpra/server/source/client_connection.py:483-485 | `send` with `synchronous` forced off |
| ServerSource.ClientConnection.SendHello | src/xpra/server/source/client_connection.py:494-507 | the hello packet is queued (when attached) and `hello_sent` is set |
| ServerSource.ClientConnection.WindowWeights | src/xpra/server/source/client_connection.py:233-243 | the loop computes every window's weight, in order, and their sum, which is never negative |
| ServerSource.ClientConnection.SplitSoftLimit | src/xpra/server/source/client_connection.py:243-247 | it raises iff there are windows and the total weight is 0, and then writes nothing; otherwise every window gets its `Share` of the soft limit |
| ServerSource.ClientConnection.UpdateBandwidthLimits | src/xpra/server/source/client_connection.py:212-247 | nothing changes with mmap; otherwise the soft limit is `SoftLimit`, windows are written only when it is positive, and the division by a zero total is the only failure |
| ServerSource.ClientConnection.UpdateAvSyncDelayTotal | src/xpra/server/source/client_connection.py:387-396 | the total is `AvSyncTotal` of the current settings and every window source receives it |
| ServerSource.ClientConnection.SetAvSyncDelta | src/xpra/server/source/client_connection.py:377-380 | the delta is stored and the total recomputed and pushed |
| ServerSource.ClientConnection.SetAvSyncDelay | src/xpra/server/source/client_connection.py:382-385 | the delay is stored and the total recomputed and pushed |
| ServerSource.ClientConnection.SetScreenSizes | src/xpra/server/source/client_connection.py:680-682 | the screen sizes become the given list, or the empty list for None; the rest of the desktop record is unchanged |
| ServerSource.ClientConnection.SetDesktops | src/xpra/server/source/client_connection.py:684-686 | the count becomes `desktops or 1` and the names are stored |
| ServerSource.ClientConnection.ParseDesktopCaps | src/xpra/server/source/client_connection.py:329-338 | the desktop record becomes `ParseDesktop` of the capabilities |
| ServerSource.ClientConnection.NegotiateBandwidthLimit | src/xpra/server/source/client_connection.py:322-326 | the limit becomes `NegotiatedBandwidthLimit` of the server and client limits, zeroed by mmap as `parse_hello` ends (lines 362-364) |
| ServerSource.ClientConnection.ParseHello | src/xpra/server/source/client_connection.py:295-364 | wants, features and desktop are their parse functions of the capabilities; the bandwidth limit and the av-sync delay are the negotiated ones, with the total pushed to every window; the keyboard is unset |
| ServerSource.ClientConnection.Notify | src/xpra/server/source/client_connection.py:622-645 | delivered iff notifications are supported and the client is not suspended; only then is a callback recorded; `notify_show` is queued iff delivered and the hello has been sent |
| ServerSource.ClientConnection.NotifyClose | src/xpra/server/source/client_connection.py:647-650 | a close is queued iff notifications are supported, the client is not suspended and the hello has been sent |
| ServerSource.ClientConnection.UpdatedDesktopSize | src/xpra/server/source/client_connection.py:688-696 | the new size is sent and remembered iff the hello has been sent, the client wants randr notifications and the size differs from the last one sent |
| ServerSource.ClientConnection.UpdateMouse | src/xpra/server/source/client_connection.py:447-453 | a position is forwarded asynchronously and remembered iff the pointer is shown and it differs from the last one |
| ServerSource.ClientConnection.GetKeycode | src/xpra/server/source/client_connection.py:440-444 | -1 while no keyboard is configured, otherwise the keyboard configuration's answer |
| Sound.FaultInjector.InjectFault | src/xpra/sound/sound_pipeline.py:22-28 | without a positive rate there is no fault and no counting; otherwise the counter goes up by one and a fault is reported iff it is a multiple of the rate |
| Sound.FaultOnEveryRateThCall | src/xpra/sound/sound_pipeline.py:22-28 | every multiple of the rate is a faulting call, and no call before the first multiple faults |
| Sound.FaultsAreRateApart | src/xpra/sound/sound_pipeline.py:22-28 | after a fault, the next rate - 1 calls inject nothing and the rate-th one does |
| Sound.State.Name | src/xpra/sound/sound_pipeline.py:104-107 | every state has a non-empty name, so `get_state() or "unknown"` only falls back for None |
| Sound.StateNamesDistinct | src/xpra/sound/sound_pipeline.py:104-107 | distinct states report distinct names |
| Sound.DoGetState | src/xpra/sound/sound_pipeline.py:101-107 | "stopped" without a pipeline; never "error"; with a pipeline "unknown" exactly for a state the table does not list |
| Sound.DoGetStateInjective | src/xpra/sound/sound_pipeline.py:104-107 | with a pipeline, the four listed GStreamer states map to four different states |
| Sound.PrettifyDetails | src/xpra/sound/sound_pipeline.py:190-192 | when `\Source\` first occurs at an index above 0, the result is exactly what follows that occurrence; otherwise the details are unchanged |
| Sound.ErrorLines | src/xpra/sound/sound_pipeline.py:193-194 | an error logs at least one line |
| Sound.ErrorLinesRejoin | src/xpra/sound/sound_pipeline.py:190-194 | the logged lines, joined with ": ", give back the prettified details |
| Sound.ErrorLinesUnsplittable | src/xpra/sound/sound_pipeline.py:193-194 | no logged line contains ": " |
| Sound.MarkerAtStartIsKept | src/xpra/sound/sound_pipeline.py:191 | a marker at index 0 is not stripped |
| Sound.WindowsPathIsDropped | src/xpra/sound/sound_pipeline.py:190-194 | the details `C:\Source\x: y` log the lines "x" and "y" |
| Sound.Present | src/xpra/sound/sound_pipeline.py:93 | the elements kept are only present ones, never more than given |
| Sound.PresentAppend | src/xpra/sound/sound_pipeline.py:93 | dropping None elements keeps the order across a concatenation |
| Sound.PipelineString | src/xpra/sound/sound_pipeline.py:93 | no present element gives the empty description; a single present element is the description by itself |
| Sound.PipelineStringSnoc | src/xpra/sound/sound_pipeline.py:93 | a None element adds nothing; a present one is the whole string or is linked on with " ! " |
| Sound.SoundPipeline.constructor | src/xpra/sound/sound_pipeline.py:45-59 | a new pipeline is "stopped", has no pipeline, bus or bitrate, and has no info callback pending |
| Sound.SoundPipeline.EmitInfo | src/xpra/sound/sound_pipeline.py:64-71 | the flag is set and exactly one callback is pending afterwards; nothing is scheduled while one is already due |
| Sound.SoundPipeline.DoEmitInfo | src/xpra/sound/sound_pipeline.py:68-70 | the flag is cleared, no callback is left pending, and one info signal goes out carrying exactly what `get_info` gives: the base values, the optional keys, and the fault counter moved as `inject_fault` says |
| Sound.SoundPipeline.StateName | src/xpra/sound/sound_pipeline.py:76 | the state's name, or "unknown" for None |
| Sound.SoundPipeline.BaseInfo | src/xpra/sound/sound_pipeline.py:74-81 | the seven keys always present, with `codec or ""`, the state name and the volume (0 without an element) |
| Sound.SoundPipeline.GetInfo | src/xpra/sound/sound_pipeline.py:73-89 | the base keys plus "codec_mode" iff it is set, "bitrate" iff it is positive, and a None-valued "INJECTING_NONE_FAULT" iff a fault is injected; the fault counter moves as `inject_fault` says |
| Sound.SoundPipeline.UpdateBitrate | src/xpra/sound/sound_pipeline.py:112-117 | an unchanged bitrate changes nothing; a new one is stored and leaves info emission due |
| Sound.SoundPipeline.SetupPipelineAndBus | src/xpra/sound/sound_pipeline.py:91-99 | the description is the present elements joined with " ! ", and pipeline, bus and message handler exist |
| Sound.SoundPipeline.Start | src/xpra/sound/sound_pipeline.py:130-136 | a new-stream signal goes out and the state becomes "active" in every case; without a pipeline the call raises before asking to play and before `emit_info` |
| Sound.SoundPipeline.Stop | src/xpra/sound/sound_pipeline.py:138-153 | the pipeline is always gone; only an existing one is set to NULL and reported "stopped", so a second call changes nothing |
| Sound.SoundPipeline.ReleaseBus | src/xpra/sound/sound_pipeline.py:163-174 | the message handler is disconnected and codec, bitrate, state and volume are reset |
| Sound.SoundPipeline.Cleanup | src/xpra/sound/sound_pipeline.py:155-174 | it always stops and drops the bus; codec, bitrate (-1), state (None) and volume are reset iff there was a bus, otherwise kept |
| Sound.SoundPipeline.OnEos | src/xpra/sound/sound_pipeline.py:179-183 | the pipeline is set to NULL, the state is "stopped" and a state-changed signal goes out |
| Sound.SoundPipeline.OnError | src/xpra/sound/sound_pipeline.py:184-198 | the pipeline is set to NULL, the logged lines are `ErrorLines` of the details, the state is "error" and an error signal goes out |
| Sound.SoundPipeline.OnStateChanged | src/xpra/sound/sound_pipeline.py:218-223 | the state follows `do_get_state` of the new state and a state-changed signal goes out |
| Sound.SoundPipeline.OnMessage | src/xpra/sound/sound_pipeline.py:176-245 | EOS and ERROR raise without a pipeline and change nothing, the info flag included; otherwise EOS gives "stopped" and a state-changed signal, ERROR gives "error" and an error signal, a pipeline state change gives `do_get_state` and a state-changed signal, every other message leaves state and signals alone and logs nothing, and info emission is due afterwards |
| Strings.Find | src/xpra/sound/sound_pipeline.py:190 | -1 iff the pattern occurs nowhere; otherwise an occurrence with none before it |
| Strings.Split | src/xpra/sound/sound_pipeline.py:193 | splitting gives at least one piece |
| Strings.JoinSplit | src/xpra/sound/sound_pipeline.py:193 | splitting and joining with the same separator gives the string back |
| Strings.SplitPiecesFree | src/xpra/sound/sound_pipeline.py:193 | no piece of a split contains the separator |
| Strings.JoinSnoc | src/xpra/sound/sound_pipeline.py:93 | joining one more part appends the separator and the part |

## Left out

- Threading. The `Event` close flag, the encode thread started in `__init__` and concurrent access to the queues are outside the model. Everything runs sequentially, and the closed flag is a boolean.
- The mixins. Their `__init__`, `parse_client_caps`, `get_caps`, `get_info` and `cleanup` calls are outside the model, and so are the capability merging in `send_hello` and `cancel_recalculate_timer` in `close`. The mmap mixin's negotiated `mmap_size` and the audio mixin's encoder latency are parameters instead.
- `get_info` of the session (wall-clock times and dictionary merges), all logging, `may_notify` (icon lookup) and the UTF-8 encoding of notification text.
- ICC profiles, connection data, the proxy version check and `max_packet_size` in `parse_hello`: they have no effect on the modelled state.
- The keyboard methods other than `get_keycode`. They delegate to a keyboard configuration object, which is only a lookup function here.
- Clocks. `monotonic_time()` and `time.time()` become the `now` parameter or are omitted. This includes `connection_time` and `start_time`.
- The `counter` session number.
- The main loop. `timeout_add`/`source_remove` become a timer table with increasing handles starting at 1, the way GLib source ids never are 0. `idle_add` becomes an ordered signal log.
- `typedict` (xpra/util.py) is not part of this model. Its getters are modelled only as far as `parse_hello` relies on them: an absent key or a value of the wrong type gives the default, `bool` is Python truthiness, and `int` accepts integers and booleans, not numeric text. `intget` without an explicit default defaults to 0.
- ServerSource.ClientConnection.UpdateBandwidthLimits: the window sources are a sequence of distinct objects with distinct ids, not a dictionary. `window_dimensions` and the damage statistics are plain fields.
- GStreamer. `parse_launch`, bus signal watches and `set_state` calls are outside the model. `set_state` requests are recorded in order, and a failing `parse_launch` is not modelled.
- `set_volume` and `get_volume` (floating point). The volume element is an optional integer percentage that the base class never sets.
- `parse_message0` and `parse_message1` read GStreamer tag structures. Sound.SoundPipeline.OnMessage therefore treats TAG and ELEMENT messages as changing nothing but the due info emission; the bitrate and codec updates those parsers make go through `update_bitrate` and plain field writes outside it.
- Sound.SoundPipeline.OnError: the `strip()` of each logged line is not modelled, and neither is the fallback when the details are not a string.
- `idle_emit` and `emit` both append to one signal log. Whether a signal is delivered at once or queued for the main loop is not distinguished.
