/**
 * The bookkeeping of xpra's `SoundPipeline`, the base of the sound source and sink: its
 * `state`, the debounced "info" signal, the fault-injection counter, the pipeline
 * description string and the error-details prettifier. GStreamer itself is outside the
 * model: the pipeline and its bus are presence flags, and the `set_state` requests sent to
 * the pipeline are recorded in order.
 */
module Sound {
  import opened Common
  import opened Arith
  import opened Strings

  // ---------------------------------------------------------------- fault injection

  /**
   * Whether the call of `inject_fault` that brings the global counter to `calls` reports a
   * fault: with a positive rate, exactly when `calls` is a multiple of it.
   */
  predicate Faults(rate: int, calls: int)
  {
    rate > 0 && calls % rate == 0
  }

  /**
   * `inject_fault` and its module-level `_counter`, shared by every pipeline of the process.
   * `rate` is `XPRA_SOUND_FAULT_INJECTION_RATE`, read once at import.
   */
  class FaultInjector {
    const rate: int
    var counter: nat

    constructor(rate: int)
      ensures this.rate == rate && counter == 0
    {
      this.rate := rate;
      counter := 0;
    }

    /** Without a positive rate nothing is counted and nothing is injected. */
    method InjectFault() returns (fault: bool)
      modifies this`counter
      ensures rate <= 0 ==> !fault && counter == old(counter)
      ensures rate > 0 ==> counter == old(counter) + 1
      ensures fault == Faults(rate, counter)
    {
      if rate <= 0 {
        return false;
      }
      counter := counter + 1;
      fault := counter % rate == 0;
    }
  }

  /** Counting from 0, every multiple of the rate is a faulting call, the first one included. */
  lemma FaultOnEveryRateThCall(rate: int, k: nat)
    requires rate > 0
    ensures Faults(rate, k * rate)
    ensures forall j :: 0 < j < rate ==> !Faults(rate, j)
  {
    DivModUnique(k, 0, rate);
    forall j | 0 < j < rate
      ensures !Faults(rate, j)
    {
      DivModUnique(0, j, rate);
    }
  }

  /** After a fault, the next `rate - 1` calls inject none and the `rate`-th one does. */
  lemma FaultsAreRateApart(rate: int, calls: nat)
    requires Faults(rate, calls)
    ensures forall c :: calls < c < calls + rate ==> !Faults(rate, c)
    ensures Faults(rate, calls + rate)
  {
    var q := calls / rate;
    assert calls == q * rate by {
      assert calls == rate * q + calls % rate;
    }
    forall c | calls < c < calls + rate
      ensures !Faults(rate, c)
    {
      DivModUnique(q, c - calls, rate);
    }
    DivModUnique(q + 1, 0, rate);
    assert (q + 1) * rate == q * rate + rate;
  }

  // ---------------------------------------------------------------- states

  /** GStreamer's element states. */
  datatype GstState = VoidPending | Null | Ready | Paused | Playing

  /** The values `state` takes; `Failed` is the "error" state. */
  datatype State = Active | Paused | Stopped | Ready | Unknown | Failed {

    /** The string the pipeline reports for this state. */
    function Name(): (s: string)
      ensures |s| > 0
    {
      match this
      case Active => "active"
      case Paused => "paused"
      case Stopped => "stopped"
      case Ready => "ready"
      case Unknown => "unknown"
      case Failed => "error"
    }
  }

  /** Two different states never report the same name. */
  lemma StateNamesDistinct(a: State, b: State)
    requires a != b
    ensures a.Name() != b.Name()
  {
  }

  /**
   * `do_get_state`: without a pipeline the state is "stopped"; otherwise the GStreamer
   * state is translated, and a state the table does not list is "unknown".
   */
  function DoGetState(hasPipeline: bool, s: GstState): (r: State)
    ensures !hasPipeline ==> r == Stopped
    ensures r != Failed
    ensures hasPipeline ==> (r == Unknown <==> s == VoidPending)
  {
    if !hasPipeline then Stopped
    else match s
      case Playing => Active
      case Paused => State.Paused
      case Null => Stopped
      case Ready => State.Ready
      case VoidPending => Unknown
  }

  /** With a pipeline the translation loses nothing: distinct listed states stay distinct. */
  lemma DoGetStateInjective(s1: GstState, s2: GstState)
    requires s1 != s2 && s1 != VoidPending && s2 != VoidPending
    ensures DoGetState(true, s1) != DoGetState(true, s2)
  {
  }

  // ---------------------------------------------------------------- error details

  /** The marker after which a Windows GStreamer error's details are worth showing. */
  const SOURCE_MARKER: string := "\\Source\\"

  /**
   * The prettifying step of the error branch of `on_message`: the details after the first
   * `\Source\`, but only when that marker occurs at an index above 0; otherwise unchanged.
   */
  function PrettifyDetails(details: string): (r: string)
    ensures Find(details, SOURCE_MARKER) > 0 ==>
      details == details[..Find(details, SOURCE_MARKER)] + SOURCE_MARKER + r
    ensures Find(details, SOURCE_MARKER) <= 0 ==> r == details
    ensures |r| <= |details|
  {
    var p := Find(details, SOURCE_MARKER);
    if p > 0 then
      assert details[p..p + |SOURCE_MARKER|] == SOURCE_MARKER;
      assert details == details[..p] + details[p..p + |SOURCE_MARKER|] + details[p + |SOURCE_MARKER|..];
      details[p + |SOURCE_MARKER|..]
    else details
  }

  /** The lines the error branch logs: the prettified details split at ": ". */
  function ErrorLines(details: string): (lines: seq<string>)
    ensures |lines| >= 1
  {
    Split(PrettifyDetails(details), ": ")
  }

  /** The logged lines, joined back with ": ", are the prettified details: nothing is lost. */
  lemma ErrorLinesRejoin(details: string)
    ensures Join(ErrorLines(details), ": ") == PrettifyDetails(details)
  {
    JoinSplit(PrettifyDetails(details), ": ");
  }

  /** No logged line still holds a ": ". */
  lemma ErrorLinesUnsplittable(details: string)
    ensures forall k :: 0 <= k < |ErrorLines(details)| ==> Find(ErrorLines(details)[k], ": ") == -1
  {
    SplitPiecesFree(PrettifyDetails(details), ": ");
  }

  /** A marker at the very start is not stripped: only an index above 0 counts. */
  lemma MarkerAtStartIsKept(rest: string)
    ensures PrettifyDetails(SOURCE_MARKER + rest) == SOURCE_MARKER + rest
  {
    var d := SOURCE_MARKER + rest;
    assert OccursAt(d, SOURCE_MARKER, 0) by {
      assert d[0..|SOURCE_MARKER|] == SOURCE_MARKER;
    }
  }

  /** A Windows path before the marker is dropped: "C:\Source\x: y" logs "x" and "y". */
  lemma WindowsPathIsDropped()
    ensures ErrorLines("C:\\Source\\x: y") == ["x", "y"]
  {
    WindowsPathPrettified();
    SplitTwoLines();
  }

  lemma WindowsPathPrettified()
    ensures PrettifyDetails("C:\\Source\\x: y") == "x: y"
  {
    var d := "C:\\Source\\x: y";
    assert OccursAt(d, SOURCE_MARKER, 2) by {
      assert d[2..10] == SOURCE_MARKER;
    }
    assert !OccursAt(d, SOURCE_MARKER, 0) by {
      assert d[0] != SOURCE_MARKER[0];
    }
    assert !OccursAt(d, SOURCE_MARKER, 1) by {
      assert d[1] != SOURCE_MARKER[0];
    }
    assert Find(d, SOURCE_MARKER) == 2;
    assert d[10..] == "x: y";
  }

  lemma SplitTwoLines()
    ensures Split("x: y", ": ") == ["x", "y"]
  {
    var p := "x: y";
    assert !OccursAt(p, ": ", 0) by {
      assert p[0] != ':';
    }
    assert OccursAt(p, ": ", 1) by {
      assert p[1..3] == ": ";
    }
    assert Find(p, ": ") == 1;
    var rest := p[3..];
    assert rest == "y";
    assert !OccursAt(rest, ": ", 0) && !OccursAt(rest, ": ", 1);
    assert Find(rest, ": ") == -1;
    assert p[..1] == "x";
  }

  // ---------------------------------------------------------------- pipeline string

  /** The elements a pipeline is built from, in order, with the absent (None) ones dropped. */
  function Present(elements: seq<Option<string>>): (r: seq<string>)
    ensures |r| <= |elements|
    ensures forall x :: x in r ==> Some(x) in elements
  {
    if elements == [] then []
    else if elements[0].Some? then [elements[0].value] + Present(elements[1..])
    else Present(elements[1..])
  }

  /** Dropping absent elements works piecewise: order is kept across a concatenation. */
  lemma {:induction false} PresentAppend(a: seq<Option<string>>, b: seq<Option<string>>)
    ensures Present(a + b) == Present(a) + Present(b)
  {
    if a == [] {
      assert a + b == b;
    } else {
      assert (a + b)[1..] == a[1..] + b;
      PresentAppend(a[1..], b);
    }
  }

  /** The separator `setup_pipeline_and_bus` puts between elements. */
  const ELEMENT_SEPARATOR: string := " ! "

  /** The pipeline description handed to `parse_launch`. */
  function PipelineString(elements: seq<Option<string>>): (r: string)
    ensures Present(elements) == [] ==> r == ""
    ensures |Present(elements)| == 1 ==> r == Present(elements)[0]
  {
    Join(Present(elements), ELEMENT_SEPARATOR)
  }

  /** One more element: an absent one changes nothing, a present one is linked on with " ! ". */
  lemma PipelineStringSnoc(elements: seq<Option<string>>, last: Option<string>)
    ensures last.None? ==> PipelineString(elements + [last]) == PipelineString(elements)
    ensures last.Some? && Present(elements) == [] ==> PipelineString(elements + [last]) == last.value
    ensures last.Some? && Present(elements) != [] ==>
      PipelineString(elements + [last]) == PipelineString(elements) + ELEMENT_SEPARATOR + last.value
  {
    PresentAppend(elements, [last]);
    assert Present([last]) == (if last.Some? then [last.value] else []) by {
      assert [last][1..] == [];
    }
    if last.None? {
      assert Present(elements) + [] == Present(elements);
    } else if Present(elements) != [] {
      JoinSnoc(Present(elements), last.value, ELEMENT_SEPARATOR);
    }
  }

  // ---------------------------------------------------------------- the pipeline

  /** Bus messages, by kind; only the fields the bookkeeping reads are kept. */
  datatype Message =
    | Eos
    | Error(err: string, details: string)
    | Tag
    | Element
    | StreamStatus
    | StreamStart
    | AsyncDone
    | NewClock
    | StateChanged(fromPipeline: bool, newState: GstState)
    | Duration
    | Latency
    | Info
    | Warning
    | Other

  /** The values of the `get_info` dictionary. */
  datatype InfoValue = Text(s: string) | Number(n: int) | NoneValue

  /** The signals the pipeline emits, in the order they are emitted or queued for the main loop. */
  datatype Signal =
    | NewStream(codec: Option<string>)
    | StateChangedSignal(state: Option<State>)
    | ErrorSignal(err: string)
    | InfoSignal(info: map<string, InfoValue>)

  /** The keys `get_info` always fills in. */
  const BASE_INFO_KEYS: set<string> := {"codec", "codec_description", "state", "buffers", "bytes", "pipeline", "volume"}

  class SoundPipeline {
    var codec: Option<string>
    var codecDescription: string
    var codecMode: string
    var hasBus: bool
    var busHandlerConnected: bool
    var bitrate: int
    var hasPipeline: bool
    var pipelineStr: string
    var state: Option<State>
    var bufferCount: int
    var byteCount: int
    /** The volume element's setting in percent, when a subclass has one. */
    var volume: Option<int>
    var emitInfoDue: bool
    /** The `do_emit_info` callbacks the main loop has pending. */
    var infoCallbacks: nat
    /** The `set_state` requests sent to the pipeline, oldest first. */
    var requested: seq<GstState>
    var signals: seq<Signal>

    /** The debounce of `emit_info`: at most one callback pending, and exactly while the flag is up. */
    ghost predicate Valid()
      reads this`emitInfoDue, this`infoCallbacks
    {
      infoCallbacks == if emitInfoDue then 1 else 0
    }

    /** `__init__`: stopped, no pipeline, no bus, no bitrate yet. */
    constructor(codec: string)
      ensures Valid() && !emitInfoDue
      ensures this.codec == Some(codec) && codecDescription == codec && codecMode == ""
      ensures !hasBus && !busHandlerConnected && !hasPipeline && pipelineStr == ""
      ensures bitrate == -1 && state == Some(Stopped) && bufferCount == 0 && byteCount == 0
      ensures volume.None? && requested == [] && signals == []
    {
      this.codec := Some(codec);
      codecDescription := codec;
      codecMode := "";
      hasBus := false;
      busHandlerConnected := false;
      bitrate := -1;
      hasPipeline := false;
      pipelineStr := "";
      state := Some(Stopped);
      bufferCount := 0;
      byteCount := 0;
      volume := None;
      emitInfoDue := false;
      infoCallbacks := 0;
      requested := [];
      signals := [];
    }

    /** `emit_info`: schedule one `do_emit_info`, unless one is already due. */
    method EmitInfo()
      requires Valid()
      modifies this`emitInfoDue, this`infoCallbacks
      ensures Valid() && emitInfoDue
      ensures old(emitInfoDue) ==> infoCallbacks == old(infoCallbacks)
    {
      if emitInfoDue {
        return;
      }
      emitInfoDue := true;
      infoCallbacks := infoCallbacks + 1;
    }

    /** `get_state() or "unknown"`. */
    function StateName(): (s: string)
      reads this`state
      ensures state.None? ==> s == "unknown"
      ensures state.Some? ==> s == state.value.Name()
    {
      match state
      case Some(st) => st.Name()
      case None => "unknown"
    }

    /** The keys `get_info` fills in whatever happens, with their values. */
    function BaseInfo(): (info: map<string, InfoValue>)
      reads this`codec, this`codecDescription, this`state, this`bufferCount, this`byteCount
      reads this`pipelineStr, this`volume
      ensures info.Keys == BASE_INFO_KEYS
      ensures info["codec"] == Text(codec.GetOr("")) && info["state"] == Text(StateName())
      ensures info["volume"] == Number(volume.GetOr(0)) && info["pipeline"] == Text(pipelineStr)
    {
      map["codec" := Text(codec.GetOr("")), "codec_description" := Text(codecDescription),
          "state" := Text(StateName()), "buffers" := Number(bufferCount), "bytes" := Number(byteCount),
          "pipeline" := Text(pipelineStr), "volume" := Number(volume.GetOr(0))]
    }

    /**
     * `get_info`: the base keys, "codec_mode" only when set, "bitrate" only when positive,
     * and a None-valued "INJECTING_NONE_FAULT" when a fault is injected.
     */
    method GetInfo(injector: FaultInjector) returns (info: map<string, InfoValue>)
      modifies injector`counter
      ensures info.Keys == BASE_INFO_KEYS
                         + (if codecMode != "" then {"codec_mode"} else {})
                         + (if bitrate > 0 then {"bitrate"} else {})
                         + (if Faults(injector.rate, injector.counter) then {"INJECTING_NONE_FAULT"} else {})
      ensures forall k :: k in BASE_INFO_KEYS ==> info[k] == BaseInfo()[k]
      ensures codecMode != "" ==> info["codec_mode"] == Text(codecMode)
      ensures bitrate > 0 ==> info["bitrate"] == Number(bitrate)
      ensures "INJECTING_NONE_FAULT" in info ==> info["INJECTING_NONE_FAULT"] == NoneValue
      ensures injector.rate > 0 ==> injector.counter == old(injector.counter) + 1
      ensures injector.rate <= 0 ==> injector.counter == old(injector.counter)
    {
      info := BaseInfo();
      if codecMode != "" {
        info := info["codec_mode" := Text(codecMode)];
      }
      if bitrate > 0 {
        info := info["bitrate" := Number(bitrate)];
      }
      var fault := injector.InjectFault();
      if fault {
        info := info["INJECTING_NONE_FAULT" := NoneValue];
      }
    }

    /** The scheduled `do_emit_info` runs: the flag drops and the info signal goes out. */
    method DoEmitInfo(injector: FaultInjector) returns (info: map<string, InfoValue>)
      requires Valid() && infoCallbacks > 0
      modifies this`emitInfoDue, this`infoCallbacks, this`signals, injector`counter
      ensures Valid() && !emitInfoDue
      ensures info.Keys == BASE_INFO_KEYS
                         + (if codecMode != "" then {"codec_mode"} else {})
                         + (if bitrate > 0 then {"bitrate"} else {})
                         + (if Faults(injector.rate, injector.counter) then {"INJECTING_NONE_FAULT"} else {})
      ensures forall k :: k in BASE_INFO_KEYS ==> info[k] == BaseInfo()[k]
      ensures codecMode != "" ==> info["codec_mode"] == Text(codecMode)
      ensures bitrate > 0 ==> info["bitrate"] == Number(bitrate)
      ensures "INJECTING_NONE_FAULT" in info ==> info["INJECTING_NONE_FAULT"] == NoneValue
      ensures injector.rate > 0 ==> injector.counter == old(injector.counter) + 1
      ensures injector.rate <= 0 ==> injector.counter == old(injector.counter)
      ensures signals == old(signals) + [InfoSignal(info)]
    {
      emitInfoDue := false;
      infoCallbacks := infoCallbacks - 1;
      info := GetInfo(injector);
      signals := signals + [InfoSignal(info)];
    }

    /** `update_bitrate`: an unchanged value does nothing; a new one is stored and announced. */
    method UpdateBitrate(newBitrate: int)
      requires Valid()
      modifies this`bitrate, this`emitInfoDue, this`infoCallbacks
      ensures Valid() && bitrate == newBitrate
      ensures newBitrate == old(bitrate) ==> emitInfoDue == old(emitInfoDue) && infoCallbacks == old(infoCallbacks)
      ensures newBitrate != old(bitrate) ==> emitInfoDue
    {
      if newBitrate == bitrate {
        return;
      }
      bitrate := newBitrate;
      EmitInfo();
    }

    /** `setup_pipeline_and_bus`: build the description string, then the pipeline and its bus. */
    method SetupPipelineAndBus(elements: seq<Option<string>>)
      modifies this`pipelineStr, this`hasPipeline, this`hasBus, this`busHandlerConnected
      ensures pipelineStr == PipelineString(elements)
      ensures hasPipeline && hasBus && busHandlerConnected
    {
      pipelineStr := Join(Present(elements), ELEMENT_SEPARATOR);
      hasPipeline := true;
      hasBus := true;
      busHandlerConnected := true;
    }

    /**
     * `start`: announce the new stream and go "active", then ask the pipeline to play.
     * Without a pipeline the call raises after the state change and before `emit_info`.
     */
    method Start() returns (raised: bool)
      requires Valid()
      modifies this`signals, this`state, this`requested, this`emitInfoDue, this`infoCallbacks
      ensures Valid() && state == Some(Active)
      ensures raised <==> !hasPipeline
      ensures signals == old(signals) + [NewStream(codec)]
      ensures raised ==> requested == old(requested) && emitInfoDue == old(emitInfoDue) && infoCallbacks == old(infoCallbacks)
      ensures !raised ==> requested == old(requested) + [Playing] && emitInfoDue
    {
      signals := signals + [NewStream(codec)];
      state := Some(Active);
      if !hasPipeline {
        return true;
      }
      requested := requested + [Playing];
      EmitInfo();
      return false;
    }

    /** `stop`: always drops the pipeline; only an existing one is stopped and reported "stopped". */
    method Stop()
      modifies this`hasPipeline, this`state, this`requested
      ensures !hasPipeline
      ensures old(hasPipeline) ==> state == Some(Stopped) && requested == old(requested) + [Null]
      ensures !old(hasPipeline) ==> state == old(state) && requested == old(requested)
    {
      var p := hasPipeline;
      hasPipeline := false;
      if !p {
        return;
      }
      state := Some(Stopped);
      requested := requested + [Null];
    }

    /** The tail of `cleanup` once a bus was found: detach it and forget codec, bitrate, state and volume. */
    method ReleaseBus()
      modifies this`busHandlerConnected, this`codec, this`bitrate, this`state, this`volume
      ensures !busHandlerConnected && codec.None? && bitrate == -1 && state.None? && volume.None?
    {
      busHandlerConnected := false;
      codec := None;
      bitrate := -1;
      state := None;
      volume := None;
    }

    /**
     * `cleanup`: stop, then drop the bus. Codec, bitrate, state and volume are reset only
     * when there was a bus; without one the call returns after stopping.
     */
    method Cleanup()
      modifies this`hasPipeline, this`state, this`requested, this`hasBus
      modifies this`busHandlerConnected, this`codec, this`bitrate, this`volume
      ensures !hasPipeline && !hasBus
      ensures old(hasPipeline) ==> requested == old(requested) + [Null]
      ensures !old(hasPipeline) ==> requested == old(requested)
      ensures old(hasBus) ==> !busHandlerConnected && codec.None? && bitrate == -1 && state.None? && volume.None?
      ensures !old(hasBus) ==> busHandlerConnected == old(busHandlerConnected) && codec == old(codec)
                               && bitrate == old(bitrate) && volume == old(volume)
      ensures !old(hasBus) ==> state == (if old(hasPipeline) then Some(Stopped) else old(state))
    {
      Stop();
      var b := hasBus;
      hasBus := false;
      if !b {
        return;
      }
      ReleaseBus();
    }

    /** End of stream: the pipeline is set to NULL and the pipeline reports "stopped". */
    method OnEos()
      requires hasPipeline
      modifies this`requested, this`state, this`signals
      ensures requested == old(requested) + [Null] && state == Some(Stopped)
      ensures signals == old(signals) + [StateChangedSignal(Some(Stopped))]
    {
      requested := requested + [Null];
      state := Some(Stopped);
      signals := signals + [StateChangedSignal(state)];
    }

    /** A pipeline error: the pipeline is set to NULL, the details are logged, the state is "error". */
    method OnError(err: string, details: string) returns (logged: seq<string>)
      requires hasPipeline
      modifies this`requested, this`state, this`signals
      ensures requested == old(requested) + [Null] && state == Some(Failed)
      ensures logged == ErrorLines(details)
      ensures signals == old(signals) + [ErrorSignal(err)]
    {
      requested := requested + [Null];
      logged := Split(PrettifyDetails(details), ": ");
      state := Some(Failed);
      signals := signals + [ErrorSignal(err)];
    }

    /** A state change of the pipeline itself: the state follows it through `do_get_state`. */
    method OnStateChanged(newState: GstState)
      modifies this`state, this`signals
      ensures state == Some(DoGetState(hasPipeline, newState))
      ensures signals == old(signals) + [StateChangedSignal(state)]
    {
      state := Some(DoGetState(hasPipeline, newState));
      signals := signals + [StateChangedSignal(state)];
    }

    /**
     * `on_message`. End of stream and errors set the pipeline to NULL, so without a pipeline
     * they raise before changing anything; every other message ends in `emit_info`. Only
     * those two and a state change of the pipeline itself move `state`; `logged` holds the
     * lines an error logs.
     */
    method OnMessage(msg: Message) returns (raised: bool, logged: seq<string>)
      requires Valid()
      modifies this`requested, this`state, this`signals, this`emitInfoDue, this`infoCallbacks
      ensures Valid()
      ensures raised <==> (msg.Eos? || msg.Error?) && !hasPipeline
      ensures raised ==> state == old(state) && requested == old(requested) && signals == old(signals)
      ensures raised ==> emitInfoDue == old(emitInfoDue) && infoCallbacks == old(infoCallbacks)
      ensures !raised ==> emitInfoDue
      ensures !raised && msg.Eos? ==> state == Some(Stopped) && requested == old(requested) + [Null]
      ensures !raised && msg.Eos? ==> signals == old(signals) + [StateChangedSignal(Some(Stopped))]
      ensures !raised && msg.Error? ==> state == Some(Failed) && requested == old(requested) + [Null]
      ensures !raised && msg.Error? ==> signals == old(signals) + [ErrorSignal(msg.err)]
      ensures msg.Error? ==> logged == (if raised then [] else ErrorLines(msg.details))
      ensures !msg.Error? ==> logged == []
      ensures msg.StateChanged? && msg.fromPipeline ==> state == Some(DoGetState(hasPipeline, msg.newState))
      ensures msg.StateChanged? && msg.fromPipeline ==> signals == old(signals) + [StateChangedSignal(state)]
      ensures !msg.Eos? && !msg.Error? && !(msg.StateChanged? && msg.fromPipeline) ==>
        state == old(state) && signals == old(signals)
      ensures !msg.Eos? && !msg.Error? ==> requested == old(requested)
    {
      raised, logged := false, [];
      if (msg.Eos? || msg.Error?) && !hasPipeline {
        return true, [];
      }
      match msg {
        case Eos => OnEos();
        case Error(err, details) => logged := OnError(err, details);
        case StateChanged(fromPipeline, newState) =>
          if fromPipeline {
            OnStateChanged(newState);
          }
        case _ =>
      }
      EmitInfo();
    }
  }
}
