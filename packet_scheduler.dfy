/**
 * The two-tier outbound queue of a client session: `ordinary_packets` (control
 * messages, queued by `send`) always go out before the entries of `packet_queue`
 * (encoded window data, queued by the encoder thread).
 */
module PacketScheduler {
  import opened Common

  /** A Python callable handed to the transport (fail, start-send, end-send callbacks); opaque here. */
  type Callback = nat

  /** One argument of a packet. `Blob` stands for a value this model does not look into (an icon, a dict). */
  datatype Arg = IntArg(i: int) | StrArg(s: string) | BoolArg(b: bool) | StrListArg(items: seq<string>) | Blob(id: nat)

  /** The `parts` of a packet: its type name followed by its arguments. */
  datatype Packet = Packet(name: string, args: seq<Arg>)

  /** An entry of `ordinary_packets`: `(parts, synchronous, fail_cb, will_have_more)`. */
  datatype OrdinaryEntry = OrdinaryEntry(packet: Packet, synchronous: bool, failCb: Option<Callback>, willHaveMore: bool)

  /**
   * An entry of `packet_queue`: `(packet, wid, pixels, start_send_cb, end_send_cb, fail_cb, will_have_more)`.
   * The encoder may queue a `None` packet.
   */
  datatype BulkEntry = BulkEntry(packet: Option<Packet>, wid: int, pixels: int,
                                 startSendCb: Option<Callback>, endSendCb: Option<Callback>,
                                 failCb: Option<Callback>, willHaveMore: bool)

  /** What `next_packet` hands to the transport. */
  datatype Pulled = Pulled(packet: Option<Packet>, startSendCb: Option<Callback>, endSendCb: Option<Callback>,
                           failCb: Option<Callback>, synchronous: bool, haveMore: bool, willHaveMore: bool)

  /** The tuple returned when the session is closed or nothing is queued. */
  const NothingToSend := Pulled(None, None, None, None, true, false, false)

  datatype Queues = Queues(ordinary: seq<OrdinaryEntry>, bulk: seq<BulkEntry>) {
    predicate IsEmpty() { ordinary == [] && bulk == [] }
  }

  /** The keyword arguments `send` understands; an absent one takes its default. */
  datatype SendOptions = SendOptions(synchronous: Option<bool>, willHaveMore: Option<bool>, failCb: Option<Callback>)

  const NoOptions := SendOptions(None, None, None)

  /** The entry `send(*parts, **kwargs)` appends: `synchronous` defaults to True, `will_have_more` to `not synchronous`. */
  function EntryFor(packet: Packet, opts: SendOptions): (e: OrdinaryEntry)
    ensures e.packet == packet && e.failCb == opts.failCb
    ensures e.synchronous <==> opts.synchronous != Some(false)
    ensures opts.willHaveMore.None? ==> e.willHaveMore == !e.synchronous
    ensures opts.willHaveMore.Some? ==> e.willHaveMore == opts.willHaveMore.value
  {
    var synchronous := opts.synchronous.GetOr(true);
    OrdinaryEntry(packet, synchronous, opts.failCb, opts.willHaveMore.GetOr(!synchronous))
  }

  /** The options `send_async` passes on: `synchronous` is forced to False. */
  function AsyncOptions(opts: SendOptions): SendOptions { opts.(synchronous := Some(false)) }

  /** The options `send_more` passes on: `will_have_more` is forced to True. */
  function MoreOptions(opts: SendOptions): SendOptions { opts.(willHaveMore := Some(true)) }

  /** `send_async` queues an asynchronous entry which, unless told otherwise, announces more to come. */
  lemma AsyncEntry(packet: Packet, opts: SendOptions)
    ensures !EntryFor(packet, AsyncOptions(opts)).synchronous
    ensures EntryFor(packet, AsyncOptions(opts)).willHaveMore == opts.willHaveMore.GetOr(true)
  {
  }

  /** `send_more` always announces more to come, and keeps the caller's `synchronous` choice. */
  lemma MoreEntry(packet: Packet, opts: SendOptions)
    ensures EntryFor(packet, MoreOptions(opts)).willHaveMore
    ensures EntryFor(packet, MoreOptions(opts)).synchronous == opts.synchronous.GetOr(true)
  {
  }

  /**
   * `next_packet`: the pulled tuple and the queues left behind. An ordinary entry is
   * taken whenever one is queued; a bulk entry only when none is; nothing on a closed session.
   */
  function Pull(closed: bool, q: Queues): (r: (Pulled, Queues))
    ensures closed || q.IsEmpty() ==> r == (NothingToSend, q)
    ensures !closed && q.ordinary != [] ==>
      && r.1 == Queues(q.ordinary[1..], q.bulk)
      && r.0.packet == Some(q.ordinary[0].packet)
      && r.0.synchronous == q.ordinary[0].synchronous
      && r.0.failCb == q.ordinary[0].failCb
      && r.0.willHaveMore == q.ordinary[0].willHaveMore
      && r.0.startSendCb.None? && r.0.endSendCb.None?
    ensures !closed && q.ordinary == [] && q.bulk != [] ==>
      && r.1 == Queues([], q.bulk[1..])
      && r.0.packet == q.bulk[0].packet
      && r.0.startSendCb == q.bulk[0].startSendCb
      && r.0.endSendCb == q.bulk[0].endSendCb
      && r.0.failCb == q.bulk[0].failCb
      && r.0.willHaveMore == q.bulk[0].willHaveMore
      && r.0.synchronous
    ensures r.0.haveMore <==> r.0.packet.Some? && !r.1.IsEmpty()
  {
    if closed || q.IsEmpty() then (NothingToSend, q)
    else
      var (pulled, rest) :=
        if q.ordinary != [] then
          var e := q.ordinary[0];
          (Pulled(Some(e.packet), None, None, e.failCb, e.synchronous, false, e.willHaveMore), Queues(q.ordinary[1..], q.bulk))
        else
          var b := q.bulk[0];
          (Pulled(b.packet, b.startSendCb, b.endSendCb, b.failCb, true, false, b.willHaveMore), Queues([], q.bulk[1..]));
      (pulled.(haveMore := pulled.packet.Some? && !rest.IsEmpty()), rest)
  }

  /** Everything queued, in the order an open session hands it out. */
  function Backlog(q: Queues): (s: seq<Option<Packet>>)
    ensures |s| == |q.ordinary| + |q.bulk|
  {
    OrdinaryPackets(q.ordinary) + BulkPackets(q.bulk)
  }

  function OrdinaryPackets(entries: seq<OrdinaryEntry>): (s: seq<Option<Packet>>)
    ensures |s| == |entries|
    ensures forall k :: 0 <= k < |entries| ==> s[k] == Some(entries[k].packet)
  {
    seq(|entries|, k requires 0 <= k < |entries| => Some(entries[k].packet))
  }

  function BulkPackets(entries: seq<BulkEntry>): (s: seq<Option<Packet>>)
    ensures |s| == |entries|
    ensures forall k :: 0 <= k < |entries| ==> s[k] == entries[k].packet
  {
    seq(|entries|, k requires 0 <= k < |entries| => entries[k].packet)
  }

  /** The packets handed out by `n` successive pulls on an open session with no new arrivals. */
  function PullMany(q: Queues, n: nat): seq<Option<Packet>>
    decreases n
  {
    if n == 0 then []
    else
      var (p, rest) := Pull(false, q);
      [p.packet] + PullMany(rest, n - 1)
  }

  /** Pulling removes exactly the head of the backlog. */
  lemma PullAdvancesBacklog(q: Queues)
    requires !q.IsEmpty()
    ensures Backlog(Pull(false, q).1) == Backlog(q)[1..]
    ensures Pull(false, q).0.packet == Backlog(q)[0]
  {
    var rest := Pull(false, q).1;
    if q.ordinary != [] {
      assert Backlog(rest) == Backlog(q)[1..];
    } else {
      assert Backlog(rest) == Backlog(q)[1..];
    }
  }

  /**
   * Draining an open session delivers every ordinary packet, oldest first, and
   * then every bulk packet, oldest first: each queue is FIFO and ordinary goes first.
   */
  lemma {:induction false} DrainOrder(q: Queues, n: nat)
    requires n <= |q.ordinary| + |q.bulk|
    ensures PullMany(q, n) == Backlog(q)[..n]
    decreases n
  {
    if n > 0 {
      var rest := Pull(false, q).1;
      PullAdvancesBacklog(q);
      DrainOrder(rest, n - 1);
      assert Backlog(q)[..n] == [Backlog(q)[0]] + Backlog(q)[1..][..n - 1];
    }
  }

  /** Once the backlog is drained, a pull hands out nothing and says there is nothing more. */
  lemma DrainedPullsNothing(q: Queues)
    requires q.IsEmpty()
    ensures Pull(false, q) == (NothingToSend, q)
  {
  }
}
