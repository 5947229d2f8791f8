/** The values the message batcher works on: frames, their wire size, the markers that
    replace undeliverable frames, and the classification of a failed post. */
module BatcherTypes {
  import opened Options
  import Decimal

  const MAX_BATCH_BYTES: nat := 512 * 1024
  const MAX_MESSAGE_BYTES: nat := 900 * 1024
  const FRAMING_BYTES: nat := 32
  const MAX_BISECT_POSTS: nat := 24
  const REARM_TOMBSTONE_CHUNK: nat := 500
  const MAX_SEQ: nat := 0x7fffffff
  const CLOSE_MAX_FAILED_ATTEMPTS: nat := 3

  /** Who produced a frame; a marker keeps all three parts so it stays in the same lane. */
  datatype Attribution = Attribution(agent: Option<string>, lane: Option<string>, title: Option<string>)

  datatype MarkerEvent = MessageDropped | MessageTruncated

  datatype Reason = PayloadRejected | CannotAcceptThisLarge | RejectedTooLarge

  /** Text is held as its JSON-escaped bytes, so its length is what it costs on the wire.
      `Frame` is what an executor emits. `Marker` replaces one frame and remembers its kind and
      size. `RangeMarker` stands for a seq the spill buffer cap dropped. */
  datatype Body =
    | Frame(kind: string, payload: string)
    | Marker(event: MarkerEvent, reason: Reason, original: string, originalBytes: nat)
    | RangeMarker

  datatype Msg = Msg(seqNo: nat, body: Body, who: Attribution)

  /** A buffered message: its measured wire size rides along. */
  datatype Item = Item(msg: Msg, bytes: nat, tombstoned: bool)

  const NOBODY := Attribution(None, None, None)

  function KindOf(b: Body): string {
    if b.Frame? then b.kind else "status"
  }

  predicate IsMarker(m: Msg) {
    !m.body.Frame?
  }

  /** Length of the fixed sentence for each reason. */
  function ReasonBytes(r: Reason): nat {
    match r
    case PayloadRejected => 27
    case CannotAcceptThisLarge => 42
    case RejectedTooLarge => 41
  }

  /** Bytes of the serialized payload member: a marker names its reason, the original kind and
      the original size twice, once in the sentence and once as a field. */
  function PayloadBytes(m: Msg): nat {
    match m.body
    case Frame(_, payload) => |payload|
    case Marker(event, reason, kind, bytes) =>
      (if event == MessageDropped then 101 else 116) + 2 * ReasonBytes(reason) + 2 * |kind| + 2 * Decimal.Digits(bytes)
    case RangeMarker => 107 + Decimal.Digits(m.seqNo)
  }

  function OptionalBytes(overhead: nat, v: Option<string>): nat {
    if v.None? then 0 else overhead + |v.value|
  }

  /** The serialized message: `{"seq":,"kind":"","payload":}` and its parts. */
  function MessageBytes(m: Msg): (n: nat)
    ensures n >= 1
  {
    29 + Decimal.Digits(m.seqNo) + |KindOf(m.body)| + PayloadBytes(m)
    + OptionalBytes(11, m.who.agent) + OptionalBytes(20, m.who.lane) + OptionalBytes(17, m.who.title)
  }

  /** Replace an item's payload under its own seq; a marker is returned unchanged. */
  function Tombstone(item: Item, event: MarkerEvent, reason: Reason): (r: Item)
    ensures r.tombstoned && r.msg.seqNo == item.msg.seqNo && r.msg.who == item.msg.who
    ensures item.tombstoned ==> r == item
    ensures !item.tombstoned ==> IsMarker(r.msg) && r.bytes == MessageBytes(r.msg)
  {
    if item.tombstoned then item
    else
      var m := Msg(item.msg.seqNo, Marker(event, reason, KindOf(item.msg.body), item.bytes), item.msg.who);
      Item(m, MessageBytes(m), true)
  }

  function RangeItem(seqNo: nat): Item {
    var m := Msg(seqNo, RangeMarker, NOBODY);
    Item(m, MessageBytes(m), true)
  }

  function Msgs(items: seq<Item>): (r: seq<Msg>)
    ensures |r| == |items|
    ensures forall i :: 0 <= i < |items| ==> r[i] == items[i].msg
  {
    seq(|items|, i requires 0 <= i < |items| => items[i].msg)
  }

  /** What the post settled with. `Rejected` is an HTTP error answer, `NoReply` every other failure. */
  datatype Reply = Accepted | Rejected(status: int, staleClaim: bool) | NoReply

  datatype Verdict = Transient | Oversize | Permanent | Fatal

  /** What a failed post asks for: retry later, split, mark as poison, or stop. */
  function Classify(r: Reply): (v: Verdict)
    requires !r.Accepted?
    ensures v == Transient <==> r.NoReply? || r.status >= 500 || r.status == 408 || r.status == 429
    ensures v == Oversize <==> r.Rejected? && r.status == 413
    ensures v == Fatal <==> r.Rejected? && (r.status in {401, 403, 404} || (r.status == 409 && r.staleClaim))
  {
    match r
    case NoReply => Transient
    case Rejected(status, stale) =>
      if status == 413 then Oversize
      else if status == 401 || status == 403 || status == 404 then Fatal
      else if status == 409 && stale then Fatal
      else if status >= 500 || status == 408 || status == 429 then Transient
      else Permanent
  }
}
