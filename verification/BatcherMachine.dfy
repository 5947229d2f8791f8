/** The message batcher as a state machine. One step is the code between two awaits: the flush
    coroutine's suspended position is the `task` field, and an event either calls a public
    operation or settles the request the coroutine (or a reservation's preparation) waits for. */
module BatcherMachine {
  import opened Options
  import opened BatcherTypes

  datatype Store = NoStore | DisabledStore | UsableStore

  /** Fixed at construction. */
  datatype Config = Config(spillBufferBytes: nat, tripMs: nat, outbox: Store, generation: nat)

  datatype Range = Range(first: nat, last: nat)

  /** Where the flush coroutine is suspended. `AwaitProbe` has the post of
      `batch[lo..Mid(lo, hi)]` outstanding, and `posts` counts it. */
  datatype Task =
    | Idle
    | AwaitPost(batch: seq<Item>)
    | AwaitProbe(batch: seq<Item>, lo: nat, hi: nat, posts: nat, progressed: bool)
    | AwaitMarker(batch: seq<Item>, lo: nat, marker: Item, progressed: bool)
    | AwaitSpillMark
    | AwaitFlushMark
    | AwaitRange(range: Range)
    | AwaitSegment(batch: seq<Item>)
    | AwaitClear

  datatype TripReason = ApiRejected | MarkerRejected(seqNo: nat) | BisectBudget | Unreachable | NoOutbox

  datatype ReservationState = Held | Prepared | Failed

  datatype Preparation = NotPreparing | Posting(batch: seq<Item>) | Confirming

  datatype HeldEvent = HeldEvent(body: Body, who: Attribution, bytes: nat)

  datatype Reservation = Reservation(
    tail: nat, state: ReservationState, aborted: bool, held: seq<HeldEvent>, bytes: nat,
    submitted: bool, ownedAttemptFailed: bool, replay: Option<seq<Item>>, prep: Preparation)

  /** The numbered messages: the seq counter, the buffer, the 413 split limit and the dropped range. */
  datatype Mail = Mail(seqNo: nat, buffer: seq<Item>, split: Option<nat>, range: Option<Range>)

  /** The delivery mode: the failure streak, the breaker, spill mode, and the close and abort latches. */
  datatype Health = Health(failures: nat, failingSince: Option<int>, trip: Option<TripReason>,
                           spilled: bool, closed: bool, aborted: bool)

  datatype State = State(mail: Mail, health: Health, reservation: Option<Reservation>, task: Task)

  function Init(lastSeq: nat): State {
    State(Mail(lastSeq, [], None, None), Health(0, None, None, false, false, false), None, Idle)
  }

  predicate HasWork(m: Mail) {
    |m.buffer| > 0 || m.range.Some?
  }

  function Mid(lo: nat, hi: nat): (m: nat)
    requires lo <= hi
    ensures lo <= m <= hi
    ensures hi - lo >= 2 ==> lo < m < hi
  {
    lo + (hi - lo) / 2
  }

  // ----- byte-capped prefixes

  /** What a batch costs on the wire: framing, and each message with its separating comma. */
  function WireSize(items: seq<Item>): nat {
    if items == [] then FRAMING_BYTES
    else WireSize(items[..|items| - 1]) + items[|items| - 1].bytes + 1
  }

  /** How many head items the next post takes, given that the first `n` already fit: the longest
      prefix within the count limit and the batch cap, and never none. */
  function TakeCount(items: seq<Item>, limit: nat, n: nat): (r: nat)
    requires n <= |items|
    ensures n <= r <= |items|
    ensures r > n ==> r <= limit
    ensures n == 0 && |items| > 0 && limit > 0 ==> r > 0
    ensures r > n && r >= 2 ==> WireSize(items[..r]) <= MAX_BATCH_BYTES
    ensures r < |items| && r < limit ==> r > 0 && WireSize(items[..r + 1]) > MAX_BATCH_BYTES
    decreases |items| - n
  {
    if n == |items| || n >= limit then n
    else if n > 0 && WireSize(items[..n + 1]) > MAX_BATCH_BYTES then n
    else TakeCount(items, limit, n + 1)
  }

  function PrefixCount(m: Mail): (n: nat)
    ensures n <= |m.buffer|
  {
    TakeCount(m.buffer, if m.split.Some? then m.split.value else |m.buffer|, 0)
  }

  /** The seqs `first, first + 1, ...` as range markers. */
  function RangeItems(first: nat, count: nat): (r: seq<Item>)
    ensures |r| == count
    ensures forall i :: 0 <= i < count ==> r[i] == RangeItem(first + i)
  {
    if count == 0 then [] else RangeItems(first, count - 1) + [RangeItem(first + count - 1)]
  }

  function ChunkEnd(r: Range): nat {
    if r.first + REARM_TOMBSTONE_CHUNK - 1 <= r.last then r.first + REARM_TOMBSTONE_CHUNK - 1 else r.last
  }

  /** Materialise the next chunk of the dropped range at the head of the buffer. */
  function Refill(m: Mail): Mail {
    if m.range.None? || m.range.value.first > m.range.value.last then m
    else
      var end := ChunkEnd(m.range.value);
      m.(buffer := RangeItems(m.range.value.first, end - m.range.value.first + 1) + m.buffer,
         range := if end >= m.range.value.last then None else Some(Range(end + 1, m.range.value.last)))
  }

  function RefillIfDrained(m: Mail): Mail {
    if |m.buffer| == 0 && m.range.Some? then Refill(m) else m
  }

  function Requeue(m: Mail, items: seq<Item>): Mail {
    m.(buffer := items + m.buffer)
  }

  // ----- the network flush

  function Stop(s: State): State {
    s.(task := Idle)
  }

  /** The head of the flush loop: post the next prefix, or finish. */
  function Continue(s: State): State {
    if !HasWork(s.mail) || s.health.trip.Some? || s.health.aborted || s.reservation.Some? then Stop(s)
    else
      var m := RefillIfDrained(s.mail);
      var n := PrefixCount(m);
      if n == 0 then State(m, s.health, s.reservation, Idle)
      else State(m.(buffer := m.buffer[n..]), s.health, s.reservation, AwaitPost(m.buffer[..n]))
  }

  function FailReservation(r: Option<Reservation>): Option<Reservation> {
    if r.None? then None else Some(r.value.(state := Failed, aborted := true))
  }

  function Trip(s: State, reason: TripReason): State {
    if s.health.trip.Some? then s
    else s.(health := s.health.(trip := Some(reason)), reservation := FailReservation(s.reservation))
  }

  /** A reservation that appeared while a request was owned keeps the failed request for replay. */
  function StopOwned(s: State, items: seq<Item>, replay: seq<Item>): State
    requires s.reservation.Some?
  {
    State(Requeue(s.mail, items), s.health,
          Some(s.reservation.value.(ownedAttemptFailed := true, replay := Some(replay))), Idle)
  }

  function ClearStreak(h: Health): Health {
    h.(failures := 0, failingSince := None)
  }

  function NoteTransient(cfg: Config, s: State, now: int): State {
    var since := if s.health.failingSince.Some? then s.health.failingSince.value else now;
    var t := s.(health := s.health.(failures := s.health.failures + 1, failingSince := Some(since)));
    if now - since < cfg.tripMs then Stop(t)
    else if !cfg.outbox.UsableStore? then Stop(Trip(t, Unreachable))
    else if t.health.spilled || t.health.trip.Some? then Stop(t)
    else t.(task := AwaitSpillMark)
  }

  /** After a bisection: re-buffer what is left and decide whether to keep draining. */
  function EndBisect(cfg: Config, s: State, remaining: seq<Item>, progressed: bool, now: int): State {
    var t := s.(mail := Requeue(s.mail, remaining));
    if t.reservation.Some? || t.health.trip.Some? then Stop(t)
    else if !progressed then NoteTransient(cfg, t, now)
    else Continue(t.(health := ClearStreak(t.health)))
  }

  /** The head of the bisection loop for the window `[lo, hi)`. */
  function Bisect(cfg: Config, s: State, batch: seq<Item>, lo: nat, hi: nat, posts: nat, progressed: bool,
      now: int): State
    requires lo < hi <= |batch|
  {
    if s.reservation.Some? then EndBisect(cfg, s, batch[lo..], progressed, now)
    else if hi - lo > 1 then
      if posts >= MAX_BISECT_POSTS then EndBisect(cfg, Trip(s, BisectBudget), [], progressed, now)
      else s.(task := AwaitProbe(batch, lo, hi, posts + 1, progressed))
    else
      s.(task := AwaitMarker(batch, lo, Tombstone(batch[lo], MessageDropped, PayloadRejected), progressed))
  }

  /** A 413: split a batch, or replace the single message the emit-time cap did not catch. */
  function HandleOversize(s: State, batch: seq<Item>): State
    requires |batch| > 0
  {
    if |batch| > 1 then
      Continue(s.(mail := Requeue(s.mail, batch).(split := Some(|batch| / 2)), health := ClearStreak(s.health)))
    else
      Continue(s.(mail := Requeue(s.mail, [Tombstone(batch[0], MessageTruncated, RejectedTooLarge)]).(split := None)))
  }

  /** React to a failed batch. */
  function HandleFailure(cfg: Config, s: State, batch: seq<Item>, v: Verdict, now: int): State
    requires |batch| > 0
  {
    if s.reservation.Some? then StopOwned(s, batch, batch)
    else if v != Transient && |batch| == 1 && batch[0].tombstoned then
      Stop(Trip(s, MarkerRejected(batch[0].msg.seqNo)))
    else match v
      case Fatal => Stop(Trip(s.(mail := Requeue(s.mail, batch)), ApiRejected))
      case Oversize => HandleOversize(s, batch)
      case Permanent =>
        if |batch| == 1 then
          Continue(s.(mail := Requeue(s.mail, [Tombstone(batch[0], MessageDropped, PayloadRejected)])))
        else Bisect(cfg, s, batch, 0, |batch|, 0, false, now)
      case Transient => NoteTransient(cfg, s.(mail := Requeue(s.mail, batch)), now)
  }

  function PostSettled(cfg: Config, s: State, batch: seq<Item>, r: Reply, now: int): State
    requires |batch| > 0
  {
    if r.Accepted? then Continue(s.(mail := s.mail.(split := None), health := ClearStreak(s.health)))
    else if s.health.aborted then
      if s.reservation.Some? then StopOwned(s, batch, batch) else Stop(s.(mail := Requeue(s.mail, batch)))
    else HandleFailure(cfg, s, batch, Classify(r), now)
  }

  predicate Probing(k: Task) {
    k.AwaitProbe? && k.lo < k.hi <= |k.batch| && k.hi - k.lo >= 2
  }

  function ProbeSettled(cfg: Config, s: State, k: Task, r: Reply, now: int): State
    requires Probing(k)
  {
    var mid := Mid(k.lo, k.hi);
    if r.Accepted? then Bisect(cfg, s, k.batch, mid, k.hi, k.posts, true, now)
    else if s.reservation.Some? then StopOwned(s, k.batch[k.lo..], k.batch[k.lo..mid])
    else match Classify(r)
      case Fatal => EndBisect(cfg, Trip(s, ApiRejected), [], k.progressed, now)
      case Permanent => Bisect(cfg, s, k.batch, k.lo, mid, k.posts, k.progressed, now)
      case _ => EndBisect(cfg, s, k.batch[k.lo..], k.progressed, now)
  }

  predicate Marking(k: Task) {
    k.AwaitMarker? && k.lo < |k.batch|
  }

  function MarkerSettled(cfg: Config, s: State, k: Task, r: Reply, now: int): State
    requires Marking(k)
  {
    var rest := k.batch[k.lo + 1..];
    if r.Accepted? then EndBisect(cfg, s, rest, true, now)
    else if s.reservation.Some? then StopOwned(s, [k.marker] + rest, [k.marker])
    else if Classify(r) == Transient then EndBisect(cfg, s, [k.marker] + rest, k.progressed, now)
    else EndBisect(cfg, Trip(s, MarkerRejected(k.marker.msg.seqNo)), [], k.progressed, now)
  }

  // ----- the spilled flush

  /** How an outbox call settled. A refused append returns without having committed. */
  datatype StoreOutcome = Stored | Refused | Threw

  function NoteStoreFailure(h: Health, now: int): Health {
    if !h.spilled then h
    else h.(failures := h.failures + 1, failingSince := if h.failingSince.Some? then h.failingSince else Some(now))
  }

  function SpillEnd(s: State): State {
    if HasWork(s.mail) then Stop(s) else s.(health := ClearStreak(s.health), task := AwaitClear)
  }

  function SpillLoop(s: State): State {
    if |s.mail.buffer| == 0 || s.health.closed || !s.health.spilled || s.reservation.Some? then SpillEnd(s)
    else
      var n := PrefixCount(s.mail);
      if n == 0 then SpillEnd(s)
      else s.(mail := s.mail.(buffer := s.mail.buffer[n..]), task := AwaitSegment(s.mail.buffer[..n]))
  }

  function StoreSettled(s: State, o: StoreOutcome, now: int): State {
    match s.task
    case AwaitSpillMark =>
      if !o.Threw? then Stop(s.(health := ClearStreak(s.health).(spilled := true)))
      else if s.health.aborted then Stop(s)
      else Stop(Trip(s, NoOutbox))
    case AwaitFlushMark =>
      if o.Threw? then Stop(s.(health := NoteStoreFailure(s.health, now)))
      else if s.mail.range.Some? then s.(task := AwaitRange(s.mail.range.value))
      else SpillLoop(s)
    case AwaitRange(_) =>
      if o.Threw? then Stop(s.(health := NoteStoreFailure(s.health, now)))
      else SpillLoop(s.(mail := s.mail.(range := None)))
    case AwaitSegment(batch) =>
      if o.Threw? then SpillEnd(s.(mail := Requeue(s.mail, batch), health := NoteStoreFailure(s.health, now)))
      else SpillLoop(s)
    case AwaitClear => Stop(s)
    case _ => s
  }

  // ----- public operations

  function BufferedBytes(items: seq<Item>): nat {
    if items == [] then 0 else BufferedBytes(items[..|items| - 1]) + items[|items| - 1].bytes
  }

  function Fold(r: Option<Range>, n: nat): Option<Range> {
    if r.None? then Some(Range(n, n))
    else Some(Range(if n < r.value.first then n else r.value.first, if n > r.value.last then n else r.value.last))
  }

  /** The item an emitted frame becomes: a frame no post can carry is replaced at once. */
  function Measured(m: Msg): (r: Item)
    ensures r.msg.seqNo == m.seqNo && r.bytes == MessageBytes(r.msg)
    ensures r.msg == m || IsMarker(r.msg)
  {
    var item := Item(m, MessageBytes(m), false);
    if item.bytes > MAX_MESSAGE_BYTES then Tombstone(item, MessageTruncated, CannotAcceptThisLarge) else item
  }

  function NewItem(s: State, body: Body, who: Attribution): Item {
    Measured(Msg(s.mail.seqNo + 1, body, who))
  }

  /** While spilled, an item that would push the buffer over its cap is dropped into the range. */
  predicate WillFold(cfg: Config, s: State, item: Item) {
    s.health.spilled && |s.mail.buffer| > 0 && BufferedBytes(s.mail.buffer) + item.bytes > cfg.spillBufferBytes
  }

  function HoldEvent(cfg: Config, r: Reservation, item: Item): Reservation {
    var bytes := item.bytes + 10;
    if r.state == Failed then r
    else if r.bytes + bytes > cfg.spillBufferBytes then r.(state := Failed, aborted := true)
    else r.(held := r.held + [HeldEvent(item.msg.body, item.msg.who, bytes)], bytes := r.bytes + bytes)
  }

  function Emit(cfg: Config, s: State, body: Body, who: Attribution): State {
    if s.health.closed then s
    else if s.reservation.Some? then
      s.(reservation := Some(HoldEvent(cfg, s.reservation.value, Measured(Msg(s.mail.seqNo, body, who)))))
    else
      var item := NewItem(s, body, who);
      if WillFold(cfg, s, item) then
        s.(mail := s.mail.(seqNo := s.mail.seqNo + 1, range := Fold(s.mail.range, item.msg.seqNo)))
      else s.(mail := s.mail.(seqNo := s.mail.seqNo + 1, buffer := s.mail.buffer + [item]))
  }

  /** `aborted` says the caller's signal had already fired. */
  function StartFlush(s: State, aborted: bool): State {
    if s.reservation.Some? || !s.task.Idle? || !HasWork(s.mail) || s.health.trip.Some? then s
    else
      var t := s.(health := s.health.(aborted := aborted));
      if s.health.spilled then t.(task := AwaitFlushMark) else Continue(t)
  }

  function Rearm(s: State): State {
    if s.reservation.Some? || !s.health.spilled || s.health.closed then s
    else s.(health := ClearStreak(s.health).(spilled := false))
  }

  /** The latches `close` sets first; it also aborts the request a reservation left in flight. */
  function Close(s: State): State {
    s.(health := s.health.(closed := true,
                           aborted := s.health.aborted || (s.reservation.Some? && !s.task.Idle?)),
       reservation := FailReservation(s.reservation))
  }

  // ----- the candidate reservation

  predicate CanReserve(cfg: Config, s: State) {
    s.reservation.None? && !s.health.closed && s.health.trip.None? && cfg.generation > 0 && s.mail.seqNo <= MAX_SEQ
  }

  function Reserve(cfg: Config, s: State): State {
    if !CanReserve(cfg, s) then s
    else s.(reservation := Some(Reservation(s.mail.seqNo, Held, false, [], 0, false, false, None, NotPreparing)))
  }

  /** A preparation attempt ends without proof. */
  function PrepFailed(s: State, r: Reservation, permanent: bool): State {
    if permanent || r.aborted || s.health.closed || s.health.trip.Some?
    then s.(reservation := Some(r.(state := Failed, aborted := true, prep := NotPreparing)))
    else s.(reservation := Some(r.(state := Held, prep := NotPreparing)))
  }

  /** The preparation loop: resend the owned tail prefix by prefix, replaying a failed request exactly. */
  function PrepLoop(s: State, r: Reservation, expired: bool): State {
    if !HasWork(s.mail) then s.(reservation := Some(r.(prep := Confirming)))
    else if expired || r.state == Failed || r.aborted || s.health.closed then PrepFailed(s, r, false)
    else
      var m := RefillIfDrained(s.mail);
      var n := if r.replay.None? then PrefixCount(m)
               else if |r.replay.value| <= |m.buffer| then |r.replay.value| else |m.buffer|;
      var batch := if r.replay.Some? then r.replay.value else m.buffer[..n];
      s.(mail := m.(buffer := m.buffer[n..]), reservation := Some(r.(prep := Posting(batch))))
  }

  /** `ok` says usage and outbox drains confirmed; the flush in flight has settled. */
  function PrepBegin(cfg: Config, s: State, ok: bool, permanent: bool): State {
    if s.reservation.None? || !s.task.Idle? then s
    else
      var r := s.reservation.value;
      if r.state != Held || r.aborted || !r.prep.NotPreparing? then s
      else if r.ownedAttemptFailed then PrepFailed(s, r.(ownedAttemptFailed := false), permanent)
      else if !ok || s.health.closed || s.health.trip.Some? || cfg.outbox.DisabledStore?
      then PrepFailed(s, r, permanent || cfg.outbox.DisabledStore?)
      else PrepLoop(s, r, false)
  }

  function PrepPosted(s: State, r: Reply, expired: bool, permanent: bool): State {
    if s.reservation.None? || !s.reservation.value.prep.Posting? then s
    else
      var v := s.reservation.value;
      if r.Accepted? then PrepLoop(s, v.(replay := None), expired)
      else PrepFailed(s.(mail := Requeue(s.mail, v.prep.batch)), v.(replay := Some(v.prep.batch)), permanent)
  }

  function PrepConfirmed(s: State, ok: bool, permanent: bool): State {
    if s.reservation.None? || !s.reservation.value.prep.Confirming? then s
    else
      var r := s.reservation.value;
      if !ok || r.state == Failed || r.aborted || s.health.closed then PrepFailed(s, r, permanent)
      else s.(reservation := Some(r.(state := Prepared, prep := NotPreparing)))
  }

  /** The server facts a release is asked with. `viaGate` is the applied approval gate. */
  datatype Proof = Proof(cursor: int, generation: int, settled: bool, drained: bool, viaGate: bool)

  function ReleaseCursor(r: Reservation, p: Proof): int {
    if p.viaGate && !r.submitted && p.cursor < r.tail then r.tail else p.cursor
  }

  predicate CanRelease(cfg: Config, s: State, p: Proof) {
    && s.reservation.Some?
    && var r := s.reservation.value;
    && r.state == Prepared && !s.health.closed && s.health.trip.None? && !r.aborted && r.replay.None?
    && |s.mail.buffer| == 0 && s.mail.range.None? && !cfg.outbox.DisabledStore? && p.drained
    && p.generation == cfg.generation && p.generation > 0 && p.settled
    && (p.viaGate ==> 0 <= p.cursor <= MAX_SEQ)
    && r.tail <= ReleaseCursor(r, p) <= MAX_SEQ && ReleaseCursor(r, p) + |r.held| <= MAX_SEQ
  }

  /** The held events numbered from `cursor + 1`. */
  function Numbered(held: seq<HeldEvent>, cursor: nat): (r: seq<Item>)
    ensures |r| == |held|
    ensures forall i :: 0 <= i < |held| ==> r[i].msg == Msg(cursor + 1 + i, held[i].body, held[i].who)
    ensures forall i :: 0 <= i < |held| ==> r[i].bytes == MessageBytes(r[i].msg) && !r[i].tombstoned
  {
    if held == [] then []
    else
      var n := |held| - 1;
      var m := Msg(cursor + 1 + n, held[n].body, held[n].who);
      Numbered(held[..n], cursor) + [Item(m, MessageBytes(m), false)]
  }

  function Release(cfg: Config, s: State, p: Proof): State {
    if !CanRelease(cfg, s, p) then s
    else
      var r := s.reservation.value;
      var cursor := ReleaseCursor(r, p);
      State(Mail(cursor + |r.held|, Numbered(r.held, cursor), None, None),
            ClearStreak(s.health).(spilled := false), None, s.task)
  }
}
