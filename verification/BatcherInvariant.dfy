/** What every step of the batcher keeps, for every event: the shape of the suspended coroutine,
    the bisection's search bound, and the exact replay a reservation holds. */
module BatcherInvariant {
  import opened Options
  import opened BatcherTypes
  import opened BatcherMachine
  import opened BatcherRuns

  function Pow2(n: nat): (r: nat)
    ensures r >= 1
  {
    if n == 0 then 1 else 2 * Pow2(n - 1)
  }

  predicate ItemOk(i: Item) {
    i.bytes == MessageBytes(i.msg) && (i.tombstoned ==> IsMarker(i.msg))
  }

  predicate ItemsOk(items: seq<Item>) {
    forall i :: 0 <= i < |items| ==> ItemOk(items[i])
  }

  /** A batch of several messages is under the batch cap, so it cannot hold too many of them. */
  predicate CountBounded(items: seq<Item>) {
    |items| >= 2 ==> 2 * |items| + FRAMING_BYTES <= MAX_BATCH_BYTES
  }

  /** After `posts` probes the window is at most `n / 2^posts`, rounded up. */
  predicate SearchBound(n: nat, width: nat, posts: nat) {
    width >= 1 && (width - 1) * Pow2(posts) < n
  }

  predicate TaskOk(k: Task) {
    match k
    case AwaitPost(b) => |b| > 0 && CountBounded(b) && ItemsOk(b)
    case AwaitProbe(b, lo, hi, posts, _) =>
      Probing(k) && CountBounded(b) && ItemsOk(b) && posts >= 1 && SearchBound(|b|, hi - lo, posts - 1)
    case AwaitMarker(b, lo, m, _) =>
      Marking(k) && ItemsOk(b) && ItemOk(m) && m.tombstoned && m.msg.seqNo == b[lo].msg.seqNo
    case AwaitSegment(b) => |b| > 0 && ItemsOk(b)
    case AwaitRange(r) => r.first <= r.last
    case _ => true
  }

  predicate MailOk(m: Mail) {
    && ItemsOk(m.buffer)
    && (m.split.Some? ==> m.split.value >= 1)
    && (m.range.Some? ==> m.range.value.first <= m.range.value.last <= m.seqNo)
  }

  /** A reservation freezes the counter at its tail. Its replay, if any, is the exact head of the
      buffer, or the batch being posted. */
  predicate ReservationOk(m: Mail, r: Reservation) {
    && r.tail == m.seqNo
    && (r.state == Prepared ==> r.prep.NotPreparing? && r.replay.None?)
    && match r.prep
       case Posting(b) => |b| > 0 && ItemsOk(b) && (r.replay.Some? ==> r.replay.value == b)
       case Confirming => r.replay.None?
       case NotPreparing => r.replay.Some? ==> |r.replay.value| > 0 && r.replay.value <= m.buffer
  }

  /** While the coroutine is suspended nothing prepares and nothing is kept for replay. */
  predicate Untouched(o: Option<Reservation>) {
    o.Some? ==> o.value.prep.NotPreparing? && o.value.replay.None? && o.value.state != Prepared
  }

  predicate Inv(s: State) {
    && MailOk(s.mail)
    && TaskOk(s.task)
    && (s.reservation.Some? ==> ReservationOk(s.mail, s.reservation.value))
    && (!s.task.Idle? ==> Untouched(s.reservation) && s.health.trip.None?)
    && (s.health.trip.Some? && s.reservation.Some? ==> s.reservation.value.prep.NotPreparing?)
    && s.health.trip != Some(BisectBudget)
    && SplitFits(s)
  }

  /** A batch never exceeds the split limit it was taken under. */
  predicate SplitFits(s: State) {
    s.task.AwaitPost? && s.mail.split.Some? ==> |s.task.batch| <= s.mail.split.value
  }

  /** The invariant of a state whose coroutine is about to be suspended or to stop. */
  predicate Ready(s: State) {
    && MailOk(s.mail)
    && Untouched(s.reservation)
    && (s.reservation.Some? ==> s.reservation.value.tail == s.mail.seqNo)
    && s.health.trip != Some(BisectBudget)
  }

  lemma ReadyInv(s: State)
    requires Ready(s) && TaskOk(s.task) && SplitFits(s) && (!s.task.Idle? ==> s.health.trip.None?)
    ensures Inv(s)
  {
  }

  lemma InvReady(s: State)
    requires Inv(s) && !s.task.Idle?
    ensures Ready(s) && s.health.trip.None?
  {
  }

  lemma {:induction false} WireSizeLower(items: seq<Item>)
    requires ItemsOk(items)
    ensures WireSize(items) >= FRAMING_BYTES + 2 * |items|
  {
    if items != [] {
      WireSizeLower(items[..|items| - 1]);
      assert ItemOk(items[|items| - 1]);
    }
  }

  lemma PrefixOk(m: Mail)
    requires MailOk(m) && |m.buffer| > 0
    ensures PrefixCount(m) > 0
    ensures CountBounded(m.buffer[..PrefixCount(m)])
    ensures MailOk(m.(buffer := m.buffer[PrefixCount(m)..]))
  {
    WireSizeLower(m.buffer[..PrefixCount(m)]);
  }

  lemma RequeueOk(m: Mail, items: seq<Item>)
    requires MailOk(m) && ItemsOk(items)
    ensures MailOk(Requeue(m, items))
  {
  }

  lemma RefillOk(m: Mail)
    requires MailOk(m)
    ensures MailOk(RefillIfDrained(m))
    ensures HasWork(m) ==> |RefillIfDrained(m).buffer| > 0
    ensures RefillIfDrained(m).seqNo == m.seqNo
  {
  }

  lemma ContinueOk(s: State)
    requires Ready(s)
    ensures Inv(Continue(s))
  {
    if HasWork(s.mail) && s.health.trip.None? && !s.health.aborted && s.reservation.None? {
      RefillOk(s.mail);
      PrefixOk(RefillIfDrained(s.mail));
    }
    ReadyInv(Continue(s));
  }

  lemma TripOk(s: State, reason: TripReason)
    requires Ready(s) && reason != BisectBudget
    ensures Ready(Trip(s, reason)) && Trip(s, reason).mail == s.mail
  {
  }

  lemma NoteTransientOk(cfg: Config, s: State, now: int)
    requires Ready(s) && s.reservation.None?
    ensures Inv(NoteTransient(cfg, s, now))
  {
    ReadyInv(NoteTransient(cfg, s, now));
  }

  lemma EndBisectOk(cfg: Config, s: State, remaining: seq<Item>, progressed: bool, now: int)
    requires Ready(s) && ItemsOk(remaining)
    ensures Inv(EndBisect(cfg, s, remaining, progressed, now))
  {
    var t := s.(mail := Requeue(s.mail, remaining));
    RequeueOk(s.mail, remaining);
    if t.reservation.Some? || t.health.trip.Some? {
      ReadyInv(Stop(t));
    } else if progressed {
      ContinueOk(t.(health := ClearStreak(t.health)));
    } else {
      NoteTransientOk(cfg, t, now);
    }
  }

  lemma {:induction false} Pow2Monotone(a: nat, b: nat)
    requires a <= b
    ensures Pow2(a) <= Pow2(b)
    decreases b
  {
    if a < b { Pow2Monotone(a, b - 1); }
  }

  lemma Pow2Of18()
    ensures Pow2(18) == 262144
  {
    assert Pow2(6) == 64;
    assert Pow2(12) == 4096;
  }

  /** The smallest `k` with `2^k >= n`. */
  function CeilLog2(n: nat): (k: nat)
    ensures Pow2(k) >= n
    ensures k > 0 ==> Pow2(k - 1) < n
  {
    LogFrom(n, 0)
  }

  function LogFrom(n: nat, k: nat): (r: nat)
    requires k > 0 ==> Pow2(k - 1) < n
    ensures Pow2(r) >= n
    ensures r > 0 ==> Pow2(r - 1) < n
    decreases if n > Pow2(k) then n - Pow2(k) else 0
  {
    if Pow2(k) >= n then k else LogFrom(n, k + 1)
  }

  lemma WideProduct(width: nat, p: nat)
    requires width >= 2
    ensures p <= (width - 1) * p
  {
  }

  /** A window still wider than one leaves the search a probe under `ceil(log2 n)`. */
  lemma SearchCost(n: nat, width: nat, posts: nat)
    requires SearchBound(n, width, posts) && width >= 2
    ensures posts + 1 <= CeilLog2(n)
  {
    WideProduct(width, Pow2(posts));
    if CeilLog2(n) <= posts { Pow2Monotone(CeilLog2(n), posts); }
  }

  /** A batch under the byte cap never exhausts the post budget. */
  lemma BudgetSuffices(batch: seq<Item>, width: nat, posts: nat)
    requires CountBounded(batch) && 2 <= width <= |batch| && SearchBound(|batch|, width, posts)
    ensures posts < 18 < MAX_BISECT_POSTS
  {
    WideProduct(width, Pow2(posts));
    Pow2Of18();
    assert Pow2(posts) < 262144;
    if posts >= 18 { Pow2Monotone(18, posts); }
  }

  lemma BisectOk(cfg: Config, s: State, batch: seq<Item>, lo: nat, hi: nat, posts: nat, progressed: bool, now: int)
    requires Ready(s) && s.health.trip.None? && lo < hi <= |batch| && ItemsOk(batch) && CountBounded(batch)
    requires SearchBound(|batch|, hi - lo, posts)
    ensures Inv(Bisect(cfg, s, batch, lo, hi, posts, progressed, now))
  {
    var t := Bisect(cfg, s, batch, lo, hi, posts, progressed, now);
    if s.reservation.Some? {
      EndBisectOk(cfg, s, batch[lo..], progressed, now);
    } else {
      if hi - lo > 1 { BudgetSuffices(batch, hi - lo, posts); }
      assert ItemOk(batch[lo]);
      ReadyInv(t);
    }
  }

  /** One probe halves the window, rounding up. */
  lemma SearchBoundHalves(n: nat, width: nat, half: nat, posts: nat)
    requires SearchBound(n, width, posts) && 1 <= half && 2 * half <= width + 1
    ensures SearchBound(n, half, posts + 1)
  {
    var p := Pow2(posts);
    assert (half - 1) * (2 * p) == (2 * (half - 1)) * p;
    assert (2 * (half - 1)) * p <= (width - 1) * p;
  }

  lemma StopOwnedOk(s: State, items: seq<Item>, replay: seq<Item>)
    requires Ready(s) && s.reservation.Some? && ItemsOk(items) && |replay| > 0 && replay <= items
    ensures Inv(StopOwned(s, items, replay))
  {
    RequeueOk(s.mail, items);
    assert items <= Requeue(s.mail, items).buffer;
  }

  lemma OversizeOk(s: State, batch: seq<Item>)
    requires Ready(s) && |batch| > 0 && ItemsOk(batch)
    ensures Inv(HandleOversize(s, batch))
  {
    if |batch| > 1 {
      RequeueOk(s.mail, batch);
      ContinueOk(s.(mail := Requeue(s.mail, batch).(split := Some(|batch| / 2)), health := ClearStreak(s.health)));
    } else {
      var m := Tombstone(batch[0], MessageTruncated, RejectedTooLarge);
      assert ItemOk(batch[0]) && ItemOk(m);
      RequeueOk(s.mail, [m]);
      ContinueOk(s.(mail := Requeue(s.mail, [m]).(split := None)));
    }
  }

  lemma HandleFailureOk(cfg: Config, s: State, batch: seq<Item>, v: Verdict, now: int)
    requires Ready(s) && s.health.trip.None? && |batch| > 0 && ItemsOk(batch) && CountBounded(batch)
    ensures Inv(HandleFailure(cfg, s, batch, v, now))
  {
    RequeueOk(s.mail, batch);
    if s.reservation.Some? {
      StopOwnedOk(s, batch, batch);
    } else if v != Transient && |batch| == 1 && batch[0].tombstoned {
      TripOk(s, MarkerRejected(batch[0].msg.seqNo));
      ReadyInv(HandleFailure(cfg, s, batch, v, now));
    } else {
      match v
      case Fatal =>
        TripOk(s.(mail := Requeue(s.mail, batch)), ApiRejected);
        ReadyInv(HandleFailure(cfg, s, batch, v, now));
      case Oversize => OversizeOk(s, batch);
      case Permanent =>
        if |batch| == 1 {
          var m := Tombstone(batch[0], MessageDropped, PayloadRejected);
          assert ItemOk(batch[0]) && ItemOk(m);
          RequeueOk(s.mail, [m]);
          ContinueOk(s.(mail := Requeue(s.mail, [m])));
        } else {
          assert SearchBound(|batch|, |batch|, 0);
          BisectOk(cfg, s, batch, 0, |batch|, 0, false, now);
        }
      case Transient => NoteTransientOk(cfg, s.(mail := Requeue(s.mail, batch)), now);
    }
  }

  lemma PostSettledOk(cfg: Config, s: State, r: Reply, now: int)
    requires Inv(s) && s.task.AwaitPost?
    ensures Inv(PostSettled(cfg, s, s.task.batch, r, now))
  {
    InvReady(s);
    var batch := s.task.batch;
    if r.Accepted? {
      ContinueOk(s.(mail := s.mail.(split := None), health := ClearStreak(s.health)));
    } else if s.health.aborted {
      RequeueOk(s.mail, batch);
      if s.reservation.Some? {
        StopOwnedOk(s, batch, batch);
      } else {
        ReadyInv(Stop(s.(mail := Requeue(s.mail, batch))));
      }
    } else {
      HandleFailureOk(cfg, s, batch, Classify(r), now);
    }
  }

  lemma ProbeSettledOk(cfg: Config, s: State, r: Reply, now: int)
    requires Inv(s) && s.task.AwaitProbe?
    ensures Inv(ProbeSettled(cfg, s, s.task, r, now))
  {
    InvReady(s);
    var k := s.task;
    var mid := Mid(k.lo, k.hi);
    if r.Accepted? {
      SearchBoundHalves(|k.batch|, k.hi - k.lo, k.hi - mid, k.posts - 1);
      BisectOk(cfg, s, k.batch, mid, k.hi, k.posts, true, now);
    } else if s.reservation.Some? {
      StopOwnedOk(s, k.batch[k.lo..], k.batch[k.lo..mid]);
    } else {
      match Classify(r)
      case Fatal =>
        TripOk(s, ApiRejected);
        EndBisectOk(cfg, Trip(s, ApiRejected), [], k.progressed, now);
      case Permanent =>
        SearchBoundHalves(|k.batch|, k.hi - k.lo, mid - k.lo, k.posts - 1);
        BisectOk(cfg, s, k.batch, k.lo, mid, k.posts, k.progressed, now);
      case _ => EndBisectOk(cfg, s, k.batch[k.lo..], k.progressed, now);
    }
  }

  lemma WithHeadOk(head: Item, rest: seq<Item>)
    requires ItemOk(head) && ItemsOk(rest)
    ensures ItemsOk([head] + rest) && [head] <= [head] + rest
  {
  }

  lemma MarkerSettledOk(cfg: Config, s: State, r: Reply, now: int)
    requires Inv(s) && s.task.AwaitMarker?
    ensures Inv(MarkerSettled(cfg, s, s.task, r, now))
  {
    InvReady(s);
    var k := s.task;
    var rest := k.batch[k.lo + 1..];
    MarkerCasesOk(cfg, s, rest, k.marker, k.progressed, now);
    var t := MarkerSettled(cfg, s, k, r, now);
    assert || t == EndBisect(cfg, s, rest, true, now)
           || (s.reservation.Some? && t == StopOwned(s, [k.marker] + rest, [k.marker]))
           || t == EndBisect(cfg, s, [k.marker] + rest, k.progressed, now)
           || t == EndBisect(cfg, Trip(s, MarkerRejected(k.marker.msg.seqNo)), [], k.progressed, now);
  }

  lemma MarkerCasesOk(cfg: Config, s: State, rest: seq<Item>, marker: Item, progressed: bool, now: int)
    requires Ready(s) && ItemOk(marker) && ItemsOk(rest)
    ensures Inv(EndBisect(cfg, s, rest, true, now))
    ensures s.reservation.Some? ==> Inv(StopOwned(s, [marker] + rest, [marker]))
    ensures Inv(EndBisect(cfg, s, [marker] + rest, progressed, now))
    ensures Inv(EndBisect(cfg, Trip(s, MarkerRejected(marker.msg.seqNo)), [], progressed, now))
  {
    WithHeadOk(marker, rest);
    EndBisectOk(cfg, s, rest, true, now);
    if s.reservation.Some? { StopOwnedOk(s, [marker] + rest, [marker]); }
    EndBisectOk(cfg, s, [marker] + rest, progressed, now);
    TripOk(s, MarkerRejected(marker.msg.seqNo));
    EndBisectOk(cfg, Trip(s, MarkerRejected(marker.msg.seqNo)), [], progressed, now);
  }

  lemma SpillLoopOk(s: State)
    requires Ready(s) && s.health.trip.None?
    ensures Inv(SpillLoop(s))
  {
    if |s.mail.buffer| > 0 { PrefixOk(s.mail); }
    ReadyInv(SpillLoop(s));
  }

  lemma StoreSettledOk(s: State, o: StoreOutcome, now: int)
    requires Inv(s)
    ensures Inv(StoreSettled(s, o, now))
  {
    match s.task
    case AwaitFlushMark => FlushMarkOk(s, o, now);
    case AwaitRange(_) => RangeStoredOk(s, o, now);
    case AwaitSegment(_) => SegmentStoredOk(s, o, now);
    case AwaitSpillMark => SpillMarkOk(s, o, now);
    case AwaitClear => ReadyInv(Stop(s));
    case _ =>
  }

  lemma FlushMarkOk(s: State, o: StoreOutcome, now: int)
    requires Inv(s) && s.task.AwaitFlushMark?
    ensures Inv(StoreSettled(s, o, now))
  {
    if !o.Threw? && s.mail.range.None? { SpillLoopOk(s); } else { ReadyInv(StoreSettled(s, o, now)); }
  }

  lemma RangeStoredOk(s: State, o: StoreOutcome, now: int)
    requires Inv(s) && s.task.AwaitRange?
    ensures Inv(StoreSettled(s, o, now))
  {
    if o.Threw? { ReadyInv(StoreSettled(s, o, now)); } else { SpillLoopOk(s.(mail := s.mail.(range := None))); }
  }

  lemma SegmentStoredOk(s: State, o: StoreOutcome, now: int)
    requires Inv(s) && s.task.AwaitSegment?
    ensures Inv(StoreSettled(s, o, now))
  {
    RequeueOk(s.mail, s.task.batch);
    if o.Threw? { ReadyInv(StoreSettled(s, o, now)); } else { SpillLoopOk(s); }
  }

  lemma SpillMarkOk(s: State, o: StoreOutcome, now: int)
    requires Inv(s) && s.task.AwaitSpillMark?
    ensures Inv(StoreSettled(s, o, now))
  {
    TripOk(s, NoOutbox);
    ReadyInv(StoreSettled(s, o, now));
  }

  lemma EmitOk(cfg: Config, s: State, body: Body, who: Attribution)
    requires Inv(s)
    ensures Inv(Emit(cfg, s, body, who))
  {
    var item := NewItem(s, body, who);
    assert ItemOk(item);
  }

  lemma PrepLoopOk(s: State, r: Reservation, expired: bool)
    requires MailOk(s.mail) && s.task.Idle? && r.tail == s.mail.seqNo && r.state != Prepared && s.health.trip.None?
    requires r.replay.Some? ==> |r.replay.value| > 0 && r.replay.value <= s.mail.buffer
    ensures Inv(PrepLoop(s, r, expired))
  {
    if HasWork(s.mail) {
      RefillOk(s.mail);
      PrefixOk(RefillIfDrained(s.mail));
    }
  }

  lemma PrepBeginOk(cfg: Config, s: State, ok: bool, permanent: bool)
    requires Inv(s)
    ensures Inv(PrepBegin(cfg, s, ok, permanent))
  {
    if s.reservation.Some? && s.reservation.value.prep.NotPreparing? && s.reservation.value.state == Held
        && s.task.Idle? && s.health.trip.None? {
      PrepLoopOk(s, s.reservation.value, false);
    }
  }

  lemma PrepPostedOk(s: State, r: Reply, expired: bool, permanent: bool)
    requires Inv(s)
    ensures Inv(PrepPosted(s, r, expired, permanent))
  {
    if s.reservation.Some? && s.reservation.value.prep.Posting? {
      var v := s.reservation.value;
      RequeueOk(s.mail, v.prep.batch);
      assert v.prep.batch <= Requeue(s.mail, v.prep.batch).buffer;
      PrepLoopOk(s, v.(replay := None), expired);
    }
  }

  lemma PrepConfirmedOk(s: State, ok: bool, permanent: bool)
    requires Inv(s)
    ensures Inv(PrepConfirmed(s, ok, permanent))
  {
  }

  lemma ReleaseOk(cfg: Config, s: State, p: Proof)
    requires Inv(s)
    ensures Inv(Release(cfg, s, p))
  {
  }

  lemma StartFlushOk(s: State, already: bool)
    requires Inv(s)
    ensures Inv(StartFlush(s, already))
  {
    if !s.health.spilled && s.reservation.None? { ContinueOk(s.(health := s.health.(aborted := already))); }
  }

  lemma SettlePostOk(cfg: Config, s: State, r: Reply, now: int)
    requires Inv(s)
    ensures Inv(SettlePost(cfg, s, r, now))
  {
    match s.task
    case AwaitPost(_) => PostSettledOk(cfg, s, r, now);
    case AwaitProbe(_, _, _, _, _) => ProbeSettledOk(cfg, s, r, now);
    case AwaitMarker(_, _, _, _) => MarkerSettledOk(cfg, s, r, now);
    case _ =>
  }

  /** The events that only move a latch or a reservation. */
  lemma SwitchOk(cfg: Config, w: World, e: Event)
    requires Inv(w.s) && (e.AbortFlush? || e.Rearmed? || e.CloseCalled? || e.ReserveCalled? || e.Submitted?
              || e.Cancelled?)
    ensures Inv(Step(cfg, w, e).s)
  {
  }

  lemma StepOk(cfg: Config, w: World, e: Event)
    requires Inv(w.s)
    ensures Inv(Step(cfg, w, e).s)
  {
    match e
    case EmitFrame(kind, payload, who) => EmitOk(cfg, w.s, Frame(kind, payload), who);
    case Flush(already) => StartFlushOk(w.s, already);
    case PostAnswer(r, _, now) => SettlePostOk(cfg, w.s, r, now);
    case StoreAnswer(o, now) => StoreSettledOk(w.s, o, now);
    case PrepareCalled(ok, permanent) => PrepBeginOk(cfg, w.s, ok, permanent);
    case PrepareAnswer(r, _, expired, permanent) => PrepPostedOk(w.s, r, expired, permanent);
    case PrepareConfirmed(ok, permanent) => PrepConfirmedOk(w.s, ok, permanent);
    case ReleaseCalled(p) => ReleaseOk(cfg, w.s, p);
    case _ => SwitchOk(cfg, w, e);
  }

  /** Every reachable state satisfies the invariant, whatever the server and the outbox answer. */
  lemma {:induction false} RunOk(cfg: Config, lastSeq: nat, es: seq<Event>)
    ensures Inv(Run(cfg, Start(lastSeq), es).s)
    decreases |es|
  {
    if es != [] {
      RunOk(cfg, lastSeq, es[..|es| - 1]);
      StepOk(cfg, Run(cfg, Start(lastSeq), es[..|es| - 1]), es[|es| - 1]);
    }
  }

  predicate SearchIsCheap(s: State) {
    && (s.task.AwaitProbe? ==> s.task.posts <= CeilLog2(|s.task.batch|) <= 18)
    && s.health.trip != Some(BisectBudget)
  }

  lemma InvSearchIsCheap(s: State)
    requires Inv(s)
    ensures SearchIsCheap(s)
  {
    if s.task.AwaitProbe? {
      SearchCost(|s.task.batch|, s.task.hi - s.task.lo, s.task.posts - 1);
      BatchLog(|s.task.batch|);
    }
  }

  /** In every reachable state an outstanding bisection probe is at most number `ceil(log2 n)` of
      its search, hence at most the 18th, and no run ever trips for an exhausted search budget. */
  lemma BisectionCost(cfg: Config, lastSeq: nat, es: seq<Event>)
    ensures SearchIsCheap(Run(cfg, Start(lastSeq), es).s)
  {
    RunOk(cfg, lastSeq, es);
    InvSearchIsCheap(Run(cfg, Start(lastSeq), es).s);
  }

  lemma BatchLog(n: nat)
    requires 2 * n + FRAMING_BYTES <= MAX_BATCH_BYTES
    ensures CeilLog2(n) <= 18
  {
    Pow2Of18();
    if CeilLog2(n) > 18 { Pow2Monotone(18, CeilLog2(n) - 1); }
  }
}
