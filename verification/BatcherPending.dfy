/** What one step does to the messages still owed: nothing is lost, reordered or duplicated, and
    at most the head is replaced by its marker. */
module BatcherPending {
  import opened Options
  import opened BatcherTypes
  import opened BatcherMachine
  import opened BatcherRuns
  import opened BatcherInvariant

  function RangeWidth(o: Option<Range>): nat {
    if o.Some? && o.value.first <= o.value.last then o.value.last - o.value.first + 1 else 0
  }

  function RangePart(o: Option<Range>): seq<Item> {
    if RangeWidth(o) == 0 then [] else RangeItems(o.value.first, RangeWidth(o))
  }

  /** Buffered items, then the dropped range as the markers it will become. */
  function Queue(m: Mail): seq<Item> {
    m.buffer + RangePart(m.range)
  }

  /** Everything still owed, in delivery order. */
  function Pending(s: State): seq<Item> {
    Carried(s.task) + (PrepCarried(s) + Queue(s.mail))
  }

  /** The head of the queue replaced by its marker. */
  function HeadMarked(q: seq<Item>, event: MarkerEvent, reason: Reason): seq<Item>
    requires |q| > 0
  {
    [Tombstone(q[0], event, reason)] + q[1..]
  }

  /** What is owed once the server has confirmed `sent`, or has not. */
  function Unsent(s: State, r: Reply): seq<Item> {
    if r.Accepted? && |Outstanding(s.task)| <= |Pending(s)| then Pending(s)[|Outstanding(s.task)|..] else Pending(s)
  }

  /** How a settled post may change what is owed: the confirmed request is gone, and the new head
      may have become its marker, after a bisection isolated it or after it was rejected alone. */
  predicate SettledTo(s: State, r: Reply, t: State) {
    var base := Unsent(s, r);
    || Pending(t) == base
    || (|base| > 0 && t.task.AwaitMarker? && s.task.AwaitProbe?
        && Pending(t) == HeadMarked(base, MessageDropped, PayloadRejected))
    || (|base| > 0 && s.task.AwaitPost? && |s.task.batch| == 1 && !r.Accepted?
        && ((Classify(r) == Permanent && Pending(t) == HeadMarked(base, MessageDropped, PayloadRejected))
            || (Classify(r) == Oversize && Pending(t) == HeadMarked(base, MessageTruncated, RejectedTooLarge))))
  }

  lemma {:induction false} RangeItemsSplit(first: nat, a: nat, b: nat)
    ensures RangeItems(first, a + b) == RangeItems(first, a) + RangeItems(first + a, b)
    decreases b
  {
  }

  lemma RefillQueue(m: Mail)
    requires MailOk(m)
    ensures Queue(RefillIfDrained(m)) == Queue(m)
  {
    if |m.buffer| == 0 && m.range.Some? {
      var r := m.range.value;
      var n := ChunkEnd(r) - r.first + 1;
      RangeItemsSplit(r.first, n, RangeWidth(m.range) - n);
    }
  }

  lemma RequeueQueue(m: Mail, items: seq<Item>)
    ensures Queue(Requeue(m, items)) == items + Queue(m)
  {
  }

  lemma TakeKeeps(m: Mail, n: nat)
    requires n <= |m.buffer|
    ensures m.buffer[..n] + Queue(m.(buffer := m.buffer[n..])) == Queue(m)
  {
    assert m.buffer == m.buffer[..n] + m.buffer[n..];
  }

  lemma NoPreparation(s: State)
    requires Untouched(s.reservation)
    ensures Pending(s) == Carried(s.task) + Queue(s.mail)
  {
    assert PrepCarried(s) == [];
  }

  lemma TakenKeeps(s: State, m: Mail, n: nat)
    requires Untouched(s.reservation) && n <= |m.buffer|
    ensures Pending(State(m.(buffer := m.buffer[n..]), s.health, s.reservation, AwaitPost(m.buffer[..n]))) == Queue(m)
  {
    TakeKeeps(m, n);
    NoPreparation(State(m.(buffer := m.buffer[n..]), s.health, s.reservation, AwaitPost(m.buffer[..n])));
  }

  lemma ContinueKeeps(s: State)
    requires Ready(s)
    ensures Pending(Continue(s)) == Queue(s.mail)
  {
    if HasWork(s.mail) && s.health.trip.None? && !s.health.aborted && s.reservation.None? {
      var m := RefillIfDrained(s.mail);
      RefillQueue(s.mail);
      TakenKeeps(s, m, PrefixCount(m));
      NoPreparation(State(m, s.health, s.reservation, Idle));
    } else {
      NoPreparation(Stop(s));
    }
  }

  lemma NoteTransientKeeps(cfg: Config, s: State, now: int)
    requires Ready(s)
    ensures Pending(NoteTransient(cfg, s, now)) == Queue(s.mail)
  {
  }

  /** Unless it trips, a bisection hands back everything it did not deliver. */
  lemma EndBisectKeeps(cfg: Config, s: State, remaining: seq<Item>, progressed: bool, now: int)
    requires Ready(s) && ItemsOk(remaining)
    ensures Pending(EndBisect(cfg, s, remaining, progressed, now)) == remaining + Queue(s.mail)
  {
    var t := s.(mail := Requeue(s.mail, remaining));
    RequeueOk(s.mail, remaining);
    RequeueQueue(s.mail, remaining);
    if t.reservation.None? && t.health.trip.None? {
      if progressed { ContinueKeeps(t.(health := ClearStreak(t.health))); } else { NoteTransientKeeps(cfg, t, now); }
    }
  }

  lemma IsolateKeeps(s: State, batch: seq<Item>, lo: nat, progressed: bool)
    requires Untouched(s.reservation) && lo < |batch|
    ensures Pending(s.(task :=
              AwaitMarker(batch, lo, Tombstone(batch[lo], MessageDropped, PayloadRejected), progressed)))
         == HeadMarked(batch[lo..] + Queue(s.mail), MessageDropped, PayloadRejected)
  {
    NoPreparation(s.(task := AwaitMarker(batch, lo, Tombstone(batch[lo], MessageDropped, PayloadRejected),
        progressed)));
  }

  lemma ProbeKeeps(s: State, k: Task)
    requires Untouched(s.reservation) && Probing(k)
    ensures Pending(s.(task := k)) == k.batch[k.lo..] + Queue(s.mail)
  {
    NoPreparation(s.(task := k));
  }

  /** Entering the search keeps what is owed, except that an isolated head is already its marker. */
  lemma BisectKeeps(cfg: Config, s: State, batch: seq<Item>, lo: nat, hi: nat, posts: nat, progressed: bool, now: int)
    requires Ready(s) && lo < hi <= |batch| && ItemsOk(batch) && CountBounded(batch)
    requires SearchBound(|batch|, hi - lo, posts)
    ensures var t := Bisect(cfg, s, batch, lo, hi, posts, progressed, now);
            Pending(t) == if t.task.AwaitMarker?
                then HeadMarked(batch[lo..] + Queue(s.mail), MessageDropped, PayloadRejected)
                          else batch[lo..] + Queue(s.mail)
  {
    if s.reservation.Some? {
      EndBisectKeeps(cfg, s, batch[lo..], progressed, now);
    } else if hi - lo > 1 {
      BudgetSuffices(batch, hi - lo, posts);
      ProbeKeeps(s, AwaitProbe(batch, lo, hi, posts + 1, progressed));
    } else {
      IsolateKeeps(s, batch, lo, progressed);
    }
  }

  lemma OversizeKeeps(s: State, batch: seq<Item>)
    requires Ready(s) && |batch| > 0 && ItemsOk(batch)
    ensures Pending(HandleOversize(s, batch)) ==
            if |batch| > 1 then batch + Queue(s.mail)
            else HeadMarked(batch + Queue(s.mail), MessageTruncated, RejectedTooLarge)
  {
    if |batch| > 1 {
      RequeueOk(s.mail, batch);
      RequeueQueue(s.mail, batch);
      ContinueKeeps(s.(mail := Requeue(s.mail, batch).(split := Some(|batch| / 2)), health := ClearStreak(s.health)));
    } else {
      SingleKeeps(s.mail, batch, MessageTruncated, RejectedTooLarge);
      ContinueKeeps(s.(mail := Requeue(s.mail, [Tombstone(batch[0], MessageTruncated, RejectedTooLarge)]).(split :=
          None)));
    }
  }

  lemma SingleKeeps(m: Mail, batch: seq<Item>, event: MarkerEvent, reason: Reason)
    requires MailOk(m) && |batch| == 1 && ItemsOk(batch)
    ensures MailOk(Requeue(m, [Tombstone(batch[0], event, reason)]))
    ensures Queue(Requeue(m, [Tombstone(batch[0], event, reason)])) == HeadMarked(batch + Queue(m), event, reason)
  {
    assert ItemOk(batch[0]);
    RequeueOk(m, [Tombstone(batch[0], event, reason)]);
  }

  lemma StopOwnedKeeps(s: State, items: seq<Item>, replay: seq<Item>)
    requires Ready(s) && s.reservation.Some?
    ensures Pending(StopOwned(s, items, replay)) == items + Queue(s.mail)
  {
    RequeueQueue(s.mail, items);
  }

  lemma HandleFailureKeeps(cfg: Config, s: State, batch: seq<Item>, v: Verdict, now: int)
    requires Ready(s) && |batch| > 0 && ItemsOk(batch) && CountBounded(batch)
    ensures var t := HandleFailure(cfg, s, batch, v, now);
            t.health.trip.None? ==>
              || Pending(t) == batch + Queue(s.mail)
              || (|batch| == 1 && v == Permanent
                  && Pending(t) == HeadMarked(batch + Queue(s.mail), MessageDropped, PayloadRejected))
              || (|batch| == 1 && v == Oversize
                  && Pending(t) == HeadMarked(batch + Queue(s.mail), MessageTruncated, RejectedTooLarge))
  {
    RequeueOk(s.mail, batch);
    RequeueQueue(s.mail, batch);
    if s.reservation.Some? {
      StopOwnedKeeps(s, batch, batch);
    } else if !(v != Transient && |batch| == 1 && batch[0].tombstoned) {
      match v
      case Fatal =>
      case Oversize => OversizeKeeps(s, batch);
      case Permanent =>
        if |batch| == 1 {
          SingleKeeps(s.mail, batch, MessageDropped, PayloadRejected);
          ContinueKeeps(s.(mail := Requeue(s.mail, [Tombstone(batch[0], MessageDropped, PayloadRejected)])));
        } else {
          BisectKeeps(cfg, s, batch, 0, |batch|, 0, false, now);
        }
      case Transient => NoteTransientKeeps(cfg, s.(mail := Requeue(s.mail, batch)), now);
    }
  }

  lemma PostAcceptedKeeps(s: State)
    requires Ready(s)
    ensures Pending(Continue(s.(mail := s.mail.(split := None), health := ClearStreak(s.health)))) == Queue(s.mail)
  {
    ContinueKeeps(s.(mail := s.mail.(split := None), health := ClearStreak(s.health)));
  }

  lemma PostAbortedKeeps(s: State, batch: seq<Item>)
    requires Ready(s)
    ensures s.reservation.Some? ==> Pending(StopOwned(s, batch, batch)) == batch + Queue(s.mail)
    ensures Pending(Stop(s.(mail := Requeue(s.mail, batch)))) == batch + Queue(s.mail)
  {
    RequeueQueue(s.mail, batch);
    if s.reservation.Some? { StopOwnedKeeps(s, batch, batch); }
    NoPreparation(Stop(s.(mail := Requeue(s.mail, batch))));
  }

  lemma PostSettledKeeps(cfg: Config, s: State, r: Reply, now: int)
    requires Inv(s) && s.task.AwaitPost?
    ensures var t := PostSettled(cfg, s, s.task.batch, r, now); t.health.trip.None? ==> SettledTo(s, r, t)
  {
    InvReady(s);
    NoPreparation(s);
    var batch := s.task.batch;
    if r.Accepted? {
      PostAcceptedKeeps(s);
      assert Unsent(s, r) == Queue(s.mail);
    } else if s.health.aborted {
      PostAbortedKeeps(s, batch);
    } else {
      HandleFailureKeeps(cfg, s, batch, Classify(r), now);
    }
  }

  lemma ProbeAcceptedKeeps(cfg: Config, s: State, r: Reply, now: int)
    requires Inv(s) && s.task.AwaitProbe? && r.Accepted?
    ensures var t := ProbeSettled(cfg, s, s.task, r, now); t.health.trip.None? ==> SettledTo(s, r, t)
  {
    InvReady(s);
    NoPreparation(s);
    var k := s.task;
    var mid := Mid(k.lo, k.hi);
    assert Outstanding(k) + k.batch[mid..] == k.batch[k.lo..];
    assert Unsent(s, r) == k.batch[mid..] + Queue(s.mail);
    SearchBoundHalves(|k.batch|, k.hi - k.lo, k.hi - mid, k.posts - 1);
    BisectKeeps(cfg, s, k.batch, mid, k.hi, k.posts, true, now);
  }

  lemma ProbeSettledKeeps(cfg: Config, s: State, r: Reply, now: int)
    requires Inv(s) && s.task.AwaitProbe?
    ensures var t := ProbeSettled(cfg, s, s.task, r, now); t.health.trip.None? ==> SettledTo(s, r, t)
  {
    InvReady(s);
    NoPreparation(s);
    var k := s.task;
    var mid := Mid(k.lo, k.hi);
    if r.Accepted? {
      ProbeAcceptedKeeps(cfg, s, r, now);
    } else if s.reservation.Some? {
      StopOwnedKeeps(s, k.batch[k.lo..], k.batch[k.lo..mid]);
    } else {
      match Classify(r)
      case Fatal =>
      case Permanent =>
        SearchBoundHalves(|k.batch|, k.hi - k.lo, mid - k.lo, k.posts - 1);
        BisectKeeps(cfg, s, k.batch, k.lo, mid, k.posts, k.progressed, now);
      case _ => EndBisectKeeps(cfg, s, k.batch[k.lo..], k.progressed, now);
    }
  }

  lemma MarkerSettledKeeps(cfg: Config, s: State, r: Reply, now: int)
    requires Inv(s) && s.task.AwaitMarker?
    ensures var t := MarkerSettled(cfg, s, s.task, r, now); t.health.trip.None? ==> Pending(t) == Unsent(s, r)
  {
    InvReady(s);
    NoPreparation(s);
    var k := s.task;
    var rest := k.batch[k.lo + 1..];
    WithHeadOk(k.marker, rest);
    if r.Accepted? {
      assert Unsent(s, r) == rest + Queue(s.mail);
      EndBisectKeeps(cfg, s, rest, true, now);
    } else if s.reservation.Some? {
      StopOwnedKeeps(s, [k.marker] + rest, [k.marker]);
    } else if Classify(r) == Transient {
      EndBisectKeeps(cfg, s, [k.marker] + rest, k.progressed, now);
    }
  }

  /** One settled post, in any state the batcher can be in. */
  lemma SettlePostKeeps(cfg: Config, s: State, r: Reply, now: int)
    requires Inv(s) && PostOutstanding(s)
    ensures SettlePost(cfg, s, r, now).health.trip.None? ==> SettledTo(s, r, SettlePost(cfg, s, r, now))
    ensures Outstanding(s.task) <= Pending(s)
  {
    InvReady(s);
    NoPreparation(s);
    match s.task
    case AwaitPost(_) => PostSettledKeeps(cfg, s, r, now);
    case AwaitProbe(_, _, _, _, _) =>
      assert Outstanding(s.task) + s.task.batch[Mid(s.task.lo, s.task.hi)..] == s.task.batch[s.task.lo..];
      ProbeSettledKeeps(cfg, s, r, now);
    case AwaitMarker(_, _, _, _) => MarkerSettledKeeps(cfg, s, r, now);
  }

  lemma FlushKeeps(s: State, aborted: bool)
    requires Ready(s) && s.task.Idle?
    ensures var t := s.(health := s.health.(aborted := aborted));
            Pending(t.(task := AwaitFlushMark)) == Pending(Continue(t)) == Pending(s)
  {
    NoPreparation(s);
    var t := s.(health := s.health.(aborted := aborted));
    ContinueKeeps(t);
    NoPreparation(t.(task := AwaitFlushMark));
  }

  lemma StartFlushKeeps(s: State, aborted: bool)
    requires Inv(s)
    ensures Pending(StartFlush(s, aborted)) == Pending(s)
  {
    if s.task.Idle? && s.reservation.None? { FlushKeeps(s, aborted); }
  }

  /** A failed outbox call loses nothing. */
  lemma StoreThrewKeeps(s: State, now: int)
    requires Inv(s)
    ensures Pending(StoreSettled(s, Threw, now)) == Pending(s)
  {
    if !s.task.Idle? { NoPreparation(s); }
    if s.task.AwaitSegment? {
      RequeueQueue(s.mail, s.task.batch);
      assert Pending(StoreSettled(s, Threw, now)) == Queue(Requeue(s.mail, s.task.batch));
    }
  }

  lemma SpillLoopKeeps(s: State)
    requires Ready(s)
    ensures Pending(SpillLoop(s)) == Queue(s.mail)
  {
    var n := PrefixCount(s.mail);
    if SpillLoop(s) == SpillEnd(s) {
      SpillEndKeeps(s);
    } else {
      SegmentKeeps(s, n);
    }
  }

  lemma SpillEndKeeps(s: State)
    requires Untouched(s.reservation)
    ensures Pending(SpillEnd(s)) == Queue(s.mail)
  {
    NoPreparation(SpillEnd(s));
  }

  lemma SegmentKeeps(s: State, n: nat)
    requires Untouched(s.reservation) && n <= |s.mail.buffer|
    ensures Pending(s.(mail := s.mail.(buffer := s.mail.buffer[n..]), task := AwaitSegment(s.mail.buffer[..n])))
              == Queue(s.mail)
  {
    TakeKeeps(s.mail, n);
    NoPreparation(s.(mail := s.mail.(buffer := s.mail.buffer[n..]), task := AwaitSegment(s.mail.buffer[..n])));
  }

  /** What a returned outbox call takes off the queue: the written segment, or the whole live range. */
  lemma StoreReturnedKeeps(s: State, o: StoreOutcome, now: int)
    requires Inv(s) && !o.Threw?
    ensures Pending(StoreSettled(s, o, now)) ==
            match s.task
            case AwaitSegment(_) => Queue(s.mail)
            case AwaitRange(_) => s.mail.buffer
            case _ => Pending(s)
  {
    if !s.task.Idle? { NoPreparation(s); }
    match s.task
    case AwaitSegment(_) => SpillLoopKeeps(s);
    case AwaitRange(_) =>
      SpillLoopKeeps(s.(mail := s.mail.(range := None)));
      assert Queue(s.mail.(range := None)) == s.mail.buffer;
    case AwaitFlushMark => SpillLoopKeeps(s);
    case _ =>
  }

  lemma PostingPending(s: State, m: Mail, r: Reservation)
    requires s.task.Idle?
    ensures Pending(s.(mail := m, reservation := Some(r))) == (if r.prep.Posting? then r.prep.batch else []) + Queue(m)
  {
  }

  lemma PrepLoopKeeps(s: State, r: Reservation, expired: bool)
    requires MailOk(s.mail) && s.task.Idle?
    requires r.replay.Some? ==> |r.replay.value| > 0 && r.replay.value <= s.mail.buffer
    ensures Pending(PrepLoop(s, r, expired)) == Queue(s.mail)
  {
    if !HasWork(s.mail) {
      PrepDrained(s, r, expired);
    } else if expired || r.state == Failed || r.aborted || s.health.closed {
      PrepStopped(s, r, expired);
    } else {
      RefillQueue(s.mail);
      PrepTakes(s, r, expired);
    }
  }

  lemma PrepDrained(s: State, r: Reservation, expired: bool)
    requires s.task.Idle? && !HasWork(s.mail)
    ensures Pending(PrepLoop(s, r, expired)) == Queue(s.mail)
  {
    PostingPending(s, s.mail, r.(prep := Confirming));
  }

  lemma PrepStopped(s: State, r: Reservation, expired: bool)
    requires s.task.Idle? && HasWork(s.mail) && (expired || r.state == Failed || r.aborted || s.health.closed)
    ensures Pending(PrepLoop(s, r, expired)) == Queue(s.mail)
  {
    PostingPending(s, s.mail, PrepFailed(s, r, false).reservation.value);
  }

  lemma PrepTakes(s: State, r: Reservation, expired: bool)
    requires HasWork(s.mail) && s.task.Idle? && !(expired || r.state == Failed || r.aborted || s.health.closed)
    requires r.replay.Some? ==> |r.replay.value| > 0 && r.replay.value <= s.mail.buffer
    ensures Pending(PrepLoop(s, r, expired)) == Queue(RefillIfDrained(s.mail))
  {
    var m := RefillIfDrained(s.mail);
    var n := if r.replay.None? then PrefixCount(m) else |r.replay.value|;
    assert r.replay.Some? ==> r.replay.value == m.buffer[..n];
    TakeKeeps(m, n);
    PostingPending(s, m.(buffer := m.buffer[n..]), r.(prep := Posting(m.buffer[..n])));
  }

  lemma PrepFailedKeeps(s: State, r: Reservation, permanent: bool)
    requires s.task.Idle?
    ensures Pending(PrepFailed(s, r, permanent)) == Queue(s.mail)
  {
    PostingPending(s, s.mail, PrepFailed(s, r, permanent).reservation.value);
  }

  lemma PrepBeginKeeps(cfg: Config, s: State, ok: bool, permanent: bool)
    requires Inv(s)
    ensures Pending(PrepBegin(cfg, s, ok, permanent)) == Pending(s)
  {
    if s.reservation.Some? && s.task.Idle? && s.reservation.value.prep.NotPreparing? {
      var r := s.reservation.value;
      PostingPending(s, s.mail, r);
      PrepFailedKeeps(s, r.(ownedAttemptFailed := false), permanent);
      PrepFailedKeeps(s, r, permanent || cfg.outbox.DisabledStore?);
      PrepLoopKeeps(s, r, false);
    }
  }

  lemma PrepPostedKeeps(s: State, r: Reply, expired: bool, permanent: bool)
    requires Inv(s) && PrepCarried(s) != []
    ensures Pending(s) == PrepCarried(s) + Queue(s.mail)
    ensures Pending(PrepPosted(s, r, expired, permanent)) == if r.Accepted? then Queue(s.mail) else Pending(s)
  {
    var v := s.reservation.value;
    PostingPending(s, s.mail, v);
    if r.Accepted? {
      PrepLoopKeeps(s, v.(replay := None), expired);
    } else {
      RequeueQueue(s.mail, v.prep.batch);
      PrepFailedKeeps(s.(mail := Requeue(s.mail, v.prep.batch)), v.(replay := Some(v.prep.batch)), permanent);
    }
  }

  lemma PrepConfirmedKeeps(s: State, ok: bool, permanent: bool)
    requires Inv(s)
    ensures Pending(PrepConfirmed(s, ok, permanent)) == Pending(s)
  {
    if s.reservation.Some? && s.reservation.value.prep.Confirming? {
      var r := s.reservation.value;
      PostingPending(s, s.mail, r);
      PrepFailedKeeps(s, r, permanent);
      PostingPending(s, s.mail, r.(state := Prepared, prep := NotPreparing));
    }
  }

  /** A release happens only when nothing is owed; it then owes exactly the numbered held events. */
  lemma ReleaseKeeps(cfg: Config, s: State, p: Proof)
    requires Inv(s) && CanRelease(cfg, s, p)
    ensures Pending(s) == []
    ensures Pending(Release(cfg, s, p)) == Numbered(s.reservation.value.held, ReleaseCursor(s.reservation.value, p))
  {
    assert s.task.Idle?;
    PostingPending(s, s.mail, s.reservation.value);
    NoPreparation(Release(cfg, s, p));
  }

  lemma PendingSplit(s: State)
    ensures Pending(s) == Owned(s) + RangePart(s.mail.range)
  {
  }

  lemma EmitOwned(cfg: Config, s: State, body: Body, who: Attribution)
    requires !s.health.closed && s.reservation.None?
    ensures var t := Emit(cfg, s, body, who);
            if WillFold(cfg, s, NewItem(s, body, who))
            then Owned(t) == Owned(s) && t.mail.range == Fold(s.mail.range, s.mail.seqNo + 1)
            else Owned(t) == Owned(s) + [NewItem(s, body, who)] && t.mail.range == s.mail.range
  {
  }

  lemma HeldEmitKeeps(cfg: Config, s: State, body: Body, who: Attribution)
    requires s.health.closed || s.reservation.Some?
    ensures Pending(Emit(cfg, s, body, who)) == Pending(s) && Emit(cfg, s, body, who).mail == s.mail
  {
  }

  /** Events that only move latches and modes, start a flush, or begin or confirm a preparation. */
  predicate QuietEvent(e: Event) {
    !e.EmitFrame? && !e.PostAnswer? && !e.StoreAnswer? && !e.PrepareAnswer? && !e.ReleaseCalled?
  }

  lemma QuietKeeps(cfg: Config, w: World, e: Event)
    requires Inv(w.s) && QuietEvent(e)
    ensures var t := Step(cfg, w, e);
            Pending(t.s) == Pending(w.s) && t.stored == w.stored && t.delivered == w.delivered && t.issued == w.issued
                && t.server == w.server
  {
    match e
    case Flush(already) => StartFlushKeeps(w.s, already);
    case PrepareCalled(ok, permanent) => PrepBeginKeeps(cfg, w.s, ok, permanent);
    case PrepareConfirmed(ok, permanent) => PrepConfirmedKeeps(w.s, ok, permanent);
    case _ =>
  }
}
