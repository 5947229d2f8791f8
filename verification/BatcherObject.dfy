/** The batcher object. Its public operations and the code between two awaits change the fields as
    the machine's functions say, and its flush loops, run without interference, end where the
    machine's drain ends. */
module BatcherObject {
  import opened Options
  import opened BatcherTypes
  import opened BatcherMachine
  import opened BatcherRuns
  import opened BatcherInvariant
  import opened BatcherPending
  import opened BatcherDrain
  import opened BatcherClose

  /** The outbox's answer to the spill mark that ends a flush, if it asked for one. */
  function Marked(s: State, mark: StoreOutcome): State {
    if s.task.AwaitSpillMark? then StoreSettled(s, mark, 0) else s
  }

  /** How many posts have been answered when the flush ends. */
  function Answered(cfg: Config, w: World, api: Api, clock: Clock, k: nat): (n: nat)
    requires Inv(w.s)
    ensures n >= k
    decreases Owing(w.s), Plainly(Pending(w.s)), SplitRoom(w.s), Phase(w.s.task), PostOutstanding(w.s)
  {
    if !PostOutstanding(w.s) then k
    else
      var r := api(k, Msgs(Outstanding(w.s.task)));
      StepOk(cfg, w, PostAnswer(r, false, clock(k)));
      SettleLess(cfg, w.s, r, clock(k));
      var next := Answer(cfg, w, api, clock, k);
      if !PostOutstanding(next.s) then k + 1 else Answered(cfg, next, api, clock, k + 1)
  }

  /** The end of a flush: the world it leaves and how many calls had then been answered. */
  datatype Destiny = Destiny(world: World, answers: nat)

  /** Anything about the end that the world and the number of answered posts decide. */
  type Fate = (World, nat) -> Destiny

  /** Answering an outstanding post does not change it, and no post is ever taken back. */
  ghost predicate Invariant(cfg: Config, api: Api, clock: Clock, fate: Fate) {
    && (forall w: World, k: nat {:trigger Answer(cfg, w, api, clock, k)} ::
          Inv(w.s) && PostOutstanding(w.s) ==> fate(w, k) == fate(Answer(cfg, w, api, clock, k), k + 1))
    && (forall w: World, k: nat :: fate(w, k).answers >= k)
  }

  /** Where a flush ends that is in world `w` with `k` posts answered. */
  function Ending(cfg: Config, api: Api, clock: Clock): Fate {
    (w: World, k: nat) => if Inv(w.s) then Destiny(Drain(cfg, w, api, clock, k), Answered(cfg, w, api, clock, k))
        else Destiny(w, k)
  }

  lemma EndingInvariant(cfg: Config, api: Api, clock: Clock)
    ensures Invariant(cfg, api, clock, Ending(cfg, api, clock))
  {
    forall w: World, k: nat | Inv(w.s) && PostOutstanding(w.s)
      ensures Ending(cfg, api, clock)(w, k) == Ending(cfg, api, clock)(Answer(cfg, w, api, clock, k), k + 1)
    {
      StepOk(cfg, w, PostAnswer(api(k, Msgs(Outstanding(w.s.task))), false, clock(k)));
    }
  }

  predicate StoreOutstanding(s: State) {
    s.task.AwaitSpillMark? || s.task.AwaitFlushMark? || s.task.AwaitRange? || s.task.AwaitSegment? || s.task.AwaitClear?
  }

  /** The outbox answers its `k`-th call. */
  function StoreStep(cfg: Config, w: World, store: nat -> StoreOutcome, clock: Clock, k: nat): World {
    Step(cfg, w, StoreAnswer(store(k), clock(k)))
  }

  /** How many answers of the outbox a spilled flush can still take. */
  function StoreRank(s: State): nat {
    match s.task
    case AwaitFlushMark => |s.mail.buffer| + 4
    case AwaitRange(_) => |s.mail.buffer| + 3
    case AwaitSegment(_) => |s.mail.buffer| + 2
    case AwaitClear => 1
    case AwaitSpillMark => 1
    case _ => 0
  }

  lemma StoreStepShrinks(cfg: Config, w: World, store: nat -> StoreOutcome, clock: Clock, k: nat)
    requires StoreOutstanding(w.s)
    ensures StoreRank(StoreStep(cfg, w, store, clock, k).s) < StoreRank(w.s)
  {
  }

  /** Let a spilled flush run: answer its outbox calls until none is outstanding. */
  function SpillDrain(cfg: Config, w: World, store: nat -> StoreOutcome, clock: Clock, k: nat): (d: Destiny)
    ensures d.answers >= k
    decreases StoreRank(w.s)
  {
    if !StoreOutstanding(w.s) then Destiny(w, k)
    else
      StoreStepShrinks(cfg, w, store, clock, k);
      SpillDrain(cfg, StoreStep(cfg, w, store, clock, k), store, clock, k + 1)
  }

  ghost predicate StoreInvariant(cfg: Config, store: nat -> StoreOutcome, clock: Clock, fate: Fate) {
    forall w: World, k: nat {:trigger StoreStep(cfg, w, store, clock, k)} ::
      StoreOutstanding(w.s) ==> fate(w, k) == fate(StoreStep(cfg, w, store, clock, k), k + 1)
  }

  /** What the answer to a segment's write leads to. */
  lemma SegmentSettled(s: State, n: nat, o: StoreOutcome, now: int)
    requires s.task.Idle? && 0 < n <= |s.mail.buffer| && n == PrefixCount(s.mail)
    requires !s.health.closed && s.health.spilled && s.reservation.None?
    ensures SpillLoop(s).task == AwaitSegment(s.mail.buffer[..n])
    ensures StoreSettled(SpillLoop(s), o, now) ==
            if o.Threw? then SpillEnd(s.(health := NoteStoreFailure(s.health, now)))
            else SpillLoop(s.(mail := s.mail.(buffer := s.mail.buffer[n..])))
  {
    assert s.mail.buffer[..n] + s.mail.buffer[n..] == s.mail.buffer;
  }

  lemma LoopEnds(s: State)
    requires PrefixCount(s.mail) == 0
    ensures SpillLoop(s) == SpillEnd(s)
  {
  }

  /** The last write, told from the tails before and after it. */
  lemma TailEnds(cfg: Config, t: Tail, u: Tail, store: nat -> StoreOutcome, k: nat, disabled: bool)
    requires MailOk(t.mail) && u == FinalSpill(cfg, t, store, k, disabled)
    ensures Records(t, u) && (u.kept ==> Queue(u.mail) == [] && !u.unclean)
    ensures Queue(u.mail) != [] && !u.unclean <==>
            HasWork(t.mail) && !t.unclean && (!cfg.outbox.UsableStore? || store(k).Threw?)
  {
    FinalSpillRecords(cfg, t, store, k, disabled);
  }

  /** What the reactions do does not depend on where the coroutine was suspended. */
  lemma EndBisectAnyTask(cfg: Config, s: State, k: Task, remaining: seq<Item>, progressed: bool, now: int)
    ensures EndBisect(cfg, s.(task := k), remaining, progressed, now) == EndBisect(cfg, s, remaining, progressed, now)
  {
  }

  lemma BisectAnyTask(cfg: Config, s: State, k: Task, batch: seq<Item>, lo: nat, hi: nat, posts: nat, progressed: bool,
      now: int)
    requires lo < hi <= |batch|
    ensures Bisect(cfg, s.(task := k), batch, lo, hi, posts, progressed, now)
              == Bisect(cfg, s, batch, lo, hi, posts, progressed, now)
  {
    EndBisectAnyTask(cfg, s, k, batch[lo..], progressed, now);
    EndBisectAnyTask(cfg, Trip(s, BisectBudget), k, [], progressed, now);
    assert Trip(s.(task := k), BisectBudget) == Trip(s, BisectBudget).(task := k);
  }

  lemma OversizeAnyTask(s: State, k: Task, batch: seq<Item>)
    requires |batch| > 0
    ensures HandleOversize(s.(task := k), batch) == HandleOversize(s, batch)
  {
  }

  lemma HandleFailureAnyTask(cfg: Config, s: State, k: Task, batch: seq<Item>, v: Verdict, now: int)
    requires |batch| > 0
    ensures HandleFailure(cfg, s.(task := k), batch, v, now) == HandleFailure(cfg, s, batch, v, now)
  {
    if v == Oversize { OversizeAnyTask(s, k, batch); }
    if v == Permanent && |batch| > 1 { BisectAnyTask(cfg, s, k, batch, 0, |batch|, 0, false, now); }
  }

  lemma WireSizeNext(items: seq<Item>, n: nat)
    requires n < |items|
    ensures WireSize(items[..n + 1]) == WireSize(items[..n]) + items[n].bytes + 1
  {
    assert items[..n + 1][..n] == items[..n];
  }

  /** The longest head prefix within the count limit and the byte cap, and at least one item. */
  method PrefixLength(items: seq<Item>, limit: nat) returns (n: nat)
    ensures n == TakeCount(items, limit, 0)
  {
    var total := FRAMING_BYTES;
    n := 0;
    while n < |items|
      invariant n <= |items| && total == WireSize(items[..n])
      invariant TakeCount(items, limit, n) == TakeCount(items, limit, 0)
    {
      if n >= limit { break; }
      WireSizeNext(items, n);
      var next := total + items[n].bytes + 1;
      if n > 0 && next > MAX_BATCH_BYTES { break; }
      total := next;
      n := n + 1;
    }
  }

  /** The held events with the seqs after the cursor. */
  method NumberHeld(held: seq<HeldEvent>, cursor: nat) returns (items: seq<Item>)
    ensures items == Numbered(held, cursor)
  {
    var n := cursor;
    items := [];
    for i := 0 to |held|
      invariant n == cursor + i && items == Numbered(held[..i], cursor)
    {
      assert held[..i + 1][..i] == held[..i];
      n := n + 1;
      var m := Msg(n, held[i].body, held[i].who);
      items := items + [Item(m, MessageBytes(m), false)];
    }
    assert held[..|held|] == held;
  }

  /** How one probe leaves the search: a smaller window, or the end. */
  datatype Found = Narrowed(lo: nat, hi: nat, progressed: bool) | Ended(remaining: seq<Item>, progressed: bool)

  function ProbeFinds(batch: seq<Item>, lo: nat, hi: nat, progressed: bool, r: Reply): Found
    requires hi - lo > 1 && hi <= |batch|
  {
    if r.Accepted? then Narrowed(Mid(lo, hi), hi, true)
    else match Classify(r)
      case Fatal => Ended([], progressed)
      case Permanent => Narrowed(lo, Mid(lo, hi), progressed)
      case _ => Ended(batch[lo..], progressed)
  }

  function MarkerFinds(batch: seq<Item>, lo: nat, progressed: bool, r: Reply): Found
    requires lo < |batch|
  {
    if r.Accepted? then Ended(batch[lo + 1..], true)
    else if Classify(r) == Transient
        then Ended([Tombstone(batch[lo], MessageDropped, PayloadRejected)] + batch[lo + 1..], progressed)
    else Ended([], progressed)
  }

  function AfterAnswer(s: State, r: Reply, reason: TripReason): State {
    if !r.Accepted? && Classify(r) == Fatal then Trip(s, reason) else s
  }

  /** The window a probe leaves is smaller and within its bound. */
  lemma ProbeWindow(batch: seq<Item>, lo: nat, hi: nat, n: nat, progressed: bool, r: Reply)
    requires hi - lo > 1 && hi <= |batch| && ItemsOk(batch) && SearchBound(|batch|, hi - lo, n)
    ensures var f := ProbeFinds(batch, lo, hi, progressed, r);
            if f.Narrowed? then f.lo < f.hi <= |batch| && f.hi - f.lo < hi - lo
                && SearchBound(|batch|, f.hi - f.lo, n + 1)
            else ItemsOk(f.remaining)
  {
    SearchBoundHalves(|batch|, hi - lo, hi - Mid(lo, hi), n);
    SearchBoundHalves(|batch|, hi - lo, Mid(lo, hi) - lo, n);
  }

  class MessageBatcher {
    const cfg: Config
    const api: Api
    const clock: Clock
    /** The answer to a spill mark asked for after `k` posts, and to the `k`-th call of spilled flushes. */
    const marks: nat -> StoreOutcome
    const store: nat -> StoreOutcome
    var seqNo: nat
    var buffer: seq<Item>
    var split: Option<nat>
    var range: Option<Range>
    var health: Health
    var reservation: Option<Reservation>
    /** How many posts the api has answered, and how many calls the outbox. */
    var posts: nat
    var writes: nat
    /** The history around the batcher; its state component is not used. */
    ghost var past: World

    ghost function View(): State
      reads this
    {
      State(Mail(seqNo, buffer, split, range), health, reservation, Idle)
    }

    constructor (cfg: Config, api: Api, clock: Clock, marks: nat -> StoreOutcome, store: nat -> StoreOutcome,
        lastSeq: nat)
      ensures View() == Init(lastSeq) && Inv(View()) && posts == 0 && past == Start(lastSeq)
      ensures this.cfg == cfg && this.api == api && this.clock == clock && this.marks == marks && this.store == store
    {
      this.cfg, this.api, this.clock, this.marks, this.store := cfg, api, clock, marks, store;
      seqNo, buffer, split, range, posts, writes := lastSeq, [], None, None, 0, 0;
      health, reservation := Health(0, None, None, false, false, false), None;
      past := Start(lastSeq);
    }

    /** Remove the longest head prefix that fits a post. */
    method TakePrefix() returns (batch: seq<Item>)
      modifies this`buffer
      ensures var n := PrefixCount(Mail(seqNo, old(buffer), split, range));
              batch == old(buffer)[..n] && buffer == old(buffer)[n..]
    {
      var n := PrefixLength(buffer, if split.Some? then split.value else |buffer|);
      batch := buffer[..n];
      buffer := buffer[n..];
    }

    /** The sum of the buffered sizes. */
    method SumBuffered() returns (total: nat)
      ensures total == BufferedBytes(buffer)
    {
      total := 0;
      for i := 0 to |buffer|
        invariant total == BufferedBytes(buffer[..i])
      {
        assert buffer[..i + 1][..i] == buffer[..i];
        total := total + buffer[i].bytes;
      }
      assert buffer[..|buffer|] == buffer;
    }

    method FoldIntoPendingRange(n: nat)
      modifies this`range
      ensures range == Fold(old(range), n)
    {
      if range.None? {
        range := Some(Range(n, n));
        return;
      }
      if n < range.value.first { range := Some(range.value.(first := n)); }
      if n > range.value.last { range := Some(range.value.(last := n)); }
    }

    /** Number and buffer a frame, or hold it while reserved; `refused` when a reservation cannot. */
    method Emit(body: Body, who: Attribution) returns (refused: bool)
      modifies this
      ensures View() == BatcherMachine.Emit(cfg, old(View()), body, who) && posts == old(posts) && past == old(past)
      ensures refused <==> !old(health).closed && old(reservation).Some? && reservation.value.state == Failed
    {
      if health.closed { return false; }
      if reservation.None? { seqNo := seqNo + 1; }
      var item := Measured(Msg(seqNo, body, who));
      if reservation.Some? {
        var r := reservation.value;
        var bytes := item.bytes + 10;
        if r.state == Failed { return true; }
        if r.bytes + bytes > cfg.spillBufferBytes {
          reservation := Some(r.(state := Failed, aborted := true));
          return true;
        }
        reservation := Some(r.(held := r.held + [HeldEvent(item.msg.body, item.msg.who, bytes)], bytes :=
            r.bytes + bytes));
        return false;
      }
      var held := SumBuffered();
      if health.spilled && |buffer| > 0 && held + item.bytes > cfg.spillBufferBytes {
        FoldIntoPendingRange(item.msg.seqNo);
      } else {
        buffer := buffer + [item];
      }
      refused := false;
    }

    method Rearm()
      modifies this`health
      ensures View() == BatcherMachine.Rearm(old(View()))
    {
      if reservation.Some? || !health.spilled || health.closed { return; }
      health := health.(spilled := false, failures := 0, failingSince := None);
    }

    method ReserveCandidateTransport() returns (ok: bool)
      modifies this`reservation
      ensures View() == Reserve(cfg, old(View())) && (ok <==> CanReserve(cfg, old(View())))
    {
      if reservation.Some? || health.closed || health.trip.Some? || cfg.generation <= 0
          || seqNo > MAX_SEQ { return false; }
      reservation := Some(Reservation(seqNo, Held, false, [], 0, false, false, None, NotPreparing));
      ok := true;
    }

    /** Resume numbering from a server cursor: the held events get the seqs after it, in order. */
    method ReleaseReservation(p: Proof) returns (ok: bool)
      modifies this
      ensures View() == Release(cfg, old(View()), p) && (ok <==> CanRelease(cfg, old(View()), p))
    {
      if reservation.None? { return false; }
      var r := reservation.value;
      if p.viaGate && (p.cursor < 0 || p.cursor > MAX_SEQ) { return false; }
      var cursor := if p.viaGate && !r.submitted && p.cursor < r.tail then r.tail else p.cursor;
      if r.state != Prepared || health.closed || health.trip.Some? || r.aborted || r.replay.Some? || |buffer| != 0
          || range.Some?
         || cfg.outbox.DisabledStore? || !p.drained || p.generation != cfg.generation || p.generation <= 0 || !p.settled
         || cursor < r.tail || cursor > MAX_SEQ || cursor + |r.held| > MAX_SEQ { return false; }
      var items := NumberHeld(r.held, cursor);
      seqNo, buffer, split, range := cursor + |r.held|, items, None, None;
      reservation := None;
      health := health.(spilled := false, failures := 0, failingSince := None);
      ok := true;
    }

    /** Materialise the next chunk of the dropped range at the head of the buffer. */
    method RefillPendingRangeChunk()
      modifies this`buffer, this`range
      ensures View().mail == Refill(old(View()).mail)
    {
      if range.None? || range.value.first > range.value.last { return; }
      var start := range.value.first;
      var end := ChunkEnd(range.value);
      var items: seq<Item> := [];
      for n := start to end + 1
        invariant items == RangeItems(start, n - start)
      {
        items := items + [RangeItem(n)];
      }
      buffer := items + buffer;
      range := if end >= range.value.last then None else Some(Range(end + 1, range.value.last));
    }

    // ----- the network flush

    ghost function Here(s: State): World
      reads this
    {
      past.(s := s)
    }

    /** One request to the api. */
    method Post(batch: seq<Item>) returns (r: Reply, now: int)
      modifies this`posts, this`past
      ensures posts == old(posts) + 1 && r == api(old(posts), Msgs(batch)) && now == clock(old(posts))
      ensures past == SendSettled(old(past), batch, r, false)
    {
      r, now := api(posts, Msgs(batch)), clock(posts);
      past := SendSettled(past, batch, r, false);
      posts := posts + 1;
    }

    method TripBreaker(reason: TripReason)
      modifies this`health, this`reservation
      ensures View() == Trip(old(View()), reason)
    {
      if health.trip.Some? { return; }
      health := health.(trip := Some(reason));
      if reservation.Some? { reservation := Some(reservation.value.(state := Failed, aborted := true)); }
    }

    /** Count a transient failure; after long enough, spill or trip. */
    method NoteTransientFailure(now: int)
      modifies this`health, this`reservation
      ensures View() == Marked(NoteTransient(cfg, old(View()), now), marks(posts))
    {
      health := health.(failures := health.failures + 1);
      if health.failingSince.None? { health := health.(failingSince := Some(now)); }
      if now - health.failingSince.value < cfg.tripMs { return; }
      if !cfg.outbox.UsableStore? {
        TripBreaker(Unreachable);
      } else if !health.spilled && health.trip.None? {
        if !marks(posts).Threw? {
          health := health.(spilled := true, failures := 0, failingSince := None);
        } else if !health.aborted {
          TripBreaker(NoOutbox);
        }
      }
    }

    /** Nothing interferes with this flush. */
    ghost predicate Free()
      reads this
    {
      Ready(View()) && reservation.None? && !health.aborted
    }

    /** The search window `[lo, hi)` of a batch under the byte cap, after `n` probes. */
    ghost predicate Searching(batch: seq<Item>, lo: nat, hi: nat, n: nat)
      reads this
    {
      && Free() && health.trip.None? && ItemsOk(batch) && CountBounded(batch)
      && lo < hi <= |batch| && SearchBound(|batch|, hi - lo, n)
    }

    /** Post the left half of the window. */
    method Probe(batch: seq<Item>, lo: nat, hi: nat, progressed: bool) returns (f: Found, last: int)
      requires hi - lo > 1 && hi <= |batch|
      modifies this`posts, this`past, this`health, this`reservation
      ensures var half := batch[lo..Mid(lo, hi)];
              var r := api(old(posts), Msgs(half));
              && posts == old(posts) + 1 && last == clock(old(posts)) && past == SendSettled(old(past), half, r, false)
              && f == ProbeFinds(batch, lo, hi, progressed, r) && View() == AfterAnswer(old(View()), r, ApiRejected)
    {
      var mid := Mid(lo, hi);
      var r;
      r, last := Post(batch[lo..mid]);
      if r.Accepted? { return Narrowed(mid, hi, true), last; }
      match Classify(r)
      case Fatal =>
        TripBreaker(ApiRejected);
        f := Ended([], progressed);
      case Permanent => f := Narrowed(lo, mid, progressed);
      case _ => f := Ended(batch[lo..], progressed);
    }

    /** Post the marker of the isolated message. */
    method PostMarker(batch: seq<Item>, lo: nat, progressed: bool) returns (f: Found, last: int)
      requires lo < |batch|
      modifies this`posts, this`past, this`health, this`reservation
      ensures var marker := Tombstone(batch[lo], MessageDropped, PayloadRejected);
              var r := api(old(posts), Msgs([marker]));
              && posts == old(posts) + 1 && last == clock(old(posts))
                    && past == SendSettled(old(past), [marker], r, false)
              && f == MarkerFinds(batch, lo, progressed, r)
              && View() == if r.Accepted? || Classify(r) == Transient then old(View())
                    else Trip(old(View()), MarkerRejected(marker.msg.seqNo))
    {
      var marker := Tombstone(batch[lo], MessageDropped, PayloadRejected);
      var r;
      r, last := Post([marker]);
      if r.Accepted? { return Ended(batch[lo + 1..], true), last; }
      if Classify(r) == Transient { return Ended([marker] + batch[lo + 1..], progressed), last; }
      TripBreaker(MarkerRejected(marker.msg.seqNo));
      f := Ended([], progressed);
    }

    /** One round of the search, from world `w` to world `end`. The budget of posts is never used up. */
    method Narrow(batch: seq<Item>, lo: nat, hi: nat, n: nat, progressed: bool, ghost now: int, ghost fate: Fate,
        ghost w: World)
      returns (f: Found, last: int, ghost end: World)
      requires Searching(batch, lo, hi, n) && hi - lo > 1 && Invariant(cfg, api, clock, fate)
      requires w == Here(BatcherMachine.Bisect(cfg, View(), batch, lo, hi, n, progressed, now))
      modifies this`posts, this`past, this`health, this`reservation
      ensures fate(end, posts) == fate(w, old(posts)) && posts >= old(posts)
      ensures f.Narrowed? ==> Searching(batch, f.lo, f.hi, n + 1) && f.hi - f.lo < hi - lo
      ensures f.Ended? ==> Free() && ItemsOk(f.remaining)
      ensures f.Narrowed? ==> end == Here(BatcherMachine.Bisect(cfg, View(), batch, f.lo, f.hi, n + 1, f.progressed,
                last))
      ensures f.Ended? ==> end == Here(EndBisect(cfg, View(), f.remaining, f.progressed, last))
    {
      BudgetSuffices(batch, hi - lo, n);
      assert n < MAX_BISECT_POSTS;
      ghost var r := api(posts, Msgs(batch[lo..Mid(lo, hi)]));
      end := ProbeWorld(cfg, past, View(), batch, lo, hi, n, progressed, r, clock(posts));
      ProbeDrains(cfg, past, View(), batch, lo, hi, n, progressed, now, api, clock, posts, fate, w, end);
      ProbeWindow(batch, lo, hi, n, progressed, r);
      f, last := Probe(batch, lo, hi, progressed);
    }

    /** Isolate one poisoned message; returns what still needs delivering and whether anything landed.
        `last` is when the last answer came. */
    method Bisect(batch: seq<Item>, now: int, ghost fate: Fate, ghost start: World)
      returns (remaining: seq<Item>, progressed: bool, last: int, ghost end: World)
      requires Free() && health.trip.None? && |batch| >= 2 && ItemsOk(batch) && CountBounded(batch)
      requires Invariant(cfg, api, clock, fate)
                && start == Here(BatcherMachine.Bisect(cfg, View(), batch, 0, |batch|, 0, false, now))
      modifies this`posts, this`past, this`health, this`reservation
      ensures Free() && ItemsOk(remaining) && end == Here(EndBisect(cfg, View(), remaining, progressed, last))
      ensures fate(end, posts) == fate(start, old(posts)) && posts >= old(posts)
    {
      var lo: nat, hi: nat, n: nat := 0, |batch|, 0;
      progressed, last, end := false, now, start;
      assert (|batch| - 1) * Pow2(0) < |batch|;
      while hi - lo > 1
        invariant Searching(batch, lo, hi, n)
        invariant end == Here(BatcherMachine.Bisect(cfg, View(), batch, lo, hi, n, progressed, last))
        invariant fate(end, posts) == fate(start, old(posts)) && posts >= old(posts)
        decreases hi - lo
      {
        var f;
        f, last, end := Narrow(batch, lo, hi, n, progressed, last, fate, end);
        if f.Ended? { return f.remaining, f.progressed, last, end; }
        lo, hi, progressed, n := f.lo, f.hi, f.progressed, n + 1;
      }
      remaining, progressed, last, end := Isolate(batch, lo, n, progressed, last, fate, end);
    }

    /** The window holds one message: replace it. */
    method Isolate(batch: seq<Item>, lo: nat, ghost n: nat, progressed: bool, ghost now: int, ghost fate: Fate,
        ghost w: World)
      returns (remaining: seq<Item>, landed: bool, last: int, ghost end: World)
      requires Searching(batch, lo, lo + 1, n) && Invariant(cfg, api, clock, fate)
      requires w == Here(BatcherMachine.Bisect(cfg, View(), batch, lo, lo + 1, n, progressed, now))
      modifies this`posts, this`past, this`health, this`reservation
      ensures Free() && ItemsOk(remaining) && end == Here(EndBisect(cfg, View(), remaining, landed, last))
      ensures fate(end, posts) == fate(w, old(posts)) && posts >= old(posts)
    {
      ghost var r := api(posts, Msgs([Tombstone(batch[lo], MessageDropped, PayloadRejected)]));
      end := MarkerWorld(cfg, past, View(), batch, lo, progressed, r, clock(posts));
      MarkerDrains(cfg, past, View(), batch, lo, n, progressed, now, api, clock, posts, fate, w, end);
      MarkerRemains(batch, lo, progressed, r);
      var f;
      f, last := PostMarker(batch, lo, progressed);
      remaining, landed := f.remaining, f.progressed;
    }

    /** React to a failed batch. The flush goes on from the loop head, or stops. */
    method HandleFailure(batch: seq<Item>, v: Verdict, now: int, ghost fate: Fate, ghost w: World)
        returns (stop: bool, ghost end: World)
      requires Free() && health.trip.None? && |batch| > 0 && ItemsOk(batch) && CountBounded(batch)
      requires Invariant(cfg, api, clock, fate) && w == Here(BatcherMachine.HandleFailure(cfg, View(), batch, v, now))
      modifies this`buffer, this`split, this`posts, this`past, this`health, this`reservation
      ensures fate(end, posts) == fate(w, old(posts)) && posts >= old(posts)
      ensures if stop then Stopped(end) else Free() && end == Here(Continue(View()))
    {
      end := w;
      if v != Transient && |batch| == 1 && batch[0].tombstoned {
        TripBreaker(MarkerRejected(batch[0].msg.seqNo));
        return true, end;
      }
      match v
      case Fatal =>
        buffer := batch + buffer;
        TripBreaker(ApiRejected);
        stop := true;
      case Oversize =>
        SplitOversize(batch);
        stop := false;
      case Permanent =>
        if |batch| == 1 {
          var marker := Tombstone(batch[0], MessageDropped, PayloadRejected);
          RequeueOk(View().mail, [marker]);
          buffer := [marker] + buffer;
          stop := false;
        } else {
          stop, end := SearchAndGoOn(batch, now, fate, w);
        }
      case Transient =>
        buffer := batch + buffer;
        NoteTransientFailure(now);
        stop := true;
    }

    /** Halve the next request, or mark the one message that is too large. */
    method SplitOversize(batch: seq<Item>)
      requires Free() && |batch| > 0 && ItemsOk(batch)
      modifies this`buffer, this`split, this`health
      ensures Free() && Continue(View()) == HandleOversize(old(View()), batch)
    {
      RequeueOk(View().mail, batch);
      if |batch| > 1 {
        split := Some(|batch| / 2);
        buffer := batch + buffer;
        health := health.(failures := 0, failingSince := None);
      } else {
        assert batch == [batch[0]];
        var marker := Tombstone(batch[0], MessageTruncated, RejectedTooLarge);
        RequeueOk(View().mail, [marker]);
        buffer := [marker] + buffer;
        split := None;
      }
    }

    /** The flush is over: nothing is outstanding but, at most, the spill mark, which has been answered. */
    ghost predicate Stopped(end: World)
      reads this
    {
      !PostOutstanding(end.s) && View() == Marked(end.s, marks(posts)) && past.(s := end.s) == end
    }

    /** Bisect a batch, put back what is left, and go on if anything landed. */
    method SearchAndGoOn(batch: seq<Item>, now: int, ghost fate: Fate, ghost w: World)
        returns (stop: bool, ghost end: World)
      requires Free() && health.trip.None? && |batch| >= 2 && ItemsOk(batch) && CountBounded(batch)
      requires Invariant(cfg, api, clock, fate)
                && w == Here(BatcherMachine.Bisect(cfg, View(), batch, 0, |batch|, 0, false, now))
      modifies this`buffer, this`posts, this`past, this`health, this`reservation
      ensures fate(end, posts) == fate(w, old(posts)) && posts >= old(posts)
      ensures if stop then Stopped(end) else Free() && end == Here(Continue(View()))
    {
      var remaining, progressed, last;
      remaining, progressed, last, end := Bisect(batch, now, fate, w);
      RequeueOk(View().mail, remaining);
      buffer := remaining + buffer;
      if health.trip.Some? { return true, end; }
      if !progressed {
        NoteTransientFailure(last);
        return true, end;
      }
      health := health.(failures := 0, failingSince := None);
      stop := false;
    }

    /** The network flush: prefix after prefix, until nothing is left or an answer ends it. */
    method DoFlush(ghost fate: Fate) returns (ghost end: World)
      requires Free() && Invariant(cfg, api, clock, fate)
      modifies this`buffer, this`range, this`split, this`posts, this`past, this`health, this`reservation
      ensures fate(end, posts) == fate(old(Here(Continue(View()))), old(posts)) && Stopped(end)
    {
      end := Here(Continue(View()));
      ghost var goal := fate(end, posts);
      while (|buffer| > 0 || range.Some?) && health.trip.None?
        invariant Free() && end == Here(Continue(View())) && fate(end, posts) == goal && posts <= goal.answers
        decreases goal.answers - posts
      {
        var stop;
        stop, end := FlushPrefix(fate, end);
        if stop { return; }
      }
    }

    /** Refill a drained buffer from the range, and take the next prefix. */
    method NextBatch() returns (batch: seq<Item>)
      requires Free() && (|buffer| > 0 || range.Some?)
      modifies this`buffer, this`range
      ensures var m := RefillIfDrained(old(View()).mail);
              var n := PrefixCount(m);
              batch == m.buffer[..n] && View() == old(View()).(mail := m.(buffer := m.buffer[n..]))
      ensures Free() && |batch| > 0 && ItemsOk(batch) && CountBounded(batch)
    {
      RefillOk(View().mail);
      PrefixOk(RefillIfDrained(View().mail));
      if |buffer| == 0 { RefillPendingRangeChunk(); }
      batch := TakePrefix();
    }

    /** Post the next prefix; `after` is the world its answer leads to. */
    method PostNext(ghost fate: Fate, ghost w: World) returns (batch: seq<Item>, r: Reply, now: int, ghost after: World)
      requires Free() && health.trip.None? && (|buffer| > 0 || range.Some?)
      requires Invariant(cfg, api, clock, fate) && w == Here(Continue(View()))
      modifies this`buffer, this`range, this`posts, this`past
      ensures Free() && health.trip.None? && |batch| > 0 && ItemsOk(batch) && CountBounded(batch)
      ensures fate(after, posts) == fate(w, old(posts)) && posts == old(posts) + 1
      ensures after == Here(AfterPost(cfg, View(), batch, r, now))
    {
      PostDrains(cfg, past, View(), api, clock, posts, fate, w);
      after := PostWorld(cfg, past, View(), api, clock, posts);
      batch := NextBatch();
      r, now := Post(batch);
    }

    /** Go on after a success, or handle the failure. */
    method React(batch: seq<Item>, r: Reply, now: int, ghost fate: Fate, ghost w: World)
        returns (stop: bool, ghost end: World)
      requires Free() && health.trip.None? && |batch| > 0 && ItemsOk(batch) && CountBounded(batch)
      requires Invariant(cfg, api, clock, fate) && w == Here(AfterPost(cfg, View(), batch, r, now))
      modifies this`buffer, this`split, this`posts, this`past, this`health, this`reservation
      ensures fate(end, posts) == fate(w, old(posts)) && posts >= old(posts)
      ensures if stop then Stopped(end) else Free() && end == Here(Continue(View()))
    {
      if r.Accepted? {
        health := health.(failures := 0, failingSince := None);
        split := None;
        return false, w;
      }
      stop, end := HandleFailure(batch, Classify(r), now, fate, w);
    }

    /** The loop body: post the next prefix and react to its answer. */
    method FlushPrefix(ghost fate: Fate, ghost w: World) returns (stop: bool, ghost end: World)
      requires Free() && health.trip.None? && (|buffer| > 0 || range.Some?)
      requires Invariant(cfg, api, clock, fate) && w == Here(Continue(View()))
      modifies this`buffer, this`range, this`split, this`posts, this`past, this`health, this`reservation
      ensures fate(end, posts) == fate(w, old(posts)) && posts > old(posts)
      ensures if stop then Stopped(end) else Free() && end == Here(Continue(View()))
    {
      var batch, r, now, after := PostNext(fate, w);
      stop, end := React(batch, r, now, fate, after);
    }

    /** A network flush that nothing interferes with ends exactly where the machine's drain ends, after
        as many posts. */
    method FlushToNetwork()
      requires Inv(View()) && reservation.None? && health.trip.None? && !health.spilled
      modifies this
      ensures var end := Ending(cfg, api, clock)(old(Step(cfg, Here(View()), Flush(false))), old(posts));
              posts == end.answers && Stopped(end.world)
    {
      ghost var start := Step(cfg, Here(View()), Flush(false));
      EndingInvariant(cfg, api, clock);
      if |buffer| == 0 && range.None? { return; }
      health := health.(aborted := false);
      ghost var end := DoFlush(Ending(cfg, api, clock));
    }

    // ----- the spilled flush

    /** One call to the outbox; a committed append is recorded in the history. */
    method Store(ghost fate: Fate, ghost w: World) returns (o: StoreOutcome, now: int, ghost next: World)
      requires StoreInvariant(cfg, store, clock, fate) && StoreOutstanding(w.s) && w == Here(w.s)
      modifies this`writes, this`past
      ensures o == store(old(writes)) && now == clock(old(writes)) && writes == old(writes) + 1
      ensures next == StoreStep(cfg, w, store, clock, old(writes)) && next == Here(next.s)
                && fate(next, writes) == fate(w, old(writes))
    {
      o, now := store(writes), clock(writes);
      next := StoreStep(cfg, w, store, clock, writes);
      past := next;
      writes := writes + 1;
    }

    method NoteWriteFailure(now: int)
      modifies this`health
      ensures health == NoteStoreFailure(old(health), now)
    {
      if health.spilled {
        health := health.(failures := health.failures + 1);
        if health.failingSince.None? { health := health.(failingSince := Some(now)); }
      }
    }

    /** Write the dropped range as one record and the buffer as byte-capped segments, until something
        fails or interferes. */
    method DoSpillFlush(ghost fate: Fate) returns (ghost end: World)
      requires StoreInvariant(cfg, store, clock, fate) && HasWork(View().mail)
      modifies this`buffer, this`range, this`health, this`writes, this`past
      ensures fate(end, writes) == fate(old(Here(View().(task := AwaitFlushMark))), old(writes)) && end == Here(View())
    {
      var o, now;
      o, now, end := Store(fate, Here(View().(task := AwaitFlushMark)));
      if o.Threw? {
        NoteWriteFailure(now);
        return;
      }
      if range.Some? {
        o, now, end := Store(fate, end);
        if o.Threw? {
          NoteWriteFailure(now);
          return;
        }
        range := None;
      }
      end := SpillSegments(fate, end);
    }

    /** The segment loop and the end of a spilled flush. */
    method SpillSegments(ghost fate: Fate, ghost w: World) returns (ghost end: World)
      requires StoreInvariant(cfg, store, clock, fate) && w == Here(SpillLoop(View()))
      modifies this`buffer, this`health, this`writes, this`past
      ensures fate(end, writes) == fate(w, old(writes)) && end == Here(View())
    {
      end := w;
      var more := |buffer| > 0;
      while more && !health.closed && health.spilled && reservation.None?
        invariant more ==> |buffer| > 0 && end == Here(SpillLoop(View()))
        invariant !more ==> end == Here(SpillEnd(View()))
        invariant fate(end, writes) == fate(w, old(writes))
        decreases |buffer|, more
      {
        more, end := SpillSegment(fate, end);
      }
      end := FinishSpill(fate, end);
    }

    /** Write one segment; false when the loop is over. */
    method SpillSegment(ghost fate: Fate, ghost w: World) returns (more: bool, ghost end: World)
      requires StoreInvariant(cfg, store, clock, fate) && w == Here(SpillLoop(View()))
      requires |buffer| > 0 && !health.closed && health.spilled && reservation.None?
      modifies this`buffer, this`health, this`writes, this`past
      ensures fate(end, writes) == fate(w, old(writes))
      ensures more ==> 0 < |buffer| < old(|buffer|) && end == Here(SpillLoop(View()))
      ensures !more ==> |buffer| <= old(|buffer|) && end == Here(SpillEnd(View()))
    {
      var n, threw;
      n, threw, end := TakeAndStore(fate, w);
      more := n > 0 && !threw && |buffer| > 0;
      if !more && !(n > 0 && threw) { LoopEnds(View()); }
    }

    /** Take the next `n` messages and write them; a failed write puts them back. */
    method TakeAndStore(ghost fate: Fate, ghost w: World) returns (n: nat, threw: bool, ghost end: World)
      requires StoreInvariant(cfg, store, clock, fate) && w == Here(SpillLoop(View()))
      requires !health.closed && health.spilled && reservation.None?
      modifies this`buffer, this`health, this`writes, this`past
      ensures fate(end, writes) == fate(w, old(writes)) && n == PrefixCount(old(View().mail))
      ensures n == 0 ==> View() == old(View()) && end == Here(SpillLoop(View()))
      ensures n > 0 && threw ==> buffer == old(buffer) && end == Here(SpillEnd(View()))
      ensures n > 0 && !threw ==> buffer == old(buffer)[n..] && end == Here(SpillLoop(View()))
    {
      ghost var s := View();
      var batch := TakePrefix();
      n, threw, end := |batch|, false, w;
      if n == 0 { return; }
      var now;
      threw, now, end := StoreSegment(s, n, fate, w);
      if threw {
        buffer := batch + buffer;
        NoteWriteFailure(now);
        assert View() == s.(health := NoteStoreFailure(s.health, now));
      } else {
        assert View() == s.(mail := s.mail.(buffer := s.mail.buffer[n..]));
      }
    }

    /** The write of the first `n` messages. */
    method StoreSegment(ghost s: State, ghost n: nat, ghost fate: Fate, ghost w: World)
      returns (threw: bool, now: int, ghost end: World)
      requires StoreInvariant(cfg, store, clock, fate) && w == Here(SpillLoop(s))
      requires s.task.Idle? && 0 < n <= |s.mail.buffer| && n == PrefixCount(s.mail)
      requires !s.health.closed && s.health.spilled && s.reservation.None?
      modifies this`writes, this`past
      ensures fate(end, writes) == fate(w, old(writes))
      ensures end == Here(if threw then SpillEnd(s.(health := NoteStoreFailure(s.health, now)))
                          else SpillLoop(s.(mail := s.mail.(buffer := s.mail.buffer[n..]))))
    {
      SegmentSettled(s, n, store(writes), clock(writes));
      var o;
      o, now, end := Store(fate, w);
      threw := o.Threw?;
    }

    /** With everything durable, clear the streak and the unclean mark. */
    method FinishSpill(ghost fate: Fate, ghost w: World) returns (ghost end: World)
      requires StoreInvariant(cfg, store, clock, fate) && w == Here(SpillEnd(View()))
      modifies this`health, this`writes, this`past
      ensures fate(end, writes) == fate(w, old(writes)) && end == Here(View())
    {
      end := w;
      if |buffer| == 0 && range.None? {
        health := health.(failures := 0, failingSince := None);
        var _, _, next := Store(fate, w);
        end := next;
      }
    }

    /** A spilled flush that nothing interferes with ends exactly where the machine's spill drain ends. */
    method FlushToOutbox()
      requires reservation.None? && health.trip.None? && health.spilled
      modifies this
      ensures var d := SpillDrain(cfg, old(Step(cfg, Here(View()), Flush(false))), store, clock, old(writes));
              writes == d.answers && Here(View()) == d.world
    {
      ghost var fate: Fate := (w: World, k: nat) => SpillDrain(cfg, w, store, clock, k);
      if |buffer| == 0 && range.None? { return; }
      health := health.(aborted := false);
      ghost var end := DoSpillFlush(fate);
    }

    /** Start a flush to wherever the batcher delivers now. */
    method FlushMessages()
      requires Inv(View())
      modifies this
      ensures Inv(View())
      ensures var start := old(Step(cfg, Here(View()), Flush(false)));
              if old(reservation).Some? || old(health).trip.Some? then View() == old(View())
              else if old(health).spilled then Here(View()) == SpillDrain(cfg, start, store, clock, old(writes)).world
              else Stopped(Ending(cfg, api, clock)(start, old(posts)).world)
    {
      if reservation.Some? || health.trip.Some? { return; }
      ghost var start := Step(cfg, Here(View()), Flush(false));
      StepOk(cfg, Here(View()), Flush(false));
      ghost var k, n := posts, writes;
      if health.spilled {
        FlushToOutbox();
        SpillDrainOk(cfg, start, store, clock, n);
      } else {
        FlushToNetwork();
        DrainOk(cfg, start, api, clock, k);
        StoreSettledOk(Ending(cfg, api, clock)(start, k).world.s, marks(posts), 0);
      }
    }

    /** Buffered messages plus the width of the dropped range. */
    function Owed(): nat
      reads this
    {
      |buffer| + (if range.Some? && range.value.first <= range.value.last then range.value.last - range.value.first + 1
          else 0)
    }

    /** The drain at close: flush while it makes progress, and give up after three attempts that made
        none. It always ends; what it leaves owed was tried in vain that often. */
    method DrainOnClose() returns (failed: nat)
      requires Inv(View())
      modifies this
      ensures Inv(View()) && failed <= CLOSE_MAX_FAILED_ATTEMPTS
      ensures failed < CLOSE_MAX_FAILED_ATTEMPTS ==> Owed() == 0
    {
      failed := 0;
      while failed < CLOSE_MAX_FAILED_ATTEMPTS && (|buffer| > 0 || range.Some?)
        invariant Inv(View()) && failed <= CLOSE_MAX_FAILED_ATTEMPTS
        decreases CLOSE_MAX_FAILED_ATTEMPTS - failed, Owed()
      {
        var before := Owed();
        FlushMessages();
        if Owed() == 0 { break; }
        if Owed() >= before { failed := failed + 1; }
      }
    }

    // ----- the last write

    method CallOutbox() returns (o: StoreOutcome)
      modifies this`writes
      ensures o == store(old(writes)) && writes == old(writes) + 1
    {
      o := store(writes);
      writes := writes + 1;
    }

    ghost function LastTail(mark: bool): Tail
      reads this
    {
      Tail(View().mail, past.stored, mark, false)
    }

    /** Write what is still owed to the outbox; `mark` is the unclean mark it finds and leaves. It only
        records, in order; a kept tail is recorded whole; and something is left without the mark only
        if there was none and none could be set. */
    method FinalSpillOnClose(unclean: bool, disabled: bool) returns (kept: bool, mark: bool)
      requires Inv(View())
      modifies this`buffer, this`range, this`writes, this`past
      ensures LastTail(mark).(kept := kept) ==
              FinalSpill(cfg, old(LastTail(unclean)), store, old(writes), disabled)
      ensures Records(old(LastTail(unclean)), LastTail(mark).(kept := kept))
      ensures kept ==> Queue(View().mail) == [] && !mark
      ensures Queue(View().mail) != [] && !mark <==>
              old(HasWork(View().mail)) && !unclean && (!cfg.outbox.UsableStore? || store(old(writes)).Threw?)
      ensures past == old(past).(stored := past.stored)
    {
      ghost var t, k := LastTail(unclean), writes;
      kept, mark := SpillTail(unclean, disabled);
      TailEnds(cfg, t, LastTail(mark).(kept := kept), store, k, disabled);
    }

    method SpillTail(unclean: bool, disabled: bool) returns (kept: bool, mark: bool)
      modifies this`buffer, this`range, this`writes, this`past
      ensures LastTail(mark).(kept := kept) ==
              FinalSpill(cfg, old(LastTail(unclean)), store, old(writes), disabled)
      ensures past == old(past).(stored := past.stored)
    {
      kept, mark := false, unclean;
      if !cfg.outbox.UsableStore? { return; }
      if |buffer| > 0 || range.Some? {
        var o := CallOutbox();
        if o.Threw? { return; }
        mark := true;
      }
      if range.Some? {
        var o := CallOutbox();
        if o != Stored { return; }
        past := past.(stored := past.stored + Span(range.value));
        range := None;
      }
      kept, mark := SpillTailSegments(mark, disabled);
    }

    /** Write the next `n` messages as one segment; what is not committed goes back. */
    method SpillTailSegment(ghost unclean: bool) returns (n: nat, ok: bool)
      modifies this`buffer, this`writes, this`past
      ensures n == PrefixCount(old(View().mail)) && past == old(past).(stored := past.stored)
      ensures n == 0 ==> LastTail(unclean) == old(LastTail(unclean)) && writes == old(writes)
      ensures n > 0 ==>
                && writes == old(writes) + 1 && (ok <==> store(old(writes)) == Stored)
                && LastTail(unclean) == if ok then SegmentDone(old(LastTail(unclean))) else old(LastTail(unclean))
    {
      var batch := TakePrefix();
      n, ok := |batch|, false;
      if n == 0 { return; }
      var o := CallOutbox();
      if o != Stored {
        buffer := batch + buffer;
        return;
      }
      past := past.(stored := past.stored + Ids(batch));
      ok := true;
    }

    method SpillTailSegments(unclean: bool, disabled: bool) returns (kept: bool, mark: bool)
      modifies this`buffer, this`writes, this`past
      ensures LastTail(mark).(kept := kept) == SpillRest(old(LastTail(unclean)), store, old(writes), disabled)
      ensures past == old(past).(stored := past.stored)
    {
      kept, mark := false, unclean;
      ghost var end := SpillRest(LastTail(unclean), store, writes, disabled);
      var more := |buffer| > 0;
      while more
        invariant SpillRest(LastTail(unclean), store, writes, disabled) == end
        invariant past == old(past).(stored := past.stored) && (!more ==> PrefixCount(View().mail) == 0)
        decreases |buffer|, more
      {
        ghost var t, k := LastTail(unclean), writes;
        var n, ok := SpillTailSegment(unclean);
        if n > 0 && !ok {
          RestFails(t, store, k, disabled);
          return;
        }
        if n > 0 { RestGoesOn(t, store, k, disabled); }
        more := n > 0 && |buffer| > 0;
      }
      RestClears(LastTail(unclean), store, writes, disabled);
      var o := CallOutbox();
      if !o.Threw? { kept, mark := !disabled, false; }
    }
  }

  lemma ProbeAnyTask(cfg: Config, s: State, k: Task, r: Reply, now: int)
    requires Probing(k) && s.reservation.None?
    ensures var mid := Mid(k.lo, k.hi);
            SettlePost(cfg, s.(task := k), r, now) ==
            if r.Accepted? then BatcherMachine.Bisect(cfg, s, k.batch, mid, k.hi, k.posts, true, now)
            else if Classify(r) == Fatal then EndBisect(cfg, Trip(s, ApiRejected), [], k.progressed, now)
            else if Classify(r) == Permanent
                then BatcherMachine.Bisect(cfg, s, k.batch, k.lo, mid, k.posts, k.progressed, now)
            else EndBisect(cfg, s, k.batch[k.lo..], k.progressed, now)
  {
    var mid := Mid(k.lo, k.hi);
    BisectAnyTask(cfg, s, k, k.batch, mid, k.hi, k.posts, true, now);
    BisectAnyTask(cfg, s, k, k.batch, k.lo, mid, k.posts, k.progressed, now);
    EndBisectAnyTask(cfg, Trip(s, ApiRejected), k, [], k.progressed, now);
    EndBisectAnyTask(cfg, s, k, k.batch[k.lo..], k.progressed, now);
    assert Trip(s.(task := k), ApiRejected) == Trip(s, ApiRejected).(task := k);
  }

  lemma MarkerAnyTask(cfg: Config, s: State, k: Task, r: Reply, now: int)
    requires Marking(k) && s.reservation.None?
    ensures var rest := k.batch[k.lo + 1..];
            SettlePost(cfg, s.(task := k), r, now) ==
            if r.Accepted? then EndBisect(cfg, s, rest, true, now)
            else if Classify(r) == Transient then EndBisect(cfg, s, [k.marker] + rest, k.progressed, now)
            else EndBisect(cfg, Trip(s, MarkerRejected(k.marker.msg.seqNo)), [], k.progressed, now)
  {
    var rest := k.batch[k.lo + 1..];
    EndBisectAnyTask(cfg, s, k, rest, true, now);
    EndBisectAnyTask(cfg, s, k, [k.marker] + rest, k.progressed, now);
    EndBisectAnyTask(cfg, Trip(s, MarkerRejected(k.marker.msg.seqNo)), k, [], k.progressed, now);
    assert Trip(s.(task := k), MarkerRejected(k.marker.msg.seqNo))
        == Trip(s, MarkerRejected(k.marker.msg.seqNo)).(task := k);
  }

  /** Where an answer takes the search, from the state it leaves. */
  function AfterFound(cfg: Config, s: State, batch: seq<Item>, f: Found, n: nat, now: int): State
    requires f.Narrowed? ==> f.lo < f.hi <= |batch|
  {
    if f.Narrowed? then BatcherMachine.Bisect(cfg, s, batch, f.lo, f.hi, n, f.progressed, now)
    else EndBisect(cfg, s, f.remaining, f.progressed, now)
  }

  /** The world the answer to a probe leads to. */
  function ProbeWorld(cfg: Config, past: World, s: State, batch: seq<Item>, lo: nat, hi: nat, n: nat, progressed: bool,
      r: Reply, now: int): World
    requires hi - lo > 1 && hi <= |batch|
  {
    var f := ProbeFinds(batch, lo, hi, progressed, r);
    SendSettled(past, batch[lo..Mid(lo, hi)], r, false).(s :=
        AfterFound(cfg, AfterAnswer(s, r, ApiRejected), batch, f, n + 1, now))
  }

  lemma ProbeDrains(cfg: Config, past: World, s: State, batch: seq<Item>, lo: nat, hi: nat, n: nat, progressed: bool,
      now: int,
                    api: Api, clock: Clock, k: nat, fate: Fate, before: World, after: World)
    requires Invariant(cfg, api, clock, fate)
    requires Ready(s) && s.reservation.None? && s.health.trip.None? && ItemsOk(batch) && CountBounded(batch)
    requires hi - lo > 1 && hi <= |batch| && SearchBound(|batch|, hi - lo, n)
    requires before == past.(s := BatcherMachine.Bisect(cfg, s, batch, lo, hi, n, progressed, now))
    requires after == ProbeWorld(cfg, past, s, batch, lo, hi, n, progressed, api(k, Msgs(batch[lo..Mid(lo, hi)])),
              clock(k))
    ensures fate(before, k) == fate(after, k + 1)
  {
    var task := AwaitProbe(batch, lo, hi, n + 1, progressed);
    BudgetSuffices(batch, hi - lo, n);
    BisectOk(cfg, s, batch, lo, hi, n, progressed, now);
    ProbeAnyTask(cfg, s, task, api(k, Msgs(batch[lo..Mid(lo, hi)])), clock(k));
    assert after == Answer(cfg, before, api, clock, k);
  }

  function MarkerWorld(cfg: Config, past: World, s: State, batch: seq<Item>, lo: nat, progressed: bool, r: Reply,
      now: int): World
    requires lo < |batch|
  {
    var marker := Tombstone(batch[lo], MessageDropped, PayloadRejected);
    var f := MarkerFinds(batch, lo, progressed, r);
    var t := if r.Accepted? || Classify(r) == Transient then s else Trip(s, MarkerRejected(marker.msg.seqNo));
    SendSettled(past, [marker], r, false).(s := EndBisect(cfg, t, f.remaining, f.progressed, now))
  }

  lemma MarkerDrains(cfg: Config, past: World, s: State, batch: seq<Item>, lo: nat, n: nat, progressed: bool, now: int,
                     api: Api, clock: Clock, k: nat, fate: Fate, before: World, after: World)
    requires Invariant(cfg, api, clock, fate)
    requires Ready(s) && s.reservation.None? && s.health.trip.None? && ItemsOk(batch) && CountBounded(batch)
    requires lo < |batch| && SearchBound(|batch|, 1, n)
    requires before == past.(s := BatcherMachine.Bisect(cfg, s, batch, lo, lo + 1, n, progressed, now))
    requires after == MarkerWorld(cfg, past, s, batch, lo, progressed,
                                  api(k, Msgs([Tombstone(batch[lo], MessageDropped, PayloadRejected)])), clock(k))
    ensures fate(before, k) == fate(after, k + 1)
  {
    BisectOk(cfg, s, batch, lo, lo + 1, n, progressed, now);
    MarkerAnswer(cfg, past, s, batch, lo, progressed, api, clock, k);
    assert before.s == s.(task := AwaitMarker(batch, lo, Tombstone(batch[lo], MessageDropped, PayloadRejected),
        progressed));
  }

  lemma MarkerAnswer(cfg: Config, past: World, s: State, batch: seq<Item>, lo: nat, progressed: bool, api: Api,
      clock: Clock, k: nat)
    requires s.reservation.None? && lo < |batch|
    ensures var marker := Tombstone(batch[lo], MessageDropped, PayloadRejected);
            Answer(cfg, past.(s := s.(task := AwaitMarker(batch, lo, marker, progressed))), api, clock, k) ==
            MarkerWorld(cfg, past, s, batch, lo, progressed, api(k, Msgs([marker])), clock(k))
  {
    var task := AwaitMarker(batch, lo, Tombstone(batch[lo], MessageDropped, PayloadRejected), progressed);
    MarkerAnyTask(cfg, s, task, api(k, Msgs([task.marker])), clock(k));
  }

  lemma MarkerRemains(batch: seq<Item>, lo: nat, progressed: bool, r: Reply)
    requires ItemsOk(batch) && lo < |batch|
    ensures ItemsOk(MarkerFinds(batch, lo, progressed, r).remaining)
  {
    assert ItemOk(batch[lo]);
    WithHeadOk(Tombstone(batch[lo], MessageDropped, PayloadRejected), batch[lo + 1..]);
  }

  /** Where the answer to a whole batch takes the flush. */
  function AfterPost(cfg: Config, s: State, batch: seq<Item>, r: Reply, now: int): State
    requires |batch| > 0
  {
    if r.Accepted? then Continue(s.(mail := s.mail.(split := None), health := ClearStreak(s.health)))
    else BatcherMachine.HandleFailure(cfg, s, batch, Classify(r), now)
  }

  /** The world the answer to the next prefix leads to. */
  function PostWorld(cfg: Config, past: World, s: State, api: Api, clock: Clock, k: nat): World
    requires PrefixCount(RefillIfDrained(s.mail)) > 0
  {
    var m := RefillIfDrained(s.mail);
    var n := PrefixCount(m);
    var batch := m.buffer[..n];
    var r := api(k, Msgs(batch));
    SendSettled(past, batch, r, false).(
      s := AfterPost(cfg, State(m.(buffer := m.buffer[n..]), s.health, s.reservation, Idle), batch, r, clock(k)))
  }

  /** One prefix posted from the loop head. */
  lemma PostDrains(cfg: Config, past: World, s: State, api: Api, clock: Clock, k: nat, fate: Fate, w: World)
    requires Invariant(cfg, api, clock, fate)
    requires Ready(s) && s.reservation.None? && s.health.trip.None? && !s.health.aborted && HasWork(s.mail)
    requires w == past.(s := Continue(s))
    ensures PrefixCount(RefillIfDrained(s.mail)) > 0
    ensures fate(w, k) == fate(PostWorld(cfg, past, s, api, clock, k), k + 1)
  {
    var m := RefillIfDrained(s.mail);
    RefillOk(s.mail);
    PrefixOk(m);
    ContinueOk(s);
    var n := PrefixCount(m);
    var batch := m.buffer[..n];
    var t := State(m.(buffer := m.buffer[n..]), s.health, s.reservation, Idle);
    var r := api(k, Msgs(batch));
    if !r.Accepted? { HandleFailureAnyTask(cfg, t, AwaitPost(batch), batch, Classify(r), clock(k)); }
    assert Answer(cfg, w, api, clock, k) == PostWorld(cfg, past, s, api, clock, k);
  }

  lemma {:induction false} DrainOk(cfg: Config, w: World, api: Api, clock: Clock, k: nat)
    requires Inv(w.s)
    ensures Inv(Drain(cfg, w, api, clock, k).s)
    decreases Owing(w.s), Plainly(Pending(w.s)), SplitRoom(w.s), Phase(w.s.task), PostOutstanding(w.s)
  {
    if PostOutstanding(w.s) {
      var r := api(k, Msgs(Outstanding(w.s.task)));
      StepOk(cfg, w, PostAnswer(r, false, clock(k)));
      SettleLess(cfg, w.s, r, clock(k));
      var next := Answer(cfg, w, api, clock, k);
      if PostOutstanding(next.s) { DrainOk(cfg, next, api, clock, k + 1); }
    }
  }

  lemma {:induction false} SpillDrainOk(cfg: Config, w: World, store: nat -> StoreOutcome, clock: Clock, k: nat)
    requires Inv(w.s)
    ensures Inv(SpillDrain(cfg, w, store, clock, k).world.s)
    decreases StoreRank(w.s)
  {
    if StoreOutstanding(w.s) {
      StepOk(cfg, w, StoreAnswer(store(k), clock(k)));
      StoreStepShrinks(cfg, w, store, clock, k);
      SpillDrainOk(cfg, StoreStep(cfg, w, store, clock, k), store, clock, k + 1);
    }
  }
}
