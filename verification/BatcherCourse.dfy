/** What settling a post leaves alone, in any state. */
module BatcherCourse {
  import opened Options
  import opened BatcherTypes
  import opened BatcherMachine
  import opened BatcherRuns

  /** A range only ever gives up chunks from its front. */
  predicate RangeShrinks(a: Option<Range>, b: Option<Range>) {
    b.Some? ==> a.Some? && a.value.first <= b.value.first && b.value.last == a.value.last
  }

  /** The coroutine is not inside the spilled flush. */
  predicate Networked(k: Task) {
    !k.AwaitFlushMark? && !k.AwaitRange? && !k.AwaitSegment? && !k.AwaitClear?
  }

  /** What settling a post leaves alone. */
  predicate SameCourse(s: State, t: State) {
    && t.mail.seqNo == s.mail.seqNo
    && RangeShrinks(s.mail.range, t.mail.range)
    && (s.reservation.None? <==> t.reservation.None?)
    && t.health.spilled == s.health.spilled && t.health.closed == s.health.closed
    && (Networked(s.task) ==> Networked(t.task))
  }

  lemma ContinueCourse(s: State)
    ensures SameCourse(s, Continue(s))
  {
  }

  lemma NoteTransientCourse(cfg: Config, s: State, now: int)
    ensures SameCourse(s, NoteTransient(cfg, s, now))
  {
  }

  lemma EndBisectCourse(cfg: Config, s: State, remaining: seq<Item>, progressed: bool, now: int)
    ensures SameCourse(s, EndBisect(cfg, s, remaining, progressed, now))
  {
    var t := s.(mail := Requeue(s.mail, remaining));
    ContinueCourse(t.(health := ClearStreak(t.health)));
    NoteTransientCourse(cfg, t, now);
  }

  lemma BisectCourse(cfg: Config, s: State, batch: seq<Item>, lo: nat, hi: nat, posts: nat, progressed: bool, now: int)
    requires lo < hi <= |batch|
    ensures SameCourse(s, Bisect(cfg, s, batch, lo, hi, posts, progressed, now))
  {
    EndBisectCourse(cfg, s, batch[lo..], progressed, now);
    EndBisectCourse(cfg, Trip(s, BisectBudget), [], progressed, now);
  }

  lemma HandleFailureCourse(cfg: Config, s: State, batch: seq<Item>, v: Verdict, now: int)
    requires |batch| > 0
    ensures SameCourse(s, HandleFailure(cfg, s, batch, v, now))
  {
    if s.reservation.None? && !(v != Transient && |batch| == 1 && batch[0].tombstoned) {
      match v
      case Fatal =>
      case Oversize => OversizeCourse(s, batch);
      case Permanent => PermanentCourse(cfg, s, batch, now);
      case Transient => NoteTransientCourse(cfg, s.(mail := Requeue(s.mail, batch)), now);
    }
  }

  lemma OversizeCourse(s: State, batch: seq<Item>)
    requires |batch| > 0
    ensures SameCourse(s, HandleOversize(s, batch))
  {
    if |batch| > 1 {
      ContinueCourse(s.(mail := Requeue(s.mail, batch).(split := Some(|batch| / 2)), health := ClearStreak(s.health)));
    } else {
      ContinueCourse(s.(mail :=
          Requeue(s.mail, [Tombstone(batch[0], MessageTruncated, RejectedTooLarge)]).(split := None)));
    }
  }

  lemma PermanentCourse(cfg: Config, s: State, batch: seq<Item>, now: int)
    requires |batch| > 0
    ensures |batch| > 1 ==> SameCourse(s, Bisect(cfg, s, batch, 0, |batch|, 0, false, now))
    ensures SameCourse(s, Continue(s.(mail := Requeue(s.mail, [Tombstone(batch[0], MessageDropped, PayloadRejected)]))))
  {
    if |batch| > 1 { BisectCourse(cfg, s, batch, 0, |batch|, 0, false, now); }
    ContinueCourse(s.(mail := Requeue(s.mail, [Tombstone(batch[0], MessageDropped, PayloadRejected)])));
  }

  lemma ProbeSettledCourse(cfg: Config, s: State, k: Task, r: Reply, now: int)
    requires Probing(k)
    ensures SameCourse(s, ProbeSettled(cfg, s, k, r, now))
  {
    var mid := Mid(k.lo, k.hi);
    BisectCourse(cfg, s, k.batch, mid, k.hi, k.posts, true, now);
    BisectCourse(cfg, s, k.batch, k.lo, mid, k.posts, k.progressed, now);
    EndBisectCourse(cfg, Trip(s, ApiRejected), [], k.progressed, now);
    EndBisectCourse(cfg, s, k.batch[k.lo..], k.progressed, now);
  }

  lemma MarkerSettledCourse(cfg: Config, s: State, k: Task, r: Reply, now: int)
    requires Marking(k)
    ensures SameCourse(s, MarkerSettled(cfg, s, k, r, now))
  {
    var rest := k.batch[k.lo + 1..];
    if r.Accepted? {
      EndBisectCourse(cfg, s, rest, true, now);
    } else if s.reservation.None? {
      if Classify(r) == Transient {
        EndBisectCourse(cfg, s, [k.marker] + rest, k.progressed, now);
      } else {
        TrippedCourse(cfg, s, MarkerRejected(k.marker.msg.seqNo), k.progressed, now);
      }
    }
  }

  lemma TrippedCourse(cfg: Config, s: State, reason: TripReason, progressed: bool, now: int)
    ensures SameCourse(s, EndBisect(cfg, Trip(s, reason), [], progressed, now))
  {
    EndBisectCourse(cfg, Trip(s, reason), [], progressed, now);
  }

  lemma PostSettledCourse(cfg: Config, s: State, batch: seq<Item>, r: Reply, now: int)
    requires |batch| > 0
    ensures SameCourse(s, PostSettled(cfg, s, batch, r, now))
  {
    ContinueCourse(s.(mail := s.mail.(split := None), health := ClearStreak(s.health)));
    if !r.Accepted? { HandleFailureCourse(cfg, s, batch, Classify(r), now); }
  }

  lemma SettlePostCourse(cfg: Config, s: State, r: Reply, now: int)
    ensures SameCourse(s, SettlePost(cfg, s, r, now))
  {
    var k := s.task;
    if k.AwaitPost? && |k.batch| > 0 { PostSettledCourse(cfg, s, k.batch, r, now); }
    if Probing(k) { ProbeSettledCourse(cfg, s, k, r, now); }
    if Marking(k) { MarkerSettledCourse(cfg, s, k, r, now); }
  }

  // ----- the numbering and the range, over every event

  /** No seq is assigned, and the range at most gives up a chunk. */
  predicate MailMoves(s: State, t: State) {
    t.mail.seqNo == s.mail.seqNo && RangeShrinks(s.mail.range, t.mail.range)
  }

  lemma StartFlushMoves(s: State, aborted: bool)
    ensures MailMoves(s, StartFlush(s, aborted))
  {
    ContinueCourse(s.(health := s.health.(aborted := aborted)));
  }

  lemma StoreMoves(s: State, o: StoreOutcome, now: int)
    ensures MailMoves(s, StoreSettled(s, o, now))
  {
  }

  lemma PrepLoopMoves(s: State, r: Reservation, expired: bool)
    ensures MailMoves(s, PrepLoop(s, r, expired))
  {
  }

  lemma PrepMoves(cfg: Config, s: State, r: Reply, ok: bool, expired: bool, permanent: bool)
    ensures MailMoves(s, PrepBegin(cfg, s, ok, permanent)) && MailMoves(s, PrepPosted(s, r, expired, permanent))
    ensures MailMoves(s, PrepConfirmed(s, ok, permanent))
  {
    if s.reservation.Some? {
      PrepLoopMoves(s, s.reservation.value, false);
      PrepLoopMoves(s, s.reservation.value.(replay := None), expired);
    }
  }

  /** Only an unreserved emit and a release assign seqs. */
  lemma StepMoves(cfg: Config, w: World, e: Event)
    requires !e.ReleaseCalled? && (e.EmitFrame? ==> w.s.reservation.Some? || w.s.health.closed)
    ensures MailMoves(w.s, Step(cfg, w, e).s) && Step(cfg, w, e).issued == w.issued
  {
    match e
    case PostAnswer(r, _, now) => SettlePostCourse(cfg, w.s, r, now);
    case Flush(already) => StartFlushMoves(w.s, already);
    case StoreAnswer(o, now) => StoreMoves(w.s, o, now);
    case PrepareCalled(ok, permanent) => PrepMoves(cfg, w.s, Accepted, ok, false, permanent);
    case PrepareAnswer(r, _, expired, permanent) => PrepMoves(cfg, w.s, r, false, expired, permanent);
    case PrepareConfirmed(ok, permanent) => PrepMoves(cfg, w.s, Accepted, ok, false, permanent);
    case _ =>
  }
}
