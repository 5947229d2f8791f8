/** The other half of coverage: the step that forgets really loses a seq, for good. Together with
    BatcherCoverage this gives the exact condition under which a spilled run accounts for all. */
module BatcherLoss {
  import opened Options
  import opened BatcherTypes
  import opened BatcherMachine
  import opened BatcherRuns
  import opened BatcherInvariant
  import opened BatcherCourse
  import opened BatcherPending
  import opened BatcherCoverage

  /** Assigned, accounted for nowhere, and below any range that could grow over it. */
  predicate Forgotten(w: World, n: nat) {
    && n <= w.s.mail.seqNo
    && n !in Accounted(w)
    && (w.s.mail.range.Some? ==> n < w.s.mail.range.value.first)
  }

  /** The last element's seq occurs nowhere before it. */
  predicate TailUnique(q: seq<Item>) {
    forall i :: 0 <= i < |q| - 1 ==> q[i].msg.seqNo != q[|q| - 1].msg.seqNo
  }

  predicate Bounded(w: World) {
    forall n :: n in Accounted(w) ==> n <= w.s.mail.seqNo
  }

  /** The youngest dropped seq lives only in the range. */
  predicate RangeAlone(w: World) {
    w.s.mail.range.Some? ==>
      var n := w.s.mail.range.value.last;
      TailUnique(Pending(w.s)) && n !in w.stored && n !in MsgIds(w.delivered) && n in Ids(w.issued)
  }

  predicate LossOk(w: World) {
    Inv(w.s) && CaptureOk(w.s) && Bounded(w) && RangeAlone(w)
  }

  /** With a live range, what is owed ends with the marker of the range's last seq. */
  lemma PendingEnds(s: State)
    requires Inv(s) && s.mail.range.Some?
    ensures |Pending(s)| > |Carried(s.task)| + |PrepCarried(s)| + |s.mail.buffer|
    ensures Pending(s)[|Pending(s)| - 1].msg.seqNo == s.mail.range.value.last
  {
  }

  predicate SameSeqs(a: seq<Item>, b: seq<Item>) {
    |a| == |b| && forall i :: 0 <= i < |a| ==> a[i].msg.seqNo == b[i].msg.seqNo
  }

  lemma HeadMarkedSeqs(q: seq<Item>, event: MarkerEvent, reason: Reason)
    requires |q| > 0
    ensures SameSeqs(HeadMarked(q, event, reason), q)
  {
  }

  /** Settling a post, in one sentence about seqs. */
  lemma SettledSeqs(s: State, r: Reply, t: State)
    requires SettledTo(s, r, t) && Outstanding(s.task) <= Pending(s)
    ensures SameSeqs(Pending(t), Pending(s)[if r.Accepted? then |Outstanding(s.task)| else 0..])
  {
    var base := Unsent(s, r);
    assert base == Pending(s)[if r.Accepted? then |Outstanding(s.task)| else 0..];
    if |base| > 0 {
      HeadMarkedSeqs(base, MessageDropped, PayloadRejected);
      HeadMarkedSeqs(base, MessageTruncated, RejectedTooLarge);
    }
  }

  /** Taking a proper head off a queue leaves its tail unique and outside what was taken. */
  lemma TailStays(q: seq<Item>, n: nat, q': seq<Item>)
    requires TailUnique(q) && n < |q| && SameSeqs(q', q[n..])
    ensures TailUnique(q') && q[|q| - 1].msg.seqNo !in Ids(q[..n])
  {
    var m := |q'|;
    assert q'[m - 1].msg.seqNo == q[|q| - 1].msg.seqNo;
    forall i | 0 <= i < m - 1 ensures q'[i].msg.seqNo != q'[m - 1].msg.seqNo {
      assert q'[i].msg.seqNo == q[n..][i].msg.seqNo == q[n + i].msg.seqNo;
    }
    assert forall i :: 0 <= i < n ==> q[..n][i] == q[i];
  }

  /** Sending or storing the first `n` of what is owed. */
  predicate Takes(w: World, t: World, n: nat) {
    && RangeShrinks(w.s.mail.range, t.s.mail.range) && t.issued == w.issued && t.s.mail.seqNo == w.s.mail.seqNo
    && n <= |Pending(w.s)| && SameSeqs(Pending(t.s), Pending(w.s)[n..])
    && t.stored <= w.stored + Ids(Pending(w.s)[..n])
    && MsgIds(t.delivered) <= MsgIds(w.delivered) + Ids(Pending(w.s)[..n])
  }

  lemma TakesBounded(w: World, t: World, n: nat)
    requires Bounded(w) && Takes(w, t, n)
    ensures Accounted(t) <= Accounted(w) && Bounded(t)
  {
    var q := Pending(w.s);
    assert q == q[..n] + q[n..];
    IdsConcat(q[..n], q[n..]);
    assert Ids(Pending(t.s)) == Ids(q[n..]);
    SubsetBounded(w, t);
  }

  lemma SubsetBounded(w: World, t: World)
    requires Bounded(w) && Accounted(t) <= Accounted(w) && w.s.mail.seqNo <= t.s.mail.seqNo
    ensures Bounded(t)
  {
    forall n | n in Accounted(t) ensures n <= t.s.mail.seqNo { assert n in Accounted(w); }
  }

  lemma TakesLossOk(w: World, t: World, n: nat)
    requires LossOk(w) && Takes(w, t, n) && Inv(t.s) && CaptureOk(t.s)
    ensures LossOk(t)
  {
    TakesBounded(w, t, n);
    if t.s.mail.range.Some? {
      PendingEnds(w.s);
      PendingEnds(t.s);
      TailStays(Pending(w.s), n, Pending(t.s));
    }
  }

  lemma PostTakes(cfg: Config, w: World, r: Reply, applied: bool, now: int)
    requires Inv(w.s) && PostOutstanding(w.s) && SettlePost(cfg, w.s, r, now).health.trip.None?
    ensures Takes(w, Step(cfg, w, PostAnswer(r, applied, now)), if r.Accepted? then |Outstanding(w.s.task)| else 0)
  {
    var e := PostAnswer(r, applied, now);
    StepMoves(cfg, w, e);
    SettlePostKeeps(cfg, w.s, r, now);
    SettledSeqs(w.s, r, Step(cfg, w, e).s);
    MsgIdsConcat(w.delivered, Outstanding(w.s.task));
    assert Outstanding(w.s.task) == Pending(w.s)[..|Outstanding(w.s.task)|];
  }

  lemma PrepTakes(cfg: Config, w: World, r: Reply, applied: bool, expired: bool, permanent: bool)
    requires Inv(w.s) && PrepCarried(w.s) != []
    ensures Takes(w, Step(cfg, w, PrepareAnswer(r, applied, expired, permanent)), if r.Accepted?
              then |PrepCarried(w.s)| else 0)
  {
    var e := PrepareAnswer(r, applied, expired, permanent);
    StepMoves(cfg, w, e);
    PrepPostedKeeps(w.s, r, expired, permanent);
    HeadTaken(w, Step(cfg, w, e), PrepCarried(w.s), Queue(w.s.mail), r);
  }

  lemma HeadTaken(w: World, t: World, sent: seq<Item>, rest: seq<Item>, r: Reply)
    requires Pending(w.s) == sent + rest && t.stored == w.stored && t.issued == w.issued
              && t.s.mail.seqNo == w.s.mail.seqNo
    requires RangeShrinks(w.s.mail.range, t.s.mail.range)
    requires Pending(t.s) == if r.Accepted? then rest else sent + rest
    requires t.delivered == if r.Accepted? then w.delivered + Msgs(sent) else w.delivered
    ensures Takes(w, t, if r.Accepted? then |sent| else 0)
  {
    MsgIdsConcat(w.delivered, sent);
    assert sent == Pending(w.s)[..|sent|] && rest == Pending(w.s)[|sent|..];
  }

  lemma QuietTakes(cfg: Config, w: World, e: Event)
    requires Inv(w.s) && QuietEvent(e)
    ensures Takes(w, Step(cfg, w, e), 0)
  {
    StepMoves(cfg, w, e);
    QuietKeeps(cfg, w, e);
  }

  lemma StoreTakes(cfg: Config, w: World, o: StoreOutcome, now: int)
    requires Inv(w.s) && (o == Threw || !w.s.task.AwaitRange?)
    ensures Takes(w, Step(cfg, w, StoreAnswer(o, now)), if w.s.task.AwaitSegment? && o != Threw then |w.s.task.batch|
              else 0)
  {
    var e := StoreAnswer(o, now);
    StepMoves(cfg, w, e);
    if o == Threw {
      StoreThrewKeeps(w.s, now);
    } else {
      StoreReturnedKeeps(w.s, o, now);
      if w.s.task.AwaitSegment? {
        NoPreparation(w.s);
        assert Pending(w.s)[..|w.s.task.batch|] == w.s.task.batch
            && Pending(w.s)[|w.s.task.batch|..] == Queue(w.s.mail);
      }
    }
  }

  /** Clearing the range after its write. */
  lemma RangeWriteLossOk(cfg: Config, w: World, o: StoreOutcome, now: int)
    requires LossOk(w) && w.s.task.AwaitRange? && o != Threw
    ensures LossOk(Step(cfg, w, StoreAnswer(o, now)))
    ensures var t := Step(cfg, w, StoreAnswer(o, now));
            t.s.mail.range.None? && Pending(t.s) == w.s.mail.buffer && t.issued == w.issued
                && t.s.mail.seqNo == w.s.mail.seqNo
  {
    var e := StoreAnswer(o, now);
    StepOk(cfg, w, e);
    StepCapture(cfg, w, e);
    StepMoves(cfg, w, e);
    StoreReturnedKeeps(w.s, o, now);
    ClearedLossOk(w, Step(cfg, w, e));
  }

  lemma ClearedLossOk(w: World, t: World)
    requires LossOk(w) && w.s.mail.range.Some? && Inv(t.s) && CaptureOk(t.s)
    requires t.s.mail.range.None? && Pending(t.s) == w.s.mail.buffer && t.delivered == w.delivered
    requires t.s.mail.seqNo == w.s.mail.seqNo && t.stored <= w.stored + Span(w.s.mail.range.value)
    ensures LossOk(t)
  {
    PendingIds(w.s);
    SubsetBounded(w, t);
  }

  lemma {:induction false} RangeItemsUnique(first: nat, count: nat)
    ensures TailUnique(RangeItems(first, count))
  {
  }

  /** A prefix with seqs other than the tail's keeps the tail unique. */
  lemma PrependUnique(a: seq<Item>, q: seq<Item>)
    requires |q| > 0 && TailUnique(q) && q[|q| - 1].msg.seqNo !in Ids(a)
    ensures TailUnique(a + q)
  {
    forall i | 0 <= i < |a + q| - 1 ensures (a + q)[i].msg.seqNo != (a + q)[|a + q| - 1].msg.seqNo {
      if i < |a| { assert a[i].msg.seqNo in Ids(a); } else { assert (a + q)[i] == q[i - |a|]; }
    }
  }

  /** The same fact about the youngest dropped seq, seen from the items in memory. */
  lemma AloneInMemory(w: World)
    requires Inv(w.s) && w.s.mail.range.Some?
    ensures TailUnique(Pending(w.s)) <==> w.s.mail.range.value.last !in Ids(Owned(w.s))
  {
    var r := w.s.mail.range.value;
    var q := RangePart(w.s.mail.range);
    PendingSplit(w.s);
    PendingEnds(w.s);
    RangeItemsUnique(r.first, RangeWidth(w.s.mail.range));
    assert q[|q| - 1].msg.seqNo == r.last;
    if r.last !in Ids(Owned(w.s)) {
      PrependUnique(Owned(w.s), q);
    } else {
      var i :| 0 <= i < |Owned(w.s)| && Owned(w.s)[i].msg.seqNo == r.last;
      assert Pending(w.s)[i].msg.seqNo == r.last;
    }
  }

  lemma OwnedBounded(w: World)
    requires Inv(w.s) && Bounded(w)
    ensures forall n :: n in Ids(Owned(w.s)) ==> n <= w.s.mail.seqNo
  {
    PendingSplit(w.s);
    IdsConcat(Owned(w.s), RangePart(w.s.mail.range));
    forall n | n in Ids(Owned(w.s)) ensures n <= w.s.mail.seqNo { assert n in Accounted(w); }
  }

  lemma EmitLossOk(cfg: Config, w: World, kind: string, payload: string, who: Attribution)
    requires LossOk(w) && !w.s.health.closed && w.s.reservation.None?
    ensures LossOk(Step(cfg, w, EmitFrame(kind, payload, who)))
  {
    var e := EmitFrame(kind, payload, who);
    var t := Step(cfg, w, e);
    var item := NewItem(w.s, Frame(kind, payload), who);
    StepOk(cfg, w, e);
    StepCapture(cfg, w, e);
    EmitOwned(cfg, w.s, Frame(kind, payload), who);
    EmitCovered(cfg, w, kind, payload, who);
    IssuedLossOk(w, t, item);
  }

  lemma IssuedLossOk(w: World, t: World, item: Item)
    requires LossOk(w) && Inv(t.s) && CaptureOk(t.s)
    requires t.stored == w.stored && t.delivered == w.delivered
              && t.s.mail.seqNo == w.s.mail.seqNo + 1 == item.msg.seqNo
    requires Ids(t.issued) == Ids(w.issued) + {item.msg.seqNo}
    requires || (Owned(t.s) == Owned(w.s) && t.s.mail.range == Fold(w.s.mail.range, item.msg.seqNo))
             || (Owned(t.s) == Owned(w.s) + [item] && t.s.mail.range == w.s.mail.range)
    ensures LossOk(t)
  {
    IssuedBounded(w, t, item);
    IssuedAlone(w, t, item);
  }

  lemma IssuedBounded(w: World, t: World, item: Item)
    requires Inv(w.s) && Inv(t.s) && Bounded(w) && t.stored == w.stored && t.delivered == w.delivered
    requires t.s.mail.seqNo == w.s.mail.seqNo + 1 == item.msg.seqNo
    requires || (Owned(t.s) == Owned(w.s) && t.s.mail.range == Fold(w.s.mail.range, item.msg.seqNo))
             || (Owned(t.s) == Owned(w.s) + [item] && t.s.mail.range == w.s.mail.range)
    ensures Bounded(t)
  {
    OwnedBounded(w);
    OwnedIds(w.s);
    OwnedIds(t.s);
    IdsConcat(Owned(w.s), [item]);
    SingleId(item);
    forall n | n in Accounted(t) ensures n <= t.s.mail.seqNo {
      if n in w.stored || n in MsgIds(w.delivered) {
        assert n in Accounted(w);
      } else if n !in Ids(Owned(t.s)) {
        assert n <= t.s.mail.range.value.last;
        if t.s.mail.range == w.s.mail.range { assert n in Accounted(w); }
      }
    }
  }

  lemma IssuedAlone(w: World, t: World, item: Item)
    requires LossOk(w) && Inv(t.s) && t.stored == w.stored && t.delivered == w.delivered
    requires t.s.mail.seqNo == w.s.mail.seqNo + 1 == item.msg.seqNo
    requires Ids(t.issued) == Ids(w.issued) + {item.msg.seqNo}
    requires || (Owned(t.s) == Owned(w.s) && t.s.mail.range == Fold(w.s.mail.range, item.msg.seqNo))
             || (Owned(t.s) == Owned(w.s) + [item] && t.s.mail.range == w.s.mail.range)
    ensures RangeAlone(t)
  {
    OwnedBounded(w);
    IdsConcat(Owned(w.s), [item]);
    SingleId(item);
    if w.s.mail.range.Some? { AloneInMemory(w); }
    if t.s.mail.range.Some? { AloneInMemory(t); }
    assert item.msg.seqNo !in w.stored && item.msg.seqNo !in MsgIds(w.delivered) by {
      assert item.msg.seqNo !in Accounted(w);
    }
  }

  lemma NumberedIds(held: seq<HeldEvent>, cursor: nat)
    ensures forall n :: n in Ids(Numbered(held, cursor)) ==> cursor < n <= cursor + |held|
  {
  }

  lemma ReleaseLossOk(cfg: Config, w: World, p: Proof)
    requires LossOk(w) && CanRelease(cfg, w.s, p)
    ensures LossOk(Step(cfg, w, ReleaseCalled(p)))
    ensures var t := Step(cfg, w, ReleaseCalled(p));
            w.s.mail.seqNo <= t.s.mail.seqNo
                && (forall n :: n in Accounted(t) && n !in Accounted(w) ==> n > w.s.mail.seqNo)
  {
    var r := w.s.reservation.value;
    var t := Step(cfg, w, ReleaseCalled(p));
    StepOk(cfg, w, ReleaseCalled(p));
    ReleaseCovered(cfg, w, p);
    ReleaseKeeps(cfg, w.s, p);
    ReleasedStep(cfg, w, p);
    NumberedIds(r.held, ReleaseCursor(r, p));
    assert w.s.task.Idle? && r.tail == w.s.mail.seqNo;
    ReleasedBounded(w, t, ReleaseCursor(r, p), |r.held|);
  }

  lemma ReleasedBounded(w: World, t: World, cursor: nat, count: nat)
    requires Bounded(w) && w.s.mail.seqNo <= cursor && t.s.mail.seqNo == cursor + count
    requires Accounted(t) == Accounted(w) + Ids(Pending(t.s))
    requires forall n :: n in Ids(Pending(t.s)) ==> cursor < n <= cursor + count
    ensures Bounded(t) && forall n :: n in Accounted(t) && n !in Accounted(w) ==> n > w.s.mail.seqNo
  {
  }

  lemma StepLossOk(cfg: Config, w: World, e: Event)
    requires LossOk(w) && Step(cfg, w, e).s.health.trip.None?
    ensures LossOk(Step(cfg, w, e))
  {
    if e.EmitFrame? && !w.s.health.closed && w.s.reservation.None? {
      EmitLossOk(cfg, w, e.kind, e.payload, e.who);
    } else if e.ReleaseCalled? {
      if CanRelease(cfg, w.s, e.proof) { ReleaseLossOk(cfg, w, e.proof); }
    } else if e.StoreAnswer? && w.s.task.AwaitRange? && e.outcome != Threw {
      RangeWriteLossOk(cfg, w, e.outcome, e.now);
    } else {
      StepOk(cfg, w, e);
      StepCapture(cfg, w, e);
      var k := StepTakes(cfg, w, e);
      TakesLossOk(w, Step(cfg, w, e), k);
    }
  }

  lemma StillTakes(w: World)
    ensures Takes(w, w, 0)
  {
  }

  lemma HeldEmitTakes(cfg: Config, w: World, kind: string, payload: string, who: Attribution)
    requires w.s.health.closed || w.s.reservation.Some?
    ensures Takes(w, Step(cfg, w, EmitFrame(kind, payload, who)), 0)
  {
    HeldEmitKeeps(cfg, w.s, Frame(kind, payload), who);
  }

  /** Every step but an assigning one and the return of a range write takes some head off what is owed. */
  lemma StepTakes(cfg: Config, w: World, e: Event) returns (n: nat)
    requires Inv(w.s) && Step(cfg, w, e).s.health.trip.None? && !e.ReleaseCalled?
    requires e.EmitFrame? ==> w.s.health.closed || w.s.reservation.Some?
    requires e.StoreAnswer? && e.outcome != Threw ==> !w.s.task.AwaitRange?
    ensures Takes(w, Step(cfg, w, e), n)
  {
    n := 0;
    match e
    case EmitFrame(kind, payload, who) => HeldEmitTakes(cfg, w, kind, payload, who);
    case PostAnswer(r, applied, now) =>
      if PostOutstanding(w.s) {
        n := if r.Accepted? then |Outstanding(w.s.task)| else 0;
        PostTakes(cfg, w, r, applied, now);
      } else {
        StillTakes(w);
      }
    case PrepareAnswer(r, applied, expired, permanent) =>
      if PrepCarried(w.s) != [] {
        n := if r.Accepted? then |PrepCarried(w.s)| else 0;
        PrepTakes(cfg, w, r, applied, expired, permanent);
      } else {
        StillTakes(w);
      }
    case StoreAnswer(o, now) =>
      n := if w.s.task.AwaitSegment? && o != Threw then |w.s.task.batch| else 0;
      StoreTakes(cfg, w, o, now);
    case _ => QuietTakes(cfg, w, e);
  }

  lemma TakesForgotten(w: World, t: World, k: nat, n: nat)
    requires Bounded(w) && Takes(w, t, k) && Forgotten(w, n)
    ensures Forgotten(t, n)
  {
    TakesBounded(w, t, k);
  }

  lemma EmitForgotten(cfg: Config, w: World, kind: string, payload: string, who: Attribution, n: nat)
    requires LossOk(w) && !w.s.health.closed && w.s.reservation.None? && Forgotten(w, n)
    ensures Forgotten(Step(cfg, w, EmitFrame(kind, payload, who)), n)
  {
    var e := EmitFrame(kind, payload, who);
    var t := Step(cfg, w, e);
    var item := NewItem(w.s, Frame(kind, payload), who);
    StepOk(cfg, w, e);
    EmitOwned(cfg, w.s, Frame(kind, payload), who);
    IssuedForgotten(w, t, item, n);
  }

  lemma IssuedForgotten(w: World, t: World, item: Item, n: nat)
    requires Inv(w.s) && Inv(t.s) && Forgotten(w, n)
    requires t.stored == w.stored && t.delivered == w.delivered
              && t.s.mail.seqNo == w.s.mail.seqNo + 1 == item.msg.seqNo
    requires || (Owned(t.s) == Owned(w.s) && t.s.mail.range == Fold(w.s.mail.range, item.msg.seqNo))
             || (Owned(t.s) == Owned(w.s) + [item] && t.s.mail.range == w.s.mail.range)
    ensures Forgotten(t, n)
  {
    PendingSplit(w.s);
    PendingSplit(t.s);
    IdsConcat(Owned(w.s), RangePart(w.s.mail.range));
    IdsConcat(Owned(t.s), RangePart(t.s.mail.range));
    IdsConcat(Owned(w.s), [item]);
    SingleId(item);
    if t.s.mail.range.Some? { RangeItemsIds(t.s.mail.range.value); }
  }

  lemma RangeWriteForgotten(cfg: Config, w: World, o: StoreOutcome, now: int, n: nat)
    requires LossOk(w) && w.s.task.AwaitRange? && o != Threw
    requires Forgotten(w, n) || (StaleCapture(w.s) && o == Stored && n == w.s.mail.range.value.last)
    ensures Forgotten(Step(cfg, w, StoreAnswer(o, now)), n)
  {
    RangeWriteLossOk(cfg, w, o, now);
    var t := Step(cfg, w, StoreAnswer(o, now));
    assert t.stored <= w.stored + Span(w.s.task.range) && t.delivered == w.delivered;
    ClearedForgotten(w, t, n);
  }

  lemma ClearedForgotten(w: World, t: World, n: nat)
    requires LossOk(w) && w.s.task.AwaitRange?
              && (Forgotten(w, n) || (StaleCapture(w.s) && n == w.s.mail.range.value.last))
    requires t.s.mail.range.None? && Pending(t.s) == w.s.mail.buffer && t.s.mail.seqNo == w.s.mail.seqNo
    requires t.stored <= w.stored + Span(w.s.task.range) && t.delivered == w.delivered
    ensures Forgotten(t, n)
  {
    PendingIds(w.s);
    AloneInMemory(w);
    OwnedIds(w.s);
    IdsConcat(Carried(w.s.task) + PrepCarried(w.s), w.s.mail.buffer);
    assert n <= w.s.mail.seqNo by { assert n in Accounted(w) || Forgotten(w, n); }
  }

  /** Nothing brings a forgotten seq back. */
  lemma StepForgotten(cfg: Config, w: World, e: Event, n: nat)
    requires LossOk(w) && Step(cfg, w, e).s.health.trip.None? && Forgotten(w, n)
    ensures Forgotten(Step(cfg, w, e), n)
  {
    if e.EmitFrame? && !w.s.health.closed && w.s.reservation.None? {
      EmitForgotten(cfg, w, e.kind, e.payload, e.who, n);
    } else if e.ReleaseCalled? {
      ReleaseForgotten(cfg, w, e.proof, n);
    } else if e.StoreAnswer? && w.s.task.AwaitRange? && e.outcome != Threw {
      RangeWriteForgotten(cfg, w, e.outcome, e.now, n);
    } else {
      var k := StepTakes(cfg, w, e);
      TakesForgotten(w, Step(cfg, w, e), k, n);
    }
  }

  lemma ReleaseForgotten(cfg: Config, w: World, p: Proof, n: nat)
    requires LossOk(w) && Forgotten(w, n)
    ensures Forgotten(Step(cfg, w, ReleaseCalled(p)), n)
  {
    if CanRelease(cfg, w.s, p) { ReleaseLossOk(cfg, w, p); }
  }

  /** A trip is never undone. */
  lemma TripSticks(cfg: Config, w: World, e: Event)
    requires Inv(w.s) && w.s.health.trip.Some?
    ensures Step(cfg, w, e).s.health.trip.Some?
  {
  }

  /** An outbox append that returns has committed. */
  predicate NoRefusal(es: seq<Event>) {
    forall i :: 0 <= i < |es| ==> !(es[i].StoreAnswer? && es[i].outcome == Refused)
  }

  /** Some returned range write found the live range grown past what it had captured. */
  ghost predicate SomeForgets(cfg: Config, lastSeq: nat, es: seq<Event>) {
    exists i :: ForgetsAt(cfg, lastSeq, es, i)
  }

  predicate ForgetsAt(cfg: Config, lastSeq: nat, es: seq<Event>, i: int) {
    0 <= i < |es| && Forgets(Run(cfg, Start(lastSeq), es[..i]), es[i])
  }

  lemma ForgetsAtPrefix(cfg: Config, lastSeq: nat, es: seq<Event>, m: nat, i: nat)
    requires i < m <= |es|
    ensures ForgetsAt(cfg, lastSeq, es[..m], i) <==> ForgetsAt(cfg, lastSeq, es, i)
  {
    assert es[..m][..i] == es[..i] && es[..m][i] == es[i];
  }

  lemma IssuedStay(cfg: Config, w: World, e: Event)
    ensures Ids(w.issued) <= Ids(Step(cfg, w, e).issued)
  {
    var t := Step(cfg, w, e);
    assert w.issued <= t.issued;
    assert t.issued == w.issued + t.issued[|w.issued|..];
    IdsConcat(w.issued, t.issued[|w.issued|..]);
  }

  lemma SomeForgetsLast(cfg: Config, lastSeq: nat, es: seq<Event>)
    requires es != []
    ensures var m := |es| - 1;
            SomeForgets(cfg, lastSeq, es) <==>
              SomeForgets(cfg, lastSeq, es[..m]) || Forgets(Run(cfg, Start(lastSeq), es[..m]), es[m])
  {
    var m := |es| - 1;
    if SomeForgets(cfg, lastSeq, es[..m]) {
      var i :| ForgetsAt(cfg, lastSeq, es[..m], i);
      ForgetsAtPrefix(cfg, lastSeq, es, m, i);
    }
    if Forgets(Run(cfg, Start(lastSeq), es[..m]), es[m]) {
      assert ForgetsAt(cfg, lastSeq, es, m);
    } else if SomeForgets(cfg, lastSeq, es) {
      var i :| ForgetsAt(cfg, lastSeq, es, i);
      ForgetsAtPrefix(cfg, lastSeq, es, m, i);
    }
  }

  /** The invariant along an untripped run, and what a forgetting step leaves behind. */
  lemma {:induction false} RunLoss(cfg: Config, lastSeq: nat, es: seq<Event>)
    requires NoRefusal(es) && Run(cfg, Start(lastSeq), es).s.health.trip.None?
    ensures LossOk(Run(cfg, Start(lastSeq), es))
    ensures !SomeForgets(cfg, lastSeq, es) ==> Covered(Run(cfg, Start(lastSeq), es))
    ensures SomeForgets(cfg, lastSeq, es) ==>
            exists n :: n in Ids(Run(cfg, Start(lastSeq), es).issued) && Forgotten(Run(cfg, Start(lastSeq), es), n)
    decreases |es|
  {
    if es == [] {
      assert Pending(Init(lastSeq)) == [];
    } else {
      var m := |es| - 1;
      var w := Run(cfg, Start(lastSeq), es[..m]);
      var e := es[m];
      RunOk(cfg, lastSeq, es[..m]);
      if w.s.health.trip.Some? { TripSticks(cfg, w, e); }
      RunLoss(cfg, lastSeq, es[..m]);
      SomeForgetsLast(cfg, lastSeq, es);
      StepLossOk(cfg, w, e);
      IssuedStay(cfg, w, e);
      if SomeForgets(cfg, lastSeq, es[..m]) {
        var n :| n in Ids(w.issued) && Forgotten(w, n);
        StepForgotten(cfg, w, e, n);
      } else if Forgets(w, e) {
        RangeWriteForgotten(cfg, w, Stored, e.now, w.s.mail.range.value.last);
      } else {
        StepCovered(cfg, w, e);
      }
    }
  }

  /** The exact condition. In an untripped run whose returned appends all committed, across spill,
      re-arm, reservation and release, every assigned seq is owed, stored or delivered if and only
      if no range write returned after the live range had grown past what it captured. */
  lemma SpillCoverage(cfg: Config, lastSeq: nat, es: seq<Event>)
    requires NoRefusal(es) && Run(cfg, Start(lastSeq), es).s.health.trip.None?
    ensures Covered(Run(cfg, Start(lastSeq), es)) <==> !SomeForgets(cfg, lastSeq, es)
  {
    RunLoss(cfg, lastSeq, es);
  }

  /** A capture goes stale at exactly one kind of step: an emit that the spill buffer cap drops
      into the range while the range's record is being written. */
  lemma StaleByFold(cfg: Config, w: World, e: Event)
    requires Inv(w.s) && CaptureOk(w.s) && !StaleCapture(w.s)
    ensures StaleCapture(Step(cfg, w, e).s) <==>
            && w.s.task.AwaitRange? && e.EmitFrame? && !w.s.health.closed && w.s.reservation.None?
            && WillFold(cfg, w.s, NewItem(w.s, Frame(e.kind, e.payload), e.who))
  {
    if e.EmitFrame? && !w.s.health.closed && w.s.reservation.None? {
      EmitOwned(cfg, w.s, Frame(e.kind, e.payload), e.who);
    } else if !e.EmitFrame? {
      StaleStays(cfg, w, e);
    }
  }

  lemma StaleStays(cfg: Config, w: World, e: Event)
    requires Inv(w.s) && CaptureOk(w.s) && !StaleCapture(w.s) && !e.EmitFrame?
    ensures !StaleCapture(Step(cfg, w, e).s)
  {
    match e
    case PostAnswer(r, _, now) => PostCaptureOk(cfg, w.s, r, now);
    case StoreAnswer(o, now) =>
    case ReleaseCalled(p) =>
    case _ => OtherTask(cfg, w, e);
  }
}
