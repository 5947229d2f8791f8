/** Where an assigned seq can be while the batcher spills and re-arms. Until a trip every assigned
    seq is owed, stored or delivered, with one exception that the code allows: a message dropped
    into the range while its record is being written is forgotten when the write returns. */
module BatcherCoverage {
  import opened Options
  import opened BatcherTypes
  import opened BatcherMachine
  import opened BatcherRuns
  import opened BatcherInvariant
  import opened BatcherCourse
  import opened BatcherPending

  function MsgIds(ms: seq<Msg>): set<nat> {
    set i | 0 <= i < |ms| :: ms[i].seqNo
  }

  /** Buffered, in flight, in the dropped range, in a committed record, or accepted. */
  function Accounted(w: World): set<nat> {
    Ids(Pending(w.s)) + w.stored + MsgIds(w.delivered)
  }

  predicate Covered(w: World) {
    Ids(w.issued) <= Accounted(w)
  }

  /** The range record under write no longer covers the live range. */
  predicate StaleCapture(s: State) {
    s.task.AwaitRange? && s.mail.range.Some? && s.mail.range.value.last > s.task.range.last
  }

  /** The one step that forgets seqs: such a write returns. */
  predicate Forgets(w: World, e: Event) {
    StaleCapture(w.s) && e.StoreAnswer? && e.outcome == Stored
  }

  lemma IdsConcat(a: seq<Item>, b: seq<Item>)
    ensures Ids(a + b) == Ids(a) + Ids(b)
  {
    forall n | n in Ids(a) + Ids(b) ensures n in Ids(a + b) {
      if n in Ids(a) {
        var i :| 0 <= i < |a| && a[i].msg.seqNo == n;
        assert (a + b)[i].msg.seqNo == n;
      } else {
        var i :| 0 <= i < |b| && b[i].msg.seqNo == n;
        assert (a + b)[|a| + i].msg.seqNo == n;
      }
    }
  }

  lemma MsgIdsConcat(a: seq<Msg>, q: seq<Item>)
    ensures MsgIds(a + Msgs(q)) == MsgIds(a) + Ids(q)
  {
    var b := Msgs(q);
    forall n | n in MsgIds(a) + Ids(q) ensures n in MsgIds(a + b) {
      if n in MsgIds(a) {
        var i :| 0 <= i < |a| && a[i].seqNo == n;
        assert (a + b)[i].seqNo == n;
      } else {
        var i :| 0 <= i < |q| && q[i].msg.seqNo == n;
        assert (a + b)[|a| + i].seqNo == n;
      }
    }
  }

  lemma HeadMarkedIds(q: seq<Item>, event: MarkerEvent, reason: Reason)
    requires |q| > 0
    ensures Ids(HeadMarked(q, event, reason)) == Ids(q)
  {
    var h := HeadMarked(q, event, reason);
    assert forall i :: 0 <= i < |q| ==> h[i].msg.seqNo == q[i].msg.seqNo;
  }

  lemma RangeItemsIds(r: Range)
    requires r.first <= r.last
    ensures Ids(RangeItems(r.first, r.last - r.first + 1)) == Span(r)
  {
    var q := RangeItems(r.first, r.last - r.first + 1);
    forall n: nat | r.first <= n <= r.last ensures n in Ids(q) {
      assert q[n - r.first].msg.seqNo == n;
    }
  }

  /** The owed seqs: carried, being prepared, buffered, and the live range. */
  lemma PendingIds(s: State)
    requires Inv(s)
    ensures Ids(Pending(s)) == Ids(Carried(s.task)) + Ids(PrepCarried(s)) + Ids(s.mail.buffer)
                             + (if s.mail.range.Some? then Span(s.mail.range.value) else {})
  {
    var a, b, q := Carried(s.task), PrepCarried(s), Queue(s.mail);
    assert Pending(s) == a + (b + q);
    IdsConcat(a, b + q);
    IdsConcat(b, q);
    QueueIds(s.mail);
  }

  lemma QueueIds(m: Mail)
    requires MailOk(m)
    ensures Ids(Queue(m)) == Ids(m.buffer) + (if m.range.Some? then Span(m.range.value) else {})
  {
    IdsConcat(m.buffer, RangePart(m.range));
    if m.range.Some? { RangeItemsIds(m.range.value); }
  }

  /** Settling a post moves exactly the confirmed seqs from owed to delivered. */
  lemma SettledIds(s: State, r: Reply, t: State)
    requires SettledTo(s, r, t) && Outstanding(s.task) <= Pending(s)
    ensures Ids(Pending(s)) == Ids(Pending(t)) + (if r.Accepted? then Ids(Outstanding(s.task)) else {})
  {
    var base := Unsent(s, r);
    MarkedIds(s, r, t);
    if r.Accepted? {
      assert Pending(s) == Outstanding(s.task) + base;
      IdsConcat(Outstanding(s.task), base);
    }
  }

  lemma MarkedIds(s: State, r: Reply, t: State)
    requires SettledTo(s, r, t) && Outstanding(s.task) <= Pending(s)
    ensures Ids(Pending(t)) == Ids(Unsent(s, r))
  {
    var base := Unsent(s, r);
    if |base| > 0 {
      HeadMarkedIds(base, MessageDropped, PayloadRejected);
      HeadMarkedIds(base, MessageTruncated, RejectedTooLarge);
    }
  }

  /** The range under write is the head part of the live range. */
  predicate CaptureOk(s: State) {
    s.task.AwaitRange? ==>
      && s.mail.range.Some?
      && s.task.range.first == s.mail.range.value.first && s.task.range.last <= s.mail.range.value.last
  }

  lemma PostCaptureOk(cfg: Config, s: State, r: Reply, now: int)
    ensures PostOutstanding(s) ==> !SettlePost(cfg, s, r, now).task.AwaitRange?
  {
  }

  lemma StepCapture(cfg: Config, w: World, e: Event)
    requires Inv(w.s) && CaptureOk(w.s)
    ensures CaptureOk(Step(cfg, w, e).s)
  {
    match e
    case EmitFrame(kind, payload, who) => EmitCaptureOk(cfg, w.s, Frame(kind, payload), who);
    case PostAnswer(r, _, now) => PostCaptureOk(cfg, w.s, r, now);
    case StoreAnswer(o, now) =>
    case ReleaseCalled(p) => assert CanRelease(cfg, w.s, p) ==> w.s.task.Idle?;
    case _ => OtherTask(cfg, w, e);
  }

  lemma EmitCaptureOk(cfg: Config, s: State, body: Body, who: Attribution)
    requires Inv(s) && CaptureOk(s)
    ensures CaptureOk(Emit(cfg, s, body, who))
  {
  }

  /** No other event touches a range write. */
  lemma OtherTask(cfg: Config, w: World, e: Event)
    requires Inv(w.s) && !e.EmitFrame? && !e.PostAnswer? && !e.StoreAnswer? && !e.ReleaseCalled?
    ensures var t := Step(cfg, w, e).s;
            if w.s.task.AwaitRange? then t.task == w.s.task && t.mail.range == w.s.mail.range else !t.task.AwaitRange?
  {
  }

  lemma EmitIds(cfg: Config, s: State, body: Body, who: Attribution)
    requires Inv(s) && !s.health.closed && s.reservation.None?
    ensures var n := s.mail.seqNo + 1;
            Ids(Pending(Emit(cfg, s, body, who))) >= Ids(Pending(s)) + {n}
  {
    var t := Emit(cfg, s, body, who);
    var item := NewItem(s, body, who);
    EmitOk(cfg, s, body, who);
    EmitOwned(cfg, s, body, who);
    OwnedIds(s);
    OwnedIds(t);
    IdsConcat(Owned(s), [item]);
    SingleId(item);
  }

  lemma OwnedIds(s: State)
    requires Inv(s)
    ensures Ids(Pending(s)) == Ids(Owned(s)) + (if s.mail.range.Some? then Span(s.mail.range.value) else {})
  {
    PendingSplit(s);
    IdsConcat(Owned(s), RangePart(s.mail.range));
    if s.mail.range.Some? { RangeItemsIds(s.mail.range.value); }
  }

  /** A returned write that does not forget keeps every seq accounted for. */
  lemma StoreCovered(cfg: Config, w: World, o: StoreOutcome, now: int)
    requires Inv(w.s) && CaptureOk(w.s) && o != Refused && !Forgets(w, StoreAnswer(o, now))
    ensures Accounted(Step(cfg, w, StoreAnswer(o, now))) >= Accounted(w)
  {
    var s := w.s;
    if o == Threw {
      StoreThrewKeeps(s, now);
    } else {
      StoreReturnedKeeps(s, o, now);
      if !s.task.Idle? { NoPreparation(s); }
      if s.task.AwaitSegment? {
        IdsConcat(s.task.batch, Queue(s.mail));
      } else if s.task.AwaitRange? {
        PendingIds(s);
      }
    }
  }

  lemma PostCovered(cfg: Config, w: World, r: Reply, applied: bool, now: int)
    requires Inv(w.s) && PostOutstanding(w.s) && SettlePost(cfg, w.s, r, now).health.trip.None?
    ensures Accounted(Step(cfg, w, PostAnswer(r, applied, now))) == Accounted(w)
  {
    SettlePostKeeps(cfg, w.s, r, now);
    var t := Step(cfg, w, PostAnswer(r, applied, now));
    SettledIds(w.s, r, t.s);
    MsgIdsConcat(w.delivered, Outstanding(w.s.task));
  }

  lemma PrepCovered(cfg: Config, w: World, r: Reply, applied: bool, expired: bool, permanent: bool)
    requires Inv(w.s)
    ensures Accounted(Step(cfg, w, PrepareAnswer(r, applied, expired, permanent))) == Accounted(w)
  {
    if PrepCarried(w.s) != [] {
      PrepPostedKeeps(w.s, r, expired, permanent);
      PrepStep(cfg, w, r, applied, expired, permanent);
      SentAccounted(w, Step(cfg, w, PrepareAnswer(r, applied, expired, permanent)), PrepCarried(w.s), Queue(w.s.mail),
          r);
    }
  }

  lemma PrepStep(cfg: Config, w: World, r: Reply, applied: bool, expired: bool, permanent: bool)
    requires PrepCarried(w.s) != []
    ensures var t := Step(cfg, w, PrepareAnswer(r, applied, expired, permanent));
            && t.s == PrepPosted(w.s, r, expired, permanent) && t.stored == w.stored && t.issued == w.issued
            && t.delivered == if r.Accepted? then w.delivered + Msgs(PrepCarried(w.s)) else w.delivered
  {
  }

  lemma SentAccounted(w: World, t: World, sent: seq<Item>, rest: seq<Item>, r: Reply)
    requires Pending(w.s) == sent + rest && t.stored == w.stored
    requires Pending(t.s) == if r.Accepted? then rest else sent + rest
    requires t.delivered == if r.Accepted? then w.delivered + Msgs(sent) else w.delivered
    ensures Accounted(t) == Accounted(w)
  {
    ConfirmedIds(w.delivered, sent, rest);
  }

  /** A confirmed request moves from owed to delivered. */
  lemma ConfirmedIds(delivered: seq<Msg>, sent: seq<Item>, rest: seq<Item>)
    ensures Ids(sent + rest) + MsgIds(delivered) == Ids(rest) + MsgIds(delivered + Msgs(sent))
  {
    IdsConcat(sent, rest);
    MsgIdsConcat(delivered, sent);
  }

  lemma EmitCovered(cfg: Config, w: World, kind: string, payload: string, who: Attribution)
    requires Inv(w.s) && !w.s.health.closed && w.s.reservation.None?
    ensures var t := Step(cfg, w, EmitFrame(kind, payload, who));
            Ids(t.issued) == Ids(w.issued) + {w.s.mail.seqNo + 1} && Accounted(t) >= Accounted(w) + {w.s.mail.seqNo + 1}
  {
    var item := NewItem(w.s, Frame(kind, payload), who);
    EmitIds(cfg, w.s, Frame(kind, payload), who);
    IdsConcat(w.issued, [item]);
    SingleId(item);
  }

  lemma SingleId(item: Item)
    ensures Ids([item]) == {item.msg.seqNo}
  {
    assert [item][0] == item;
  }

  lemma ReleaseCovered(cfg: Config, w: World, p: Proof)
    requires Inv(w.s) && CanRelease(cfg, w.s, p)
    ensures var t := Step(cfg, w, ReleaseCalled(p));
            Ids(t.issued) == Ids(w.issued) + Ids(Pending(t.s)) && Accounted(t) == Accounted(w) + Ids(Pending(t.s))
  {
    ReleaseKeeps(cfg, w.s, p);
    ReleasedStep(cfg, w, p);
    ReleasedAccounted(w, Step(cfg, w, ReleaseCalled(p)));
  }

  lemma ReleasedStep(cfg: Config, w: World, p: Proof)
    requires CanRelease(cfg, w.s, p)
    ensures var t := Step(cfg, w, ReleaseCalled(p));
            && t.s == Release(cfg, w.s, p) && t.stored == w.stored && t.delivered == w.delivered
            && t.issued == w.issued + Numbered(w.s.reservation.value.held, ReleaseCursor(w.s.reservation.value, p))
  {
  }

  lemma ReleasedAccounted(w: World, t: World)
    requires Pending(w.s) == [] && t.stored == w.stored && t.delivered == w.delivered
    requires t.issued == w.issued + Pending(t.s)
    ensures Ids(t.issued) == Ids(w.issued) + Ids(Pending(t.s)) && Accounted(t) == Accounted(w) + Ids(Pending(t.s))
  {
    IdsConcat(w.issued, Pending(t.s));
  }

  /** No step but a forgetting one makes an accounted seq unaccounted for. */
  lemma StepCovered(cfg: Config, w: World, e: Event)
    requires Inv(w.s) && CaptureOk(w.s) && Covered(w)
    requires !Forgets(w, e) && !(e.StoreAnswer? && e.outcome == Refused)
    requires Step(cfg, w, e).s.health.trip.None?
    ensures Covered(Step(cfg, w, e))
  {
    if e.EmitFrame? && !w.s.health.closed && w.s.reservation.None? {
      EmitCovered(cfg, w, e.kind, e.payload, e.who);
    } else if e.ReleaseCalled? {
      if CanRelease(cfg, w.s, e.proof) { ReleaseCovered(cfg, w, e.proof); }
    } else {
      StepMoves(cfg, w, e);
      KeepsAccounted(cfg, w, e);
    }
  }

  lemma KeepsAccounted(cfg: Config, w: World, e: Event)
    requires Inv(w.s) && CaptureOk(w.s) && !e.ReleaseCalled?
    requires e.EmitFrame? ==> w.s.health.closed || w.s.reservation.Some?
    requires !Forgets(w, e) && !(e.StoreAnswer? && e.outcome == Refused)
    requires Step(cfg, w, e).s.health.trip.None?
    ensures Accounted(Step(cfg, w, e)) >= Accounted(w)
  {
    match e
    case EmitFrame(kind, payload, who) => HeldEmitKeeps(cfg, w.s, Frame(kind, payload), who);
    case PostAnswer(r, applied, now) => if PostOutstanding(w.s) { PostCovered(cfg, w, r, applied, now); }
    case StoreAnswer(o, now) => StoreCovered(cfg, w, o, now);
    case PrepareAnswer(r, applied, expired, permanent) => PrepCovered(cfg, w, r, applied, expired, permanent);
    case _ => QuietKeeps(cfg, w, e);
  }
}
