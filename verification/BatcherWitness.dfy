/** Concrete runs that show where a promise of the batcher fails, and the conditions under which
    rejections alone end a flush in delivery or a trip. */
module BatcherWitness {
  import opened Options
  import opened BatcherTypes
  import opened BatcherMachine
  import opened BatcherRuns
  import opened BatcherInvariant
  import opened BatcherPending
  import opened BatcherCoverage
  import opened BatcherLoss
  import opened BatcherDrain

  // ----- a seq lost while its range record is being written

  /** Spills at the first failure and keeps one message in memory. */
  const TIGHT := Config(0, 0, UsableStore, 0)

  const FRAME := EmitFrame("text", "", NOBODY)

  lemma RunNext(cfg: Config, lastSeq: nat, es: seq<Event>, e: Event)
    ensures Run(cfg, Start(lastSeq), es + [e]) == Step(cfg, Run(cfg, Start(lastSeq), es), e)
  {
    assert (es + [e])[..|es + [e]| - 1] == es;
  }

  function FrameItem(n: nat): Item {
    Item(Msg(n, Frame("text", ""), NOBODY), MessageBytes(Msg(n, Frame("text", ""), NOBODY)), false)
  }

  lemma SmallFrame(n: nat)
    requires n < 10
    ensures Measured(Msg(n, Frame("text", ""), NOBODY)) == FrameItem(n) && FrameItem(n).bytes == 34
  {
    assert |"text"| == 4 && |""| == 0;
  }

  function Frames(n: nat): (r: seq<Item>)
    ensures |r| == n
  {
    if n == 0 then [] else Frames(n - 1) + [FrameItem(n)]
  }

  /** The worlds before spill mode: `n` frames issued, `buffer` owed. */
  function Before(buffer: seq<Item>, failures: nat, task: Task): World {
    World(State(Mail(1, buffer, None, None),
        Health(failures, if failures == 0 then None else Some(0), None, false, false, false), None, task),
          Frames(1), [], map[], {})
  }

  /** The worlds in spill mode: the first frame is buffered, the others are in the range. */
  function Spilled(n: nat, buffer: seq<Item>, range: Option<Range>, task: Task, stored: set<nat>): World {
    World(State(Mail(n, buffer, None, range), Health(0, None, None, true, false, false), None, task), Frames(n), [],
        map[], stored)
  }

  lemma FirstFrame()
    ensures Step(TIGHT, Start(0), FRAME) == Before([FrameItem(1)], 0, Idle)
  {
    SmallFrame(1);
    assert Frames(1) == Frames(0) + [FrameItem(1)];
  }

  lemma FlushStarts()
    ensures Step(TIGHT, Before([FrameItem(1)], 0, Idle), Flush(false)) == Before([], 0, AwaitPost([FrameItem(1)]))
  {
    var b := [FrameItem(1)];
    assert b[..1] == b && b[1..] == [];
    assert TakeCount(b, 1, 0) == 1;
  }

  lemma PostFails()
    ensures Step(TIGHT, Before([], 0, AwaitPost([FrameItem(1)])), PostAnswer(NoReply, false, 0))
              == Before([FrameItem(1)], 1, AwaitSpillMark)
  {
    assert [FrameItem(1)] + [] == [FrameItem(1)];
  }

  lemma SpillMarked()
    ensures Step(TIGHT, Before([FrameItem(1)], 1, AwaitSpillMark), StoreAnswer(Stored, 0)) ==
            Spilled(1, [FrameItem(1)], None, Idle, {})
  {
  }

  lemma FrameFolds(n: nat, task: Task)
    requires 1 <= n < 9
    ensures var range := if n == 1 then None else Some(Range(2, n));
            Step(TIGHT, Spilled(n, [FrameItem(1)], range, task, {}), FRAME) ==
            Spilled(n + 1, [FrameItem(1)], Some(Range(2, n + 1)), task, {})
  {
    SmallFrame(n + 1);
    SmallFrame(1);
    var b := [FrameItem(1)];
    assert b[..0] == [] && BufferedBytes(b) == 34;
    assert Frames(n + 1) == Frames(n) + [FrameItem(n + 1)];
  }

  lemma SpillFlushStarts()
    ensures Step(TIGHT, Spilled(2, [FrameItem(1)], Some(Range(2, 2)), Idle, {}), Flush(false)) ==
            Spilled(2, [FrameItem(1)], Some(Range(2, 2)), AwaitFlushMark, {})
  {
  }

  lemma RangeWriteStarts()
    ensures Step(TIGHT, Spilled(2, [FrameItem(1)], Some(Range(2, 2)), AwaitFlushMark, {}), StoreAnswer(Stored, 0)) ==
            Spilled(2, [FrameItem(1)], Some(Range(2, 2)), AwaitRange(Range(2, 2)), {})
  {
  }

  lemma RangeWriteReturns()
    ensures Step(TIGHT, Spilled(3, [FrameItem(1)], Some(Range(2, 3)), AwaitRange(Range(2, 2)), {}),
              StoreAnswer(Stored, 0)) ==
            Spilled(3, [], None, AwaitSegment([FrameItem(1)]), {2})
  {
    var b := [FrameItem(1)];
    assert b[..1] == b && b[1..] == [];
    assert TakeCount(b, 1, 0) == 1;
    assert Span(Range(2, 2)) == {2};
  }

  lemma Extend(es: seq<Event>, w: World, e: Event, t: World) returns (fs: seq<Event>)
    requires Run(TIGHT, Start(0), es) == w && Step(TIGHT, w, e) == t && NoRefusal(es)
    requires e.StoreAnswer? ==> e.outcome == Stored
    ensures Run(TIGHT, Start(0), fs) == t && NoRefusal(fs)
  {
    RunNext(TIGHT, 0, es, e);
    fs := es + [e];
  }

  lemma SpillsFirst() returns (es: seq<Event>)
    ensures Run(TIGHT, Start(0), es) == Spilled(1, [FrameItem(1)], None, Idle, {}) && NoRefusal(es)
  {
    FirstFrame();
    es := Extend([], Start(0), FRAME, Before([FrameItem(1)], 0, Idle));
    FlushStarts();
    es := Extend(es, Before([FrameItem(1)], 0, Idle), Flush(false), Before([], 0, AwaitPost([FrameItem(1)])));
    PostFails();
    es := Extend(es, Before([], 0, AwaitPost([FrameItem(1)])), PostAnswer(NoReply, false, 0),
        Before([FrameItem(1)], 1, AwaitSpillMark));
    SpillMarked();
    es := Extend(es, Before([FrameItem(1)], 1, AwaitSpillMark), StoreAnswer(Stored, 0),
        Spilled(1, [FrameItem(1)], None, Idle, {}));
  }

  lemma FoldsDuringWrite() returns (es: seq<Event>)
    ensures Run(TIGHT, Start(0), es) == Spilled(3, [], None, AwaitSegment([FrameItem(1)]), {2}) && NoRefusal(es)
  {
    var b := [FrameItem(1)];
    es := SpillsFirst();
    FrameFolds(1, Idle);
    es := Extend(es, Spilled(1, b, None, Idle, {}), FRAME, Spilled(2, b, Some(Range(2, 2)), Idle, {}));
    SpillFlushStarts();
    es := Extend(es, Spilled(2, b, Some(Range(2, 2)), Idle, {}), Flush(false),
        Spilled(2, b, Some(Range(2, 2)), AwaitFlushMark, {}));
    RangeWriteStarts();
    es := Extend(es, Spilled(2, b, Some(Range(2, 2)), AwaitFlushMark, {}), StoreAnswer(Stored, 0),
                 Spilled(2, b, Some(Range(2, 2)), AwaitRange(Range(2, 2)), {}));
    FrameFolds(2, AwaitRange(Range(2, 2)));
    es := Extend(es, Spilled(2, b, Some(Range(2, 2)), AwaitRange(Range(2, 2)), {}), FRAME,
                 Spilled(3, b, Some(Range(2, 3)), AwaitRange(Range(2, 2)), {}));
    RangeWriteReturns();
    es := Extend(es, Spilled(3, b, Some(Range(2, 3)), AwaitRange(Range(2, 2)), {}), StoreAnswer(Stored, 0),
                 Spilled(3, [], None, AwaitSegment(b), {2}));
  }

  /** A message dropped into the range while the range's record is being written is lost: seq 3 was
      assigned, and it is neither owed, nor stored, nor delivered. Every append committed and nothing
      tripped. */
  lemma FoldedSeqIsLost() returns (es: seq<Event>)
    ensures var w := Run(TIGHT, Start(0), es);
            NoRefusal(es) && w.s.health.trip.None? && 3 in Ids(w.issued) && 3 !in Accounted(w) && !Covered(w)
  {
    es := FoldsDuringWrite();
    var w := Run(TIGHT, Start(0), es);
    assert w.issued[2].msg.seqNo == 3;
    assert Pending(w.s) == [FrameItem(1)];
  }

  // ----- rejections

  ghost predicate Never(api: Api, v: Verdict) {
    forall k, ms :: api(k, ms).Accepted? || Classify(api(k, ms)) != v
  }

  /** What one answer of such an api leaves. */
  lemma RejectionAnswer(cfg: Config, w: World, api: Api, clock: Clock, k: nat)
    requires Inv(w.s) && PostOutstanding(w.s) && Undisturbed(w.s) && Never(api, Transient)
    requires Never(api, Oversize) || (Never(api, Permanent) && w.s.task.AwaitPost?)
    ensures var next := Answer(cfg, w, api, clock, k);
            && !GivesUp(w.s.task, api(k, Msgs(Outstanding(w.s.task)))) && Inv(next.s)
            && (PostOutstanding(next.s) ==>
                  Less(next.s, w.s) && Undisturbed(next.s)
                      && (w.s.task.AwaitPost? && Never(api, Permanent) ==> next.s.task.AwaitPost?))
  {
    var r := api(k, Msgs(Outstanding(w.s.task)));
    StepOk(cfg, w, PostAnswer(r, false, clock(k)));
    SettleLess(cfg, w.s, r, clock(k));
    SettleOutcome(cfg, w.s, r, clock(k));
    assert !r.Accepted? ==> Classify(r) != Transient;
    if PostOutstanding(SettlePost(cfg, w.s, r, clock(k))) { StillPosting(cfg, w.s, r, clock(k)); }
  }

  /** An api that answers at once, and either never with a 413 or never with a permanent rejection,
      gives the flush no reason to leave messages for later. */
  lemma {:induction false} RejectionsNeverStall(cfg: Config, w: World, api: Api, clock: Clock, k: nat)
    requires Inv(w.s) && PostOutstanding(w.s) && Undisturbed(w.s) && Never(api, Transient)
    requires Never(api, Oversize) || (Never(api, Permanent) && w.s.task.AwaitPost?)
    ensures !GaveUp(cfg, w, api, clock, k)
    decreases Owing(w.s), Plainly(Pending(w.s)), SplitRoom(w.s), Phase(w.s.task)
  {
    var next := Answer(cfg, w, api, clock, k);
    RejectionAnswer(cfg, w, api, clock, k);
    if PostOutstanding(next.s) { RejectionsNeverStall(cfg, next, api, clock, k + 1); }
  }

  /** A flush with a post outstanding has not tripped, and without a permanent rejection it never
      starts to bisect. */
  lemma StillPosting(cfg: Config, s: State, r: Reply, now: int)
    requires Inv(s) && PostOutstanding(s) && Undisturbed(s) && PostOutstanding(SettlePost(cfg, s, r, now))
    ensures SettlePost(cfg, s, r, now).health.trip.None?
    ensures s.task.AwaitPost? && (r.Accepted? || Classify(r) != Permanent) ==>
              SettlePost(cfg, s, r, now).task.AwaitPost?
  {
    StepOk(cfg, World(s, [], [], map[], {}), PostAnswer(r, false, now));
  }

  /** Rejections of one class alone, however many, end a flush in delivery or in one trip. */
  lemma RejectionsEnd(cfg: Config, w: World, api: Api, clock: Clock, k: nat)
    requires Inv(w.s) && w.s.task.AwaitPost? && Undisturbed(w.s) && Never(api, Transient)
    requires Never(api, Oversize) || Never(api, Permanent)
    ensures var t := Drain(cfg, w, api, clock, k).s; t.health.trip.Some? || Pending(t) == []
  {
    RejectionsNeverStall(cfg, w, api, clock, k);
    DrainOutcome(cfg, w, api, clock, k);
  }

  // ----- a 413 inside a bisection

  /** A 400 for two messages together, a 413 for one alone. */
  function Mixed(): Api {
    (k: nat, ms: seq<Msg>) => if |ms| == 2 then Rejected(400, false) else Rejected(413, false)
  }

  /** Two messages, the post of both outstanding. */
  function TwoPosted(): World {
    World(State(Mail(2, [], None, None), Health(0, None, None, false, false, false), None, AwaitPost(Frames(2))),
        Frames(2), [], map[], {})
  }

  const PATIENT := Config(0, 1, NoStore, 0)

  lemma TwoPostedOk()
    ensures Inv(TwoPosted().s) && |Frames(2)| == 2
  {
    assert Frames(2) == Frames(1) + [FrameItem(2)];
    assert Frames(1) == Frames(0) + [FrameItem(1)];
  }

  function Buffered(n: nat): World {
    World(State(Mail(n, Frames(n), None, None), Health(0, None, None, false, false, false), None, Idle), Frames(n), [],
        map[], {})
  }

  lemma FrameBuffered(n: nat)
    requires n < 9
    ensures Step(PATIENT, Buffered(n), FRAME) == Buffered(n + 1)
  {
    SmallFrame(n + 1);
    assert Frames(n + 1) == Frames(n) + [FrameItem(n + 1)];
  }

  lemma BothTaken()
    ensures Step(PATIENT, Buffered(2), Flush(false)) == TwoPosted()
  {
    var q := Frames(2);
    BothFit(q);
    assert q[..2] == q && q[2..] == [];
  }

  lemma BothFit(q: seq<Item>)
    requires q == Frames(2)
    ensures TakeCount(q, 2, 0) == 2
  {
    SmallFrame(1);
    SmallFrame(2);
    assert Frames(2) == Frames(1) + [FrameItem(2)] && Frames(1) == Frames(0) + [FrameItem(1)];
    TwoFit(q);
  }

  lemma TwoFit(q: seq<Item>)
    requires |q| == 2 && q[0].bytes == 34 && q[1].bytes == 34
    ensures TakeCount(q, 2, 0) == 2
  {
    assert q[..2][..1] == q[..1] && q[..1][..0] == [];
    assert WireSize(q[..1]) == FRAMING_BYTES + 35;
    assert WireSize(q[..2]) == FRAMING_BYTES + 70;
    assert TakeCount(q, 2, 1) == TakeCount(q, 2, 2) == 2;
  }

  /** Two emitted frames and a flush lead there. */
  lemma TwoPostedReached() returns (es: seq<Event>)
    ensures Run(PATIENT, Start(0), es) == TwoPosted()
  {
    assert Start(0) == Buffered(0);
    FrameBuffered(0);
    RunNext(PATIENT, 0, [], FRAME);
    var a := [] + [FRAME];
    FrameBuffered(1);
    RunNext(PATIENT, 0, a, FRAME);
    var b := a + [FRAME];
    BothTaken();
    RunNext(PATIENT, 0, b, Flush(false));
    es := b + [Flush(false)];
  }

  /** When the two classes mix, a flush can stop with everything still owed and nothing tripped: the
      whole batch is rejected for its payload, and the first probe for its size. */
  lemma MixedRejectionsStall(clock: Clock) returns (es: seq<Event>)
    ensures var w := Run(PATIENT, Start(0), es);
            && Never(Mixed(), Transient) && Inv(w.s) && GaveUp(PATIENT, w, Mixed(), clock, 0)
            && var t := Drain(PATIENT, w, Mixed(), clock, 0).s; t.health.trip.None? && Pending(t) == Frames(2)
  {
    es := TwoPostedReached();
    MixedStalls(clock);
  }

  lemma MixedStalls(clock: Clock)
    ensures Inv(TwoPosted().s) && GaveUp(PATIENT, TwoPosted(), Mixed(), clock, 0)
    ensures var t := Drain(PATIENT, TwoPosted(), Mixed(), clock, 0).s; t.health.trip.None? && Pending(t) == Frames(2)
  {
    var w := TwoPosted();
    TwoPostedOk();
    var q := Frames(2);
    var next := Answer(PATIENT, w, Mixed(), clock, 0);
    StepOk(PATIENT, w, PostAnswer(Rejected(400, false), false, clock(0)));
    assert next.s.task == AwaitProbe(q, 0, 2, 1, false);
    assert Outstanding(next.s.task) == q[0..1];
    assert GivesUp(next.s.task, Mixed()(1, Msgs(Outstanding(next.s.task))));
    var last := Answer(PATIENT, next, Mixed(), clock, 1);
    StepOk(PATIENT, next, PostAnswer(Rejected(413, false), false, clock(1)));
    assert last.s.task == Idle && last.s.health.trip.None?;
    assert Drain(PATIENT, w, Mixed(), clock, 0) == Drain(PATIENT, next, Mixed(), clock, 1) == last;
    DrainOutcome(PATIENT, w, Mixed(), clock, 0);
  }
}
