/** Against an api that rejects a batch permanently exactly when it holds a poisoned message, one
    flush delivers the whole queue with each poisoned message replaced by its marker, and replaying
    the same messages from the outbox delivers the identical stream. */
module BatcherFidelity {
  import opened Options
  import opened BatcherTypes
  import opened BatcherMachine
  import opened BatcherRuns
  import opened BatcherInvariant
  import opened BatcherPending
  import opened BatcherTruth
  import opened BatcherDrain

  ghost predicate Tainted(poison: iset<Msg>, ms: seq<Msg>) {
    exists i :: 0 <= i < |ms| && ms[i] in poison
  }

  /** Rejects permanently exactly the tainted batches, and accepts everything else. */
  ghost predicate Exact(poison: iset<Msg>, ms: seq<Msg>, r: Reply) {
    if Tainted(poison, ms) then !r.Accepted? && Classify(r) == Permanent else r.Accepted?
  }

  ghost predicate ExactApi(poison: iset<Msg>, api: Api) {
    forall k, ms :: Exact(poison, ms, api(k, ms))
  }

  /** The api accepts the worker's markers. */
  ghost predicate MarkersClean(poison: iset<Msg>) {
    forall m :: IsMarker(m) ==> m !in poison
  }

  /** A poisoned message becomes its marker; any other message stays. */
  ghost function Cleaned(poison: iset<Msg>, item: Item): Msg {
    if item.msg in poison then Tombstone(item, MessageDropped, PayloadRejected).msg else item.msg
  }

  ghost function CleanedAll(poison: iset<Msg>, q: seq<Item>): (r: seq<Msg>)
    ensures |r| == |q|
    ensures forall i :: 0 <= i < |q| ==> r[i] == Cleaned(poison, q[i])
  {
    if q == [] then [] else [Cleaned(poison, q[0])] + CleanedAll(poison, q[1..])
  }

  lemma ExactTruthful(poison: iset<Msg>, sent: seq<Item>, r: Reply)
    requires Exact(poison, Msgs(sent), r)
    ensures Truthful(poison, sent, r)
  {
    if Tainted(poison, Msgs(sent)) {
      var i :| 0 <= i < |sent| && Msgs(sent)[i] in poison;
    } else {
      forall i | 0 <= i < |sent| ensures sent[i].msg !in poison { assert Msgs(sent)[i] !in poison; }
    }
  }

  lemma SingleTaint(poison: iset<Msg>, item: Item, r: Reply)
    requires Exact(poison, Msgs([item]), r)
    ensures r.Accepted? <==> item.msg !in poison
  {
    assert Msgs([item])[0] == item.msg;
  }

  lemma ExactPost(poison: iset<Msg>, cfg: Config, s: State, r: Reply, now: int)
    requires Inv(s) && s.task.AwaitPost? && Undisturbed(s) && MarkersClean(poison)
    requires Exact(poison, Msgs(Outstanding(s.task)), r)
    ensures Undisturbed(SettlePost(cfg, s, r, now)) && !GivesUp(s.task, r)
  {
    InvReady(s);
    var batch := s.task.batch;
    if r.Accepted? {
      ContinueOutcome(s.(mail := s.mail.(split := None), health := ClearStreak(s.health)));
    } else {
      if |batch| == 1 {
        assert batch == [batch[0]];
        SingleTaint(poison, batch[0], r);
        assert ItemOk(batch[0]);
      }
      PermanentOutcome(cfg, s, batch, now);
    }
  }

  lemma ExactProbe(poison: iset<Msg>, cfg: Config, s: State, r: Reply, now: int)
    requires Inv(s) && s.task.AwaitProbe? && Undisturbed(s) && MarkersClean(poison)
    requires Exact(poison, Msgs(Outstanding(s.task)), r)
    ensures Undisturbed(SettlePost(cfg, s, r, now)) && !GivesUp(s.task, r)
  {
    InvReady(s);
    var batch, lo, hi, posts := s.task.batch, s.task.lo, s.task.hi, s.task.posts;
    var mid := Mid(lo, hi);
    SearchBoundHalves(|batch|, hi - lo, hi - mid, posts - 1);
    SearchBoundHalves(|batch|, hi - lo, mid - lo, posts - 1);
    if hi - mid > 1 { BudgetSuffices(batch, hi - mid, posts); }
    if mid - lo > 1 { BudgetSuffices(batch, mid - lo, posts); }
  }

  lemma ExactMarker(poison: iset<Msg>, cfg: Config, s: State, r: Reply, now: int)
    requires Inv(s) && s.task.AwaitMarker? && Undisturbed(s) && MarkersClean(poison)
    requires Exact(poison, Msgs(Outstanding(s.task)), r)
    ensures Undisturbed(SettlePost(cfg, s, r, now)) && !GivesUp(s.task, r)
  {
    InvReady(s);
    SingleTaint(poison, s.task.marker, r);
    EndBisectOutcome(cfg, s, s.task.batch[s.task.lo + 1..], true, now);
  }

  /** Such an api never trips, stalls or stops the flush. */
  lemma ExactUndisturbed(poison: iset<Msg>, cfg: Config, s: State, r: Reply, now: int)
    requires Inv(s) && PostOutstanding(s) && Undisturbed(s) && MarkersClean(poison)
    requires Exact(poison, Msgs(Outstanding(s.task)), r)
    ensures Undisturbed(SettlePost(cfg, s, r, now)) && !GivesUp(s.task, r)
  {
    match s.task
    case AwaitPost(_) => ExactPost(poison, cfg, s, r, now);
    case AwaitProbe(_, _, _, _, _) => ExactProbe(poison, cfg, s, r, now);
    case AwaitMarker(_, _, _, _) => ExactMarker(poison, cfg, s, r, now);
  }

  /** Against such an api an answer only confirms messages or marks a poisoned head. */
  lemma ExactSettles(poison: iset<Msg>, cfg: Config, s: State, r: Reply, now: int)
    requires Inv(s) && PostOutstanding(s) && Undisturbed(s) && MarkersClean(poison) && Window(poison, s.task)
    requires Exact(poison, Msgs(Outstanding(s.task)), r)
    ensures var t := SettlePost(cfg, s, r, now);
            var base := Unsent(s, r);
            && Window(poison, t.task)
            && (|| Pending(t) == base
                || (|base| > 0 && base[0].msg in poison
                    && Pending(t) == HeadMarked(base, MessageDropped, PayloadRejected)))
  {
    ExactTruthful(poison, Outstanding(s.task), r);
    ExactUndisturbed(poison, cfg, s, r, now);
    SettlePostKeeps(cfg, s, r, now);
    SettledWindow(poison, cfg, s, r, now);
    var t := SettlePost(cfg, s, r, now);
    var base := Unsent(s, r);
    if |base| > 0 && !base[0].tombstoned && Pending(t) != base {
      assert Pending(t) == HeadMarked(base, MessageDropped, PayloadRejected);
      assert HeadMarked(base, MessageDropped, PayloadRejected)[0] != HeadMarked(base, MessageTruncated,
          RejectedTooLarge)[0];
    }
  }

  lemma {:induction false} CleanedConcat(poison: iset<Msg>, a: seq<Item>, b: seq<Item>)
    ensures CleanedAll(poison, a + b) == CleanedAll(poison, a) + CleanedAll(poison, b)
  {
    assert forall i :: 0 <= i < |a| ==> (a + b)[i] == a[i];
    assert forall i :: 0 <= i < |b| ==> (a + b)[|a| + i] == b[i];
  }

  lemma CleanStays(poison: iset<Msg>, q: seq<Item>)
    requires !Tainted(poison, Msgs(q))
    ensures CleanedAll(poison, q) == Msgs(q)
  {
    forall i | 0 <= i < |q| ensures Cleaned(poison, q[i]) == q[i].msg { assert Msgs(q)[i] !in poison; }
  }

  lemma MarkedCleaned(poison: iset<Msg>, q: seq<Item>)
    requires |q| > 0 && ItemsOk(q) && MarkersClean(poison) && q[0].msg in poison
    ensures CleanedAll(poison, HeadMarked(q, MessageDropped, PayloadRejected)) == CleanedAll(poison, q)
  {
    var h := HeadMarked(q, MessageDropped, PayloadRejected);
    assert ItemOk(q[0]);
    assert forall i :: 0 < i < |q| ==> h[i] == q[i];
  }

  lemma PendingItemsOk(s: State)
    requires Inv(s) && !s.task.Idle?
    ensures ItemsOk(Pending(s))
  {
    InvReady(s);
    NoPreparation(s);
  }

  lemma QueueItemsOk(s: State)
    requires Inv(s)
    ensures ItemsOk(Queue(s.mail))
  {
  }

  /** The cleaned queue before is what was confirmed, followed by the cleaned queue after. */
  lemma CleanedSettled(poison: iset<Msg>, s: State, r: Reply, t: State)
    requires ItemsOk(Pending(s)) && Outstanding(s.task) <= Pending(s) && MarkersClean(poison)
    requires Exact(poison, Msgs(Outstanding(s.task)), r)
    requires var base := Unsent(s, r);
             || Pending(t) == base
             || (|base| > 0 && base[0].msg in poison && Pending(t) == HeadMarked(base, MessageDropped, PayloadRejected))
    ensures CleanedAll(poison, Pending(s)) ==
            (if r.Accepted? then Msgs(Outstanding(s.task)) else []) + CleanedAll(poison, Pending(t))
  {
    var sent := Outstanding(s.task);
    var base := Unsent(s, r);
    assert ItemsOk(base);
    if |base| > 0 && base[0].msg in poison { MarkedCleaned(poison, base); }
    if r.Accepted? {
      assert Pending(s) == sent + base;
      CleanedConcat(poison, sent, base);
      CleanStays(poison, sent);
    }
  }

  /** What is delivered plus the cleaned rest does not change. */
  lemma StreamConstant(poison: iset<Msg>, cfg: Config, w: World, r: Reply, now: int)
    requires Inv(w.s) && PostOutstanding(w.s) && Undisturbed(w.s) && MarkersClean(poison) && Window(poison, w.s.task)
    requires Exact(poison, Msgs(Outstanding(w.s.task)), r)
    ensures var t := Step(cfg, w, PostAnswer(r, false, now));
            t.delivered + CleanedAll(poison, Pending(t.s)) == w.delivered + CleanedAll(poison, Pending(w.s))
  {
    var confirmed := if r.Accepted? then Msgs(Outstanding(w.s.task)) else [];
    StepDelivers(cfg, w, r, now);
    CleanedStep(poison, cfg, w.s, r, now);
    Regroup(w.delivered, confirmed, CleanedAll(poison, Pending(SettlePost(cfg, w.s, r, now))));
  }

  lemma Regroup(a: seq<Msg>, b: seq<Msg>, c: seq<Msg>)
    ensures (a + b) + c == a + (b + c)
  {
  }

  lemma StepDelivers(cfg: Config, w: World, r: Reply, now: int)
    requires PostOutstanding(w.s)
    ensures var t := Step(cfg, w, PostAnswer(r, false, now));
            && t.s == SettlePost(cfg, w.s, r, now)
            && t.delivered == w.delivered + (if r.Accepted? then Msgs(Outstanding(w.s.task)) else [])
  {
  }

  lemma CleanedStep(poison: iset<Msg>, cfg: Config, s: State, r: Reply, now: int)
    requires Inv(s) && PostOutstanding(s) && Undisturbed(s) && MarkersClean(poison) && Window(poison, s.task)
    requires Exact(poison, Msgs(Outstanding(s.task)), r)
    ensures CleanedAll(poison, Pending(s)) ==
            (if r.Accepted? then Msgs(Outstanding(s.task)) else [])
                + CleanedAll(poison, Pending(SettlePost(cfg, s, r, now)))
  {
    SettlePostKeeps(cfg, s, r, now);
    ExactSettles(poison, cfg, s, r, now);
    PendingItemsOk(s);
    CleanedSettled(poison, s, r, SettlePost(cfg, s, r, now));
  }

  /** What one answer of such an api leaves. */
  lemma ExactAnswer(poison: iset<Msg>, cfg: Config, w: World, api: Api, clock: Clock, k: nat)
    requires Inv(w.s) && PostOutstanding(w.s) && Undisturbed(w.s) && Window(poison, w.s.task)
    requires MarkersClean(poison) && ExactApi(poison, api)
    ensures var next := Answer(cfg, w, api, clock, k);
            && Inv(next.s) && Undisturbed(next.s) && Window(poison, next.s.task)
            && next.delivered + CleanedAll(poison, Pending(next.s)) == w.delivered + CleanedAll(poison, Pending(w.s))
            && if PostOutstanding(next.s) then Less(next.s, w.s) else next.s.task.Idle? && Pending(next.s) == []
  {
    var r := api(k, Msgs(Outstanding(w.s.task)));
    assert Exact(poison, Msgs(Outstanding(w.s.task)), r);
    StepOk(cfg, w, PostAnswer(r, false, clock(k)));
    SettleLess(cfg, w.s, r, clock(k));
    ExactStops(poison, cfg, w.s, r, clock(k));
    ExactSettles(poison, cfg, w.s, r, clock(k));
    StreamConstant(poison, cfg, w, r, clock(k));
  }

  lemma ExactStops(poison: iset<Msg>, cfg: Config, s: State, r: Reply, now: int)
    requires Inv(s) && PostOutstanding(s) && Undisturbed(s) && MarkersClean(poison)
    requires Exact(poison, Msgs(Outstanding(s.task)), r)
    ensures var t := SettlePost(cfg, s, r, now);
            Undisturbed(t) && (!PostOutstanding(t) ==> t.task.Idle? && Pending(t) == [])
  {
    SettleOutcome(cfg, s, r, now);
    ExactUndisturbed(poison, cfg, s, r, now);
  }

  lemma {:induction false} DrainDelivers(poison: iset<Msg>, cfg: Config, w: World, api: Api, clock: Clock, k: nat)
    requires Inv(w.s) && PostOutstanding(w.s) && Undisturbed(w.s) && Window(poison, w.s.task)
    requires MarkersClean(poison) && ExactApi(poison, api)
    ensures var t := Drain(cfg, w, api, clock, k);
            t.s.task.Idle? && Undisturbed(t.s) && Pending(t.s) == []
                && t.delivered == w.delivered + CleanedAll(poison, Pending(w.s))
    decreases Owing(w.s), Plainly(Pending(w.s)), SplitRoom(w.s), Phase(w.s.task)
  {
    var next := Answer(cfg, w, api, clock, k);
    ExactAnswer(poison, cfg, w, api, clock, k);
    if PostOutstanding(next.s) { DrainDelivers(poison, cfg, next, api, clock, k + 1); }
  }

  /** One flush of an idle batcher delivers the buffer and the dropped range, in order, with each
      poisoned message replaced by its marker, and leaves nothing owed. */
  lemma FlushDelivers(poison: iset<Msg>, cfg: Config, w: World, api: Api, clock: Clock)
    requires Inv(w.s) && w.s.task.Idle? && w.s.reservation.None? && w.s.health.trip.None? && !w.s.health.spilled
    requires MarkersClean(poison) && ExactApi(poison, api)
    ensures Inv(Step(cfg, w, Flush(false)).s)
    ensures var t := Drain(cfg, Step(cfg, w, Flush(false)), api, clock, 0);
            t.s.task.Idle? && t.s.health.trip.None? && Pending(t.s) == []
            && t.delivered == w.delivered + CleanedAll(poison, Queue(w.s.mail))
  {
    FlushStarts(cfg, w);
    var f := Step(cfg, w, Flush(false));
    if PostOutstanding(f.s) { DrainDelivers(poison, cfg, f, api, clock, 0); }
  }

  lemma FlushStarts(cfg: Config, w: World)
    requires Inv(w.s) && w.s.task.Idle? && w.s.reservation.None? && w.s.health.trip.None? && !w.s.health.spilled
    ensures var f := Step(cfg, w, Flush(false));
            && Inv(f.s) && f.delivered == w.delivered && Pending(f.s) == Queue(w.s.mail) && f.s.health.trip.None?
            && (if PostOutstanding(f.s) then Undisturbed(f.s) && f.s.task.AwaitPost?
                  else f.s.task.Idle? && Queue(w.s.mail) == [])
  {
    StepOk(cfg, w, Flush(false));
    StartFlushKeeps(w.s, false);
    NoPreparation(w.s);
    if HasWork(w.s.mail) {
      ContinueOutcome(w.s.(health := w.s.health.(aborted := false)));
    } else {
      assert Queue(w.s.mail) == [];
    }
  }

  // ----- the replay path

  /** How a replay ended: resolved, or thrown so that the record stays pending. */
  datatype Replayed = Replayed(delivered: seq<Msg>, posts: nat, resolved: bool)

  /** Deliver one outbox record: post it whole, and split it on a permanent or size rejection. */
  function Replay(api: Api, k: nat, ms: seq<Msg>): Replayed
    decreases |ms|
  {
    if ms == [] then Replayed([], k, true)
    else
      var r := api(k, ms);
      if r.Accepted? then Replayed(ms, k + 1, true)
      else if Classify(r) == Transient || Classify(r) == Fatal then Replayed([], k + 1, false)
      else if |ms| == 1 then
        var item := Item(ms[0], MessageBytes(ms[0]), false);
        var marker := if Classify(r) == Oversize then Tombstone(item, MessageTruncated, RejectedTooLarge)
                      else Tombstone(item, MessageDropped, PayloadRejected);
        if api(k + 1, [marker.msg]).Accepted? then Replayed([marker.msg], k + 2, true) else Replayed([], k + 2, false)
      else
        var mid := |ms| / 2;
        var a := Replay(api, k + 1, ms[..mid]);
        if !a.resolved then a
        else
          var b := Replay(api, a.posts, ms[mid..]);
          Replayed(a.delivered + b.delivered, b.posts, b.resolved)
  }

  /** Whatever the answers, a replay delivers a prefix of its record, seq for seq, and all of it
      exactly when it resolves. */
  lemma {:induction false} ReplayKeepsSeqs(api: Api, k: nat, ms: seq<Msg>)
    ensures var p := Replay(api, k, ms);
            && |p.delivered| <= |ms|
            && (forall i :: 0 <= i < |p.delivered| ==> p.delivered[i].seqNo == ms[i].seqNo)
            && (p.resolved <==> |p.delivered| == |ms|)
    decreases |ms|
  {
    if |ms| > 1 {
      var mid := |ms| / 2;
      ReplayKeepsSeqs(api, k + 1, ms[..mid]);
      ReplayKeepsSeqs(api, Replay(api, k + 1, ms[..mid]).posts, ms[mid..]);
    }
  }

  lemma {:induction false} ReplayCleans(poison: iset<Msg>, api: Api, k: nat, q: seq<Item>)
    requires MarkersClean(poison) && ExactApi(poison, api) && ItemsOk(q)
    ensures var p := Replay(api, k, Msgs(q)); p.resolved && p.delivered == CleanedAll(poison, q)
    decreases |q|
  {
    if q == [] {
    } else if !Tainted(poison, Msgs(q)) {
      assert Exact(poison, Msgs(q), api(k, Msgs(q)));
      CleanStays(poison, q);
    } else if |q| == 1 {
      assert q == [q[0]];
      ReplaySingle(poison, api, k, q[0]);
    } else {
      var mid := |q| / 2;
      ReplayCleans(poison, api, k + 1, q[..mid]);
      ReplayCleans(poison, api, Replay(api, k + 1, Msgs(q[..mid])).posts, q[mid..]);
      ReplayTainted(poison, api, k, q);
    }
  }

  lemma ReplayTainted(poison: iset<Msg>, api: Api, k: nat, q: seq<Item>)
    requires |q| > 1 && ExactApi(poison, api) && Tainted(poison, Msgs(q))
    requires var mid := |q| / 2;
             var a := Replay(api, k + 1, Msgs(q[..mid]));
             var b := Replay(api, a.posts, Msgs(q[mid..]));
             a.resolved && b.resolved && a.delivered == CleanedAll(poison, q[..mid])
                 && b.delivered == CleanedAll(poison, q[mid..])
    ensures var p := Replay(api, k, Msgs(q)); p.resolved && p.delivered == CleanedAll(poison, q)
  {
    var mid := |q| / 2;
    var ms := Msgs(q);
    assert Exact(poison, ms, api(k, ms));
    assert ms[..mid] == Msgs(q[..mid]) && ms[mid..] == Msgs(q[mid..]);
    ReplayHalves(api, k, ms);
    assert q == q[..mid] + q[mid..];
    CleanedConcat(poison, q[..mid], q[mid..]);
  }

  lemma ReplayHalves(api: Api, k: nat, ms: seq<Msg>)
    requires |ms| > 1 && !api(k, ms).Accepted? && Classify(api(k, ms)) == Permanent
    ensures var mid := |ms| / 2;
            var a := Replay(api, k + 1, ms[..mid]);
            var b := Replay(api, a.posts, ms[mid..]);
            a.resolved ==> Replay(api, k, ms) == Replayed(a.delivered + b.delivered, b.posts, b.resolved)
  {
  }

  lemma ReplaySingle(poison: iset<Msg>, api: Api, k: nat, item: Item)
    requires MarkersClean(poison) && ExactApi(poison, api) && ItemsOk([item]) && item.msg in poison
    ensures var p := Replay(api, k, Msgs([item])); p.resolved && p.delivered == CleanedAll(poison, [item])
  {
    var ms := Msgs([item]);
    assert [item][0] == item && ms == [item.msg];
    assert Exact(poison, ms, api(k, ms));
    assert ms[0] in poison;
    var marker := Tombstone(item, MessageDropped, PayloadRejected);
    assert marker == Tombstone(Item(item.msg, MessageBytes(item.msg), false), MessageDropped, PayloadRejected);
    assert Exact(poison, [marker.msg], api(k + 1, [marker.msg]));
    assert !Tainted(poison, [marker.msg]);
  }

  /** The two delivery paths agree: what a flush delivers for its queue is what the outbox replay
      of the same messages delivers. */
  lemma ReplayMatchesFlush(poison: iset<Msg>, cfg: Config, w: World, api: Api, clock: Clock, k: nat)
    requires Inv(w.s) && w.s.task.Idle? && w.s.reservation.None? && w.s.health.trip.None? && !w.s.health.spilled
    requires MarkersClean(poison) && ExactApi(poison, api)
    ensures Inv(Step(cfg, w, Flush(false)).s)
    ensures var flushed := Drain(cfg, Step(cfg, w, Flush(false)), api, clock, 0);
            var replayed := Replay(api, k, Msgs(Queue(w.s.mail)));
            replayed.resolved && flushed.delivered == w.delivered + replayed.delivered
  {
    FlushDelivers(poison, cfg, w, api, clock);
    QueueItemsOk(w.s);
    ReplayCleans(poison, api, k, Queue(w.s.mail));
  }
}
