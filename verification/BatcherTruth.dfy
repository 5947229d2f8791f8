/** No false accusation. Over any run, whatever the transient, size and fatal answers are, a message
    is replaced by "payload rejected by the api" only if it really is poisoned, provided accepting
    and permanently rejecting answers are truthful. */
module BatcherTruth {
  import opened Options
  import opened BatcherTypes
  import opened BatcherMachine
  import opened BatcherRuns
  import opened BatcherInvariant
  import opened BatcherPending

  predicate Accuses(m: Msg) {
    m.body.Marker? && m.body.reason == PayloadRejected
  }

  /** An accusing marker stands for an issued message that is poisoned. */
  ghost predicate Honest(poison: iset<Msg>, issued: seq<Item>, m: Msg) {
    Accuses(m) ==>
      exists i :: 0 <= i < |issued| && issued[i].msg in poison
                  && m == Tombstone(issued[i], MessageDropped, PayloadRejected).msg
  }

  /** An item that is not a marker is exactly the one its seq was issued for. */
  ghost predicate HonestItems(poison: iset<Msg>, issued: seq<Item>, q: seq<Item>) {
    forall i :: 0 <= i < |q| ==> Honest(poison, issued, q[i].msg) && (q[i].tombstoned || q[i] in issued)
  }

  ghost predicate HonestMsgs(poison: iset<Msg>, issued: seq<Item>, ms: seq<Msg>) {
    forall i :: 0 <= i < |ms| ==> Honest(poison, issued, ms[i])
  }

  /** The answers assumed truthful. */
  ghost predicate Truthful(poison: iset<Msg>, sent: seq<Item>, r: Reply) {
    && (r.Accepted? ==> forall i :: 0 <= i < |sent| ==> sent[i].msg !in poison)
    && (!r.Accepted? && Classify(r) == Permanent ==> exists i :: 0 <= i < |sent| && sent[i].msg in poison)
  }

  ghost predicate TruthfulEvent(poison: iset<Msg>, w: World, e: Event) {
    e.PostAnswer? && PostOutstanding(w.s) ==> Truthful(poison, Outstanding(w.s.task), e.reply)
  }

  /** The search window holds a poison, and everything before it is clean. */
  ghost predicate WindowOf(poison: iset<Msg>, batch: seq<Item>, lo: nat, hi: nat) {
    && lo < hi <= |batch|
    && (exists i :: lo <= i < hi && batch[i].msg in poison)
    && (forall i :: 0 <= i < lo ==> batch[i].msg !in poison)
  }

  ghost predicate Window(poison: iset<Msg>, k: Task) {
    k.AwaitProbe? ==> Probing(k) && WindowOf(poison, k.batch, k.lo, k.hi)
  }

  lemma ContinueTask(s: State)
    ensures Continue(s).task.Idle? || Continue(s).task.AwaitPost?
  {
  }

  lemma EndBisectTask(cfg: Config, s: State, remaining: seq<Item>, progressed: bool, now: int)
    ensures var k := EndBisect(cfg, s, remaining, progressed, now).task; !k.AwaitProbe? && !k.AwaitMarker?
  {
  }

  lemma BisectTask(cfg: Config, s: State, batch: seq<Item>, lo: nat, hi: nat, posts: nat, progressed: bool, now: int)
    requires lo < hi <= |batch|
    ensures var k := Bisect(cfg, s, batch, lo, hi, posts, progressed, now).task;
            && (k.AwaitProbe? ==> k.batch == batch && k.lo == lo && k.hi == hi && hi - lo >= 2)
            && (k.AwaitMarker? ==> k.batch == batch && k.lo == lo && hi == lo + 1)
  {
    EndBisectTask(cfg, s, batch[lo..], progressed, now);
    EndBisectTask(cfg, Trip(s, BisectBudget), [], progressed, now);
  }

  lemma BisectWindow(poison: iset<Msg>, cfg: Config, s: State, batch: seq<Item>, lo: nat, hi: nat, posts: nat,
      progressed: bool, now: int)
    requires WindowOf(poison, batch, lo, hi)
    ensures var k := Bisect(cfg, s, batch, lo, hi, posts, progressed, now).task;
            Window(poison, k) && (k.AwaitMarker? ==> batch[lo].msg in poison)
  {
    BisectTask(cfg, s, batch, lo, hi, posts, progressed, now);
  }

  /** A confirmed left half leaves the poison on the right; a rejected one holds it. */
  lemma WindowHalves(poison: iset<Msg>, batch: seq<Item>, lo: nat, hi: nat, r: Reply)
    requires WindowOf(poison, batch, lo, hi) && hi - lo >= 2 && Truthful(poison, batch[lo..Mid(lo, hi)], r)
    ensures r.Accepted? ==> WindowOf(poison, batch, Mid(lo, hi), hi)
    ensures !r.Accepted? && Classify(r) == Permanent ==> WindowOf(poison, batch, lo, Mid(lo, hi))
  {
    var mid := Mid(lo, hi);
    var sent := batch[lo..mid];
    var i :| lo <= i < hi && batch[i].msg in poison;
    assert forall j :: lo <= j < mid ==> batch[j] == sent[j - lo];
    if !r.Accepted? && Classify(r) == Permanent {
      var j :| 0 <= j < |sent| && sent[j].msg in poison;
      assert batch[lo + j] == sent[j];
    }
  }

  lemma PostWindow(poison: iset<Msg>, cfg: Config, s: State, r: Reply, now: int)
    requires Inv(s) && s.task.AwaitPost? && Truthful(poison, s.task.batch, r)
    ensures Window(poison, PostSettled(cfg, s, s.task.batch, r, now).task)
    ensures !PostSettled(cfg, s, s.task.batch, r, now).task.AwaitMarker?
  {
    var batch := s.task.batch;
    ContinueTask(s.(mail := s.mail.(split := None), health := ClearStreak(s.health)));
    if !r.Accepted? { FailureTask(cfg, s, batch, Classify(r), now); }
  }

  /** Only a permanent rejection of several messages starts a search, over all of them. */
  lemma FailureTask(cfg: Config, s: State, batch: seq<Item>, v: Verdict, now: int)
    requires |batch| > 0
    ensures var k := HandleFailure(cfg, s, batch, v, now).task;
            && (k.AwaitMarker? ==> s.task.AwaitMarker?)
            && (k.AwaitProbe? ==> s.task.AwaitProbe?
                                  || (v == Permanent && k.batch == batch && k.lo == 0 && k.hi == |batch|
                                      && |batch| >= 2))
  {
    if |batch| > 1 { BisectTask(cfg, s, batch, 0, |batch|, 0, false, now); }
  }

  lemma ProbeWindow(poison: iset<Msg>, cfg: Config, s: State, r: Reply, now: int)
    requires Inv(s) && s.task.AwaitProbe? && Window(poison, s.task) && Truthful(poison, Outstanding(s.task), r)
    ensures Window(poison, ProbeSettled(cfg, s, s.task, r, now).task)
    ensures ProbeSettled(cfg, s, s.task, r, now).task.AwaitMarker? ==>
            s.task.batch[if r.Accepted? then Mid(s.task.lo, s.task.hi) else s.task.lo].msg in poison
  {
    var k := s.task;
    WindowHalves(poison, k.batch, k.lo, k.hi, r);
    if r.Accepted? {
      BisectWindow(poison, cfg, s, k.batch, Mid(k.lo, k.hi), k.hi, k.posts, true, now);
    } else if s.reservation.None? && Classify(r) == Permanent {
      BisectWindow(poison, cfg, s, k.batch, k.lo, Mid(k.lo, k.hi), k.posts, k.progressed, now);
    } else {
      EndBisectTask(cfg, Trip(s, ApiRejected), [], k.progressed, now);
      EndBisectTask(cfg, s, k.batch[k.lo..], k.progressed, now);
    }
  }

  lemma MarkerWindow(cfg: Config, s: State, r: Reply, now: int)
    requires Inv(s) && s.task.AwaitMarker?
    ensures var k := MarkerSettled(cfg, s, s.task, r, now).task; !k.AwaitProbe? && !k.AwaitMarker?
  {
    var k := s.task;
    var rest := k.batch[k.lo + 1..];
    EndBisectTask(cfg, s, rest, true, now);
    EndBisectTask(cfg, s, [k.marker] + rest, k.progressed, now);
    EndBisectTask(cfg, Trip(s, MarkerRejected(k.marker.msg.seqNo)), [], k.progressed, now);
  }

  /** After a bisection isolates a message, that message is the head of what is owed. */
  lemma ProbeHead(s: State, r: Reply)
    requires Inv(s) && s.task.AwaitProbe?
    ensures |Unsent(s, r)| > 0
    ensures Unsent(s, r)[0] == s.task.batch[if r.Accepted? then Mid(s.task.lo, s.task.hi) else s.task.lo]
  {
    InvReady(s);
    NoPreparation(s);
  }

  /** One truthful answer: the window stays right, and the only message it can newly accuse is poisoned. */
  lemma SettledWindow(poison: iset<Msg>, cfg: Config, s: State, r: Reply, now: int)
    requires Inv(s) && PostOutstanding(s) && Window(poison, s.task) && Truthful(poison, Outstanding(s.task), r)
    requires SettlePost(cfg, s, r, now).health.trip.None?
    ensures var t := SettlePost(cfg, s, r, now);
            && Window(poison, t.task)
            && (|| Pending(t) == Unsent(s, r)
                || (|Unsent(s, r)| > 0 && Pending(t) == HeadMarked(Unsent(s, r), MessageTruncated, RejectedTooLarge))
                || (|Unsent(s, r)| > 0 && Pending(t) == HeadMarked(Unsent(s, r), MessageDropped, PayloadRejected)
                    && Unsent(s, r)[0].msg in poison))
  {
    SettlePostKeeps(cfg, s, r, now);
    if s.task.AwaitPost? {
      PostWindow(poison, cfg, s, r, now);
      SingleRejected(poison, s, r);
    } else if s.task.AwaitProbe? {
      ProbeWindow(poison, cfg, s, r, now);
      ProbeHead(s, r);
    } else {
      MarkerWindow(cfg, s, r, now);
    }
  }

  lemma SingleRejected(poison: iset<Msg>, s: State, r: Reply)
    requires Inv(s) && s.task.AwaitPost? && Truthful(poison, s.task.batch, r)
    ensures |s.task.batch| == 1 && !r.Accepted? && Classify(r) == Permanent ==>
            |Unsent(s, r)| > 0 && Unsent(s, r)[0].msg in poison
  {
    InvReady(s);
    NoPreparation(s);
  }

  ghost predicate HonestServer(poison: iset<Msg>, issued: seq<Item>, server: map<nat, Msg>) {
    forall n :: n in server ==> Honest(poison, issued, server[n])
  }

  predicate HeldClean(o: Option<Reservation>) {
    o.Some? ==> forall i :: 0 <= i < |o.value.held| ==>
      !(o.value.held[i].body.Marker? && o.value.held[i].body.reason == PayloadRejected)
  }

  ghost predicate TruthOk(poison: iset<Msg>, w: World) {
    && Inv(w.s) && HeldClean(w.s.reservation)
    && HonestMsgs(poison, w.issued, w.delivered)
    && HonestServer(poison, w.issued, w.server)
    && (w.s.health.trip.None? ==> HonestItems(poison, w.issued, Pending(w.s)) && Window(poison, w.s.task))
  }

  lemma HonestGrows(poison: iset<Msg>, issued: seq<Item>, more: seq<Item>, m: Msg)
    requires Honest(poison, issued, m)
    ensures Honest(poison, issued + more, m)
  {
    if Accuses(m) {
      var i :| 0 <= i < |issued| && issued[i].msg in poison
          && m == Tombstone(issued[i], MessageDropped, PayloadRejected).msg;
      assert (issued + more)[i] == issued[i];
    }
  }

  lemma {:induction false} AbsorbHonest(poison: iset<Msg>, issued: seq<Item>, server: map<nat, Msg>, ms: seq<Msg>)
    requires HonestServer(poison, issued, server) && HonestMsgs(poison, issued, ms)
    ensures HonestServer(poison, issued, Absorb(server, ms))
    decreases |ms|
  {
    if ms != [] {
      var m := ms[0];
      AbsorbHonest(poison, issued, if m.seqNo in server then server else server[m.seqNo := m], ms[1..]);
    }
  }

  /** Marking a head accuses it only if it was poisoned and is not a marker already. */
  lemma MarkedHonest(poison: iset<Msg>, issued: seq<Item>, q: seq<Item>, event: MarkerEvent, reason: Reason)
    requires |q| > 0 && HonestItems(poison, issued, q)
    requires reason == PayloadRejected ==> event == MessageDropped && q[0].msg in poison
    ensures HonestItems(poison, issued, HeadMarked(q, event, reason))
  {
    var h := HeadMarked(q, event, reason);
    if !q[0].tombstoned {
      var i :| 0 <= i < |issued| && issued[i] == q[0];
    }
    forall j | 0 <= j < |h| ensures Honest(poison, issued, h[j].msg) && (h[j].tombstoned || h[j] in issued) {
      if j > 0 { assert h[j] == q[j]; }
    }
  }

  lemma SettledHonest(poison: iset<Msg>, cfg: Config, w: World, r: Reply, now: int)
    requires TruthOk(poison, w) && PostOutstanding(w.s) && Truthful(poison, Outstanding(w.s.task), r)
    requires SettlePost(cfg, w.s, r, now).health.trip.None?
    ensures var t := SettlePost(cfg, w.s, r, now); HonestItems(poison, w.issued, Pending(t)) && Window(poison, t.task)
  {
    SettledWindow(poison, cfg, w.s, r, now);
    var base := Unsent(w.s, r);
    assert HonestItems(poison, w.issued, base);
    if |base| > 0 {
      MarkedHonest(poison, w.issued, base, MessageTruncated, RejectedTooLarge);
      if base[0].msg in poison { MarkedHonest(poison, w.issued, base, MessageDropped, PayloadRejected); }
    }
  }

  lemma SentHonest(poison: iset<Msg>, w: World, sent: seq<Item>, r: Reply, applied: bool)
    requires HonestMsgs(poison, w.issued, w.delivered) && HonestServer(poison, w.issued, w.server)
    requires HonestItems(poison, w.issued, sent)
    ensures var t := SendSettled(w, sent, r, applied);
            HonestMsgs(poison, w.issued, t.delivered) && HonestServer(poison, w.issued, t.server)
  {
    AbsorbHonest(poison, w.issued, w.server, Msgs(sent));
  }

  lemma PostTruth(poison: iset<Msg>, cfg: Config, w: World, r: Reply, applied: bool, now: int)
    requires TruthOk(poison, w) && PostOutstanding(w.s) && Truthful(poison, Outstanding(w.s.task), r)
    ensures TruthOk(poison, Step(cfg, w, PostAnswer(r, applied, now)))
  {
    var e := PostAnswer(r, applied, now);
    var sent := Outstanding(w.s.task);
    StepOk(cfg, w, e);
    SettlePostKeeps(cfg, w.s, r, now);
    assert HonestItems(poison, w.issued, sent) by { assert sent == Pending(w.s)[..|sent|]; }
    SentHonest(poison, w, sent, r, applied);
    if SettlePost(cfg, w.s, r, now).health.trip.None? { SettledHonest(poison, cfg, w, r, now); }
    SettlePostHolds(cfg, w.s, r, now);
  }

  lemma SettlePostHolds(cfg: Config, s: State, r: Reply, now: int)
    requires HeldClean(s.reservation)
    ensures HeldClean(SettlePost(cfg, s, r, now).reservation)
  {
  }

  lemma ItemsGrow(poison: iset<Msg>, issued: seq<Item>, more: seq<Item>, q: seq<Item>)
    requires HonestItems(poison, issued, q)
    ensures HonestItems(poison, issued + more, q)
  {
    forall i | 0 <= i < |q| ensures Honest(poison, issued + more, q[i].msg)
        && (q[i].tombstoned || q[i] in issued + more) {
      HonestGrows(poison, issued, more, q[i].msg);
    }
  }

  /** Issuing more seqs keeps every earlier marker honest. */
  lemma HistoryGrows(poison: iset<Msg>, w: World, more: seq<Item>)
    requires HonestMsgs(poison, w.issued, w.delivered) && HonestServer(poison, w.issued, w.server)
    ensures HonestMsgs(poison, w.issued + more, w.delivered) && HonestServer(poison, w.issued + more, w.server)
  {
    forall i | 0 <= i < |w.delivered| ensures Honest(poison, w.issued + more, w.delivered[i]) {
      HonestGrows(poison, w.issued, more, w.delivered[i]);
    }
    forall n | n in w.server ensures Honest(poison, w.issued + more, w.server[n]) {
      HonestGrows(poison, w.issued, more, w.server[n]);
    }
  }

  lemma RangeHonest(poison: iset<Msg>, issued: seq<Item>, o: Option<Range>)
    ensures HonestItems(poison, issued, RangePart(o))
  {
  }

  lemma ConcatHonest(poison: iset<Msg>, issued: seq<Item>, a: seq<Item>, b: seq<Item>)
    requires HonestItems(poison, issued, a) && HonestItems(poison, issued, b)
    ensures HonestItems(poison, issued, a + b)
  {
  }

  lemma TruthKept(poison: iset<Msg>, w: World, t: World)
    requires TruthOk(poison, w) && Inv(t.s) && HeldClean(t.s.reservation)
    requires t.issued == w.issued && t.delivered == w.delivered && t.server == w.server
    requires t.s.health.trip.None? ==> w.s.health.trip.None? && (forall x :: x in Pending(t.s) ==> x in Pending(w.s))
    requires t.s.health.trip.None? && t.s.task.AwaitProbe? ==> t.s.task == w.s.task
    ensures TruthOk(poison, t)
  {
    if t.s.health.trip.None? {
      forall i | 0 <= i < |Pending(t.s)|
        ensures Honest(poison, t.issued, Pending(t.s)[i].msg)
                  && (Pending(t.s)[i].tombstoned || Pending(t.s)[i] in t.issued)
      {
        assert Pending(t.s)[i] in Pending(w.s);
      }
    }
  }

  lemma EmitTruth(poison: iset<Msg>, cfg: Config, w: World, kind: string, payload: string, who: Attribution)
    requires TruthOk(poison, w) && !w.s.health.closed && w.s.reservation.None?
    ensures TruthOk(poison, Step(cfg, w, EmitFrame(kind, payload, who)))
  {
    var e := EmitFrame(kind, payload, who);
    var item := NewItem(w.s, Frame(kind, payload), who);
    StepOk(cfg, w, e);
    EmitOwned(cfg, w.s, Frame(kind, payload), who);
    IssuedTruth(poison, w, Step(cfg, w, e), item);
  }

  lemma IssuedTruth(poison: iset<Msg>, w: World, t: World, item: Item)
    requires TruthOk(poison, w) && Inv(t.s) && t.s.reservation == w.s.reservation && t.s.task == w.s.task
    requires t.issued == w.issued + [item] && t.delivered == w.delivered && t.server == w.server
    requires !Accuses(item.msg) && t.s.health.trip == w.s.health.trip
    requires Owned(t.s) == Owned(w.s) || Owned(t.s) == Owned(w.s) + [item]
    ensures TruthOk(poison, t)
  {
    HistoryGrows(poison, w, [item]);
    if w.s.health.trip.None? {
      PendingSplit(w.s);
      PendingSplit(t.s);
      assert HonestItems(poison, w.issued, Owned(w.s)) by { assert Owned(w.s) == Pending(w.s)[..|Owned(w.s)|]; }
      ItemsGrow(poison, w.issued, [item], Owned(w.s));
      assert item in t.issued;
      assert HonestItems(poison, t.issued, [item]);
      ConcatHonest(poison, t.issued, Owned(w.s), [item]);
      RangeHonest(poison, t.issued, t.s.mail.range);
      ConcatHonest(poison, t.issued, Owned(t.s), RangePart(t.s.mail.range));
    }
  }

  lemma HeldEmitTruth(poison: iset<Msg>, cfg: Config, w: World, kind: string, payload: string, who: Attribution)
    requires TruthOk(poison, w) && (w.s.health.closed || w.s.reservation.Some?)
    ensures TruthOk(poison, Step(cfg, w, EmitFrame(kind, payload, who)))
  {
    var e := EmitFrame(kind, payload, who);
    StepOk(cfg, w, e);
    HeldEmitKeeps(cfg, w.s, Frame(kind, payload), who);
    HeldEmitTask(cfg, w, kind, payload, who);
    TruthKept(poison, w, Step(cfg, w, e));
  }

  lemma HeldEmitTask(cfg: Config, w: World, kind: string, payload: string, who: Attribution)
    requires HeldClean(w.s.reservation) && (w.s.health.closed || w.s.reservation.Some?)
    ensures var t := Step(cfg, w, EmitFrame(kind, payload, who));
            && t == w.(s := t.s) && HeldClean(t.s.reservation) && t.s.task == w.s.task
            && t.s.health.trip == w.s.health.trip
  {
  }

  lemma PrepTruth(poison: iset<Msg>, cfg: Config, w: World, r: Reply, applied: bool, expired: bool, permanent: bool)
    requires TruthOk(poison, w) && PrepCarried(w.s) != []
    ensures TruthOk(poison, Step(cfg, w, PrepareAnswer(r, applied, expired, permanent)))
  {
    var t := Prepared(cfg, w, r, applied, expired, permanent);
    PreparedTruth(poison, w, t, PrepCarried(w.s), r, applied);
  }

  /** What the answer to a preparation post changes. */
  lemma Prepared(cfg: Config, w: World, r: Reply, applied: bool, expired: bool, permanent: bool) returns (t: World)
    requires Inv(w.s) && PrepCarried(w.s) != [] && HeldClean(w.s.reservation)
    ensures t == Step(cfg, w, PrepareAnswer(r, applied, expired, permanent))
    ensures Inv(t.s) && HeldClean(t.s.reservation) && PrepCarried(w.s) <= Pending(w.s)
    ensures t.(s := w.s) == SendSettled(w, PrepCarried(w.s), r, applied)
    ensures t.s.health == w.s.health && t.s.health.trip.None? && t.s.task == w.s.task
    ensures forall x :: x in Pending(t.s) ==> x in Pending(w.s)
  {
    t := Step(cfg, w, PrepareAnswer(r, applied, expired, permanent));
    StepOk(cfg, w, PrepareAnswer(r, applied, expired, permanent));
    PrepTask(cfg, w, r, applied, expired, permanent);
    PrepSubset(w.s, r, expired, permanent);
    assert t.s == PrepPosted(w.s, r, expired, permanent);
  }

  lemma PrepSubset(s: State, r: Reply, expired: bool, permanent: bool)
    requires Inv(s) && PrepCarried(s) != []
    ensures PrepCarried(s) <= Pending(s) && s.health.trip.None?
    ensures forall x :: x in Pending(PrepPosted(s, r, expired, permanent)) ==> x in Pending(s)
  {
    PrepPostedKeeps(s, r, expired, permanent);
  }

  lemma PreparedTruth(poison: iset<Msg>, w: World, t: World, sent: seq<Item>, r: Reply, applied: bool)
    requires TruthOk(poison, w) && Inv(t.s) && HeldClean(t.s.reservation) && sent <= Pending(w.s)
    requires t.(s := w.s) == SendSettled(w, sent, r, applied)
    requires t.s.health == w.s.health && t.s.health.trip.None? && t.s.task == w.s.task
    requires forall x :: x in Pending(t.s) ==> x in Pending(w.s)
    ensures TruthOk(poison, t)
  {
    assert HonestItems(poison, w.issued, sent) by { assert sent == Pending(w.s)[..|sent|]; }
    SentHonest(poison, w, sent, r, applied);
    TruthKept(poison, SendSettled(w, sent, r, applied), t);
  }

  lemma PrepTask(cfg: Config, w: World, r: Reply, applied: bool, expired: bool, permanent: bool)
    requires PrepCarried(w.s) != [] && HeldClean(w.s.reservation)
    ensures var t := Step(cfg, w, PrepareAnswer(r, applied, expired, permanent));
            && t.s.health == w.s.health && t.s.task == w.s.task && HeldClean(t.s.reservation) && t.issued == w.issued
            && t.(s := w.s) == SendSettled(w, PrepCarried(w.s), r, applied)
  {
  }

  lemma StoreTruth(poison: iset<Msg>, cfg: Config, w: World, o: StoreOutcome, now: int)
    requires TruthOk(poison, w)
    ensures TruthOk(poison, Step(cfg, w, StoreAnswer(o, now)))
  {
    var e := StoreAnswer(o, now);
    StepOk(cfg, w, e);
    if !w.s.task.Idle? { NoPreparation(w.s); }
    if o == Threw { StoreThrewKeeps(w.s, now); } else { StoreReturnedKeeps(w.s, o, now); }
    StoreTask(w.s, o, now);
    TruthKept(poison, w, Step(cfg, w, e));
  }

  lemma StoreTask(s: State, o: StoreOutcome, now: int)
    requires HeldClean(s.reservation)
    ensures var t := StoreSettled(s, o, now);
            (t.task.AwaitProbe? ==> t.task == s.task) && HeldClean(t.reservation)
                && (s.health.trip.Some? ==> t.health.trip.Some?)
  {
    if s.task.AwaitSegment? {
      SpillLoopTask(s);
    } else if s.task.AwaitRange? {
      SpillLoopTask(s.(mail := s.mail.(range := None)));
    } else if s.task.AwaitFlushMark? {
      SpillLoopTask(s);
    }
  }

  lemma SpillLoopTask(s: State)
    ensures !SpillLoop(s).task.AwaitProbe? && SpillLoop(s).reservation == s.reservation
              && SpillLoop(s).health.trip == s.health.trip
    ensures !SpillEnd(s).task.AwaitProbe? && SpillEnd(s).reservation == s.reservation
              && SpillEnd(s).health.trip == s.health.trip
  {
  }

  lemma ReleaseTruth(poison: iset<Msg>, cfg: Config, w: World, p: Proof)
    requires TruthOk(poison, w) && CanRelease(cfg, w.s, p)
    ensures TruthOk(poison, Step(cfg, w, ReleaseCalled(p)))
  {
    StepOk(cfg, w, ReleaseCalled(p));
    ReleaseKeeps(cfg, w.s, p);
    ReleasedTask(cfg, w, p);
    var added := Numbered(w.s.reservation.value.held, ReleaseCursor(w.s.reservation.value, p));
    ReleasedTruth(poison, w, Step(cfg, w, ReleaseCalled(p)), added);
  }

  lemma ReleasedTruth(poison: iset<Msg>, w: World, t: World, added: seq<Item>)
    requires HonestMsgs(poison, w.issued, w.delivered) && HonestServer(poison, w.issued, w.server)
    requires Inv(t.s) && t.s.task.Idle? && t.s.reservation.None? && Pending(t.s) == added
    requires t.issued == w.issued + added && t.delivered == w.delivered && t.server == w.server
    requires forall i :: 0 <= i < |added| ==> !Accuses(added[i].msg)
    ensures TruthOk(poison, t)
  {
    HistoryGrows(poison, w, added);
    AddedHonest(poison, w.issued, added);
  }

  lemma ReleasedTask(cfg: Config, w: World, p: Proof)
    requires Inv(w.s) && CanRelease(cfg, w.s, p) && HeldClean(w.s.reservation)
    ensures var t := Step(cfg, w, ReleaseCalled(p));
            var added := Numbered(w.s.reservation.value.held, ReleaseCursor(w.s.reservation.value, p));
            && t.s.task.Idle? && t.s.reservation.None? && t.issued == w.issued + added
            && t.delivered == w.delivered && t.server == w.server
            && forall i :: 0 <= i < |added| ==> !Accuses(added[i].msg)
  {
  }

  lemma AddedHonest(poison: iset<Msg>, issued: seq<Item>, added: seq<Item>)
    requires forall i :: 0 <= i < |added| ==> !Accuses(added[i].msg)
    ensures HonestItems(poison, issued + added, added)
  {
    assert forall i :: 0 <= i < |added| ==> (issued + added)[|issued| + i] == added[i];
  }

  lemma QuietTask(cfg: Config, w: World, e: Event)
    requires Inv(w.s) && QuietEvent(e) && HeldClean(w.s.reservation)
    ensures var t := Step(cfg, w, e).s;
            HeldClean(t.reservation) && t.health.trip == w.s.health.trip && (t.task.AwaitProbe? ==> t.task == w.s.task)
  {
  }

  lemma QuietTruth(poison: iset<Msg>, cfg: Config, w: World, e: Event)
    requires TruthOk(poison, w) && QuietEvent(e)
    ensures TruthOk(poison, Step(cfg, w, e))
  {
    StepOk(cfg, w, e);
    QuietKeeps(cfg, w, e);
    QuietTask(cfg, w, e);
    TruthKept(poison, w, Step(cfg, w, e));
  }

  lemma StepTruth(poison: iset<Msg>, cfg: Config, w: World, e: Event)
    requires TruthOk(poison, w) && TruthfulEvent(poison, w, e)
    ensures TruthOk(poison, Step(cfg, w, e))
  {
    if e.EmitFrame? {
      if !w.s.health.closed && w.s.reservation.None? {
        EmitTruth(poison, cfg, w, e.kind, e.payload, e.who);
      } else {
        HeldEmitTruth(poison, cfg, w, e.kind, e.payload, e.who);
      }
    } else if e.PostAnswer? {
      if PostOutstanding(w.s) { PostTruth(poison, cfg, w, e.reply, e.applied, e.now); }
    } else if e.StoreAnswer? {
      StoreTruth(poison, cfg, w, e.outcome, e.now);
    } else if e.PrepareAnswer? {
      if PrepCarried(w.s) != [] { PrepTruth(poison, cfg, w, e.reply, e.applied, e.expired, e.permanent); }
    } else if e.ReleaseCalled? {
      if CanRelease(cfg, w.s, e.proof) { ReleaseTruth(poison, cfg, w, e.proof); }
    } else {
      QuietTruth(poison, cfg, w, e);
    }
  }

  /** Every accepting and every permanently rejecting answer of the run is truthful. */
  ghost predicate TruthfulRun(poison: iset<Msg>, cfg: Config, w: World, es: seq<Event>)
    decreases |es|
  {
    es != [] ==>
      var m := |es| - 1;
      TruthfulRun(poison, cfg, w, es[..m]) && TruthfulEvent(poison, Run(cfg, w, es[..m]), es[m])
  }

  lemma {:induction false} RunTruth(poison: iset<Msg>, cfg: Config, lastSeq: nat, es: seq<Event>)
    requires TruthfulRun(poison, cfg, Start(lastSeq), es)
    ensures TruthOk(poison, Run(cfg, Start(lastSeq), es))
    decreases |es|
  {
    if es == [] {
      assert Pending(Init(lastSeq)) == [];
    } else {
      RunTruth(poison, cfg, lastSeq, es[..|es| - 1]);
      StepTruth(poison, cfg, Run(cfg, Start(lastSeq), es[..|es| - 1]), es[|es| - 1]);
    }
  }

  /** In any truthful run, at the server and among the confirmed messages, a message that says its
      payload was rejected is the marker of an issued message that is poisoned; and a search in
      progress always has a poison in its window with only clean messages before it. */
  lemma NoFalseAccusation(poison: iset<Msg>, cfg: Config, lastSeq: nat, es: seq<Event>)
    requires TruthfulRun(poison, cfg, Start(lastSeq), es)
    ensures var w := Run(cfg, Start(lastSeq), es);
            && (forall n :: n in w.server && Accuses(w.server[n]) ==> MarksPoison(poison, w.issued, w.server[n]))
            && (forall k :: 0 <= k < |w.delivered| && Accuses(w.delivered[k]) ==>
                  MarksPoison(poison, w.issued, w.delivered[k]))
            && (w.s.task.AwaitProbe? ==> WindowOf(poison, w.s.task.batch, w.s.task.lo, w.s.task.hi))
  {
    var w := Run(cfg, Start(lastSeq), es);
    RunTruth(poison, cfg, lastSeq, es);
    forall n | n in w.server && Accuses(w.server[n]) ensures MarksPoison(poison, w.issued, w.server[n]) {
      assert Honest(poison, w.issued, w.server[n]);
    }
    forall k | 0 <= k < |w.delivered| && Accuses(w.delivered[k]) ensures MarksPoison(poison, w.issued, w.delivered[k]) {
      assert Honest(poison, w.issued, w.delivered[k]);
    }
  }

  /** The message is the marker of a poisoned message that was issued under its seq. */
  ghost predicate MarksPoison(poison: iset<Msg>, issued: seq<Item>, m: Msg) {
    exists i :: 0 <= i < |issued| && issued[i].msg in poison
        && m == Tombstone(issued[i], MessageDropped, PayloadRejected).msg
  }
}
