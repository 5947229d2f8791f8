/** One network flush with no concurrent emit, against any api: it stops, by a lexicographic
    measure, and where it stops is known. */
module BatcherDrain {
  import opened Options
  import opened BatcherTypes
  import opened BatcherMachine
  import opened BatcherRuns
  import opened BatcherInvariant
  import opened BatcherPending
  import opened BatcherTruth

  /** The api: what the `k`-th post of the flush, with this body, is answered with. */
  type Api = (nat, seq<Msg>) -> Reply

  /** When the `k`-th answer arrives. */
  type Clock = nat -> int

  /** Items that are not yet markers. */
  function Plainly(q: seq<Item>): nat {
    if q == [] then 0 else (if q[0].tombstoned then 0 else 1) + Plainly(q[1..])
  }

  /** Twice the owed count, plus one while a bisection has progress to hand back. */
  function Owing(s: State): nat {
    2 * |Pending(s)| + (if (s.task.AwaitProbe? || s.task.AwaitMarker?) && s.task.progressed then 1 else 0)
  }

  function SplitRoom(s: State): nat {
    if s.mail.split.Some? then s.mail.split.value else |Pending(s)| + 1
  }

  /** How much of the search is left. */
  function Phase(k: Task): nat {
    match k
    case AwaitPost(batch) => |batch| + 2
    case AwaitProbe(_, lo, hi, _, _) => if lo <= hi then hi - lo + 1 else 0
    case AwaitMarker(_, _, _, _) => 2
    case _ => 0
  }

  /** The flush measure decreases lexicographically. */
  predicate Less(t: State, s: State) {
    || Owing(t) < Owing(s)
    || (Owing(t) == Owing(s) && Plainly(Pending(t)) < Plainly(Pending(s)))
    || (Owing(t) == Owing(s) && Plainly(Pending(t)) == Plainly(Pending(s)) && SplitRoom(t) < SplitRoom(s))
    || (Owing(t) == Owing(s) && Plainly(Pending(t)) == Plainly(Pending(s)) && SplitRoom(t) == SplitRoom(s)
        && Phase(t.task) < Phase(s.task))
  }

  lemma HeadMarkedPlainly(q: seq<Item>, event: MarkerEvent, reason: Reason)
    requires |q| > 0
    ensures Plainly(HeadMarked(q, event, reason)) == Plainly(q) - (if q[0].tombstoned then 0 else 1)
  {
    var h := HeadMarked(q, event, reason);
    assert h[1..] == q[1..];
  }

  lemma ContinueSplit(s: State)
    ensures Continue(s).mail.split == s.mail.split
  {
  }

  /** A bisection that ends with another post outstanding had made progress. */
  lemma EndBisectPosts(cfg: Config, s: State, remaining: seq<Item>, progressed: bool, now: int)
    ensures var t := EndBisect(cfg, s, remaining, progressed, now);
            PostOutstanding(t) ==> progressed && t.task.AwaitPost?
  {
  }

  lemma OversizeLess(s: State, batch: seq<Item>)
    requires Inv(s) && s.task == AwaitPost(batch)
    requires !(|batch| == 1 && batch[0].tombstoned)
    ensures PostOutstanding(HandleOversize(s, batch)) ==> Less(HandleOversize(s, batch), s)
  {
    InvReady(s);
    NoPreparation(s);
    OversizeKeeps(s, batch);
    var q := batch + Queue(s.mail);
    if |batch| > 1 {
      var u := s.(mail := Requeue(s.mail, batch).(split := Some(|batch| / 2)), health := ClearStreak(s.health));
      ContinueSplit(u);
      ContinueTask(u);
    } else {
      var u := s.(mail := Requeue(s.mail, [Tombstone(batch[0], MessageTruncated, RejectedTooLarge)]).(split := None));
      ContinueTask(u);
      HeadMarkedPlainly(q, MessageTruncated, RejectedTooLarge);
    }
  }

  lemma PermanentLess(cfg: Config, s: State, batch: seq<Item>, now: int)
    requires Inv(s) && s.task == AwaitPost(batch) && s.reservation.None?
    requires !(|batch| == 1 && batch[0].tombstoned)
    ensures PostOutstanding(HandleFailure(cfg, s, batch, Permanent, now)) ==>
              Less(HandleFailure(cfg, s, batch, Permanent, now), s)
  {
    if |batch| == 1 {
      SingleLess(s, batch);
    } else {
      InvReady(s);
      NoPreparation(s);
      ProbeKeeps(s, AwaitProbe(batch, 0, |batch|, 1, false));
    }
  }

  lemma SingleLess(s: State, batch: seq<Item>)
    requires Inv(s) && s.task == AwaitPost(batch) && |batch| == 1 && !batch[0].tombstoned
    ensures var t := Continue(s.(mail := Requeue(s.mail, [Tombstone(batch[0], MessageDropped, PayloadRejected)])));
            PostOutstanding(t) ==> Less(t, s)
  {
    InvReady(s);
    NoPreparation(s);
    SingleKeeps(s.mail, batch, MessageDropped, PayloadRejected);
    var u := s.(mail := Requeue(s.mail, [Tombstone(batch[0], MessageDropped, PayloadRejected)]));
    ContinueKeeps(u);
    ContinueTask(u);
    HeadMarkedPlainly(batch + Queue(s.mail), MessageDropped, PayloadRejected);
  }

  lemma PostLess(cfg: Config, s: State, r: Reply, now: int)
    requires Inv(s) && s.task.AwaitPost?
    ensures var t := PostSettled(cfg, s, s.task.batch, r, now); PostOutstanding(t) ==> Less(t, s)
  {
    var batch := s.task.batch;
    InvReady(s);
    NoPreparation(s);
    if r.Accepted? {
      PostAcceptedKeeps(s);
      ContinueTask(s.(mail := s.mail.(split := None), health := ClearStreak(s.health)));
    } else if !s.health.aborted && s.reservation.None?
        && !(Classify(r) != Transient && |batch| == 1 && batch[0].tombstoned) {
      if Classify(r) == Oversize { OversizeLess(s, batch); }
      if Classify(r) == Permanent { PermanentLess(cfg, s, batch, now); }
    }
  }

  lemma ProbeAcceptedLess(cfg: Config, s: State, now: int)
    requires Inv(s) && s.task.AwaitProbe?
    ensures var t := ProbeSettled(cfg, s, s.task, Accepted, now); Owing(t) < Owing(s)
  {
    var k := s.task;
    var mid := Mid(k.lo, k.hi);
    InvReady(s);
    NoPreparation(s);
    SearchBoundHalves(|k.batch|, k.hi - k.lo, k.hi - mid, k.posts - 1);
    BisectKeeps(cfg, s, k.batch, mid, k.hi, k.posts, true, now);
  }

  lemma ProbeRejectedLess(cfg: Config, s: State, now: int)
    requires Inv(s) && s.task.AwaitProbe? && s.reservation.None?
    ensures var t := Bisect(cfg, s, s.task.batch, s.task.lo, Mid(s.task.lo, s.task.hi), s.task.posts,
            s.task.progressed, now);
            Less(t, s)
  {
    var k := s.task;
    var mid := Mid(k.lo, k.hi);
    InvReady(s);
    NoPreparation(s);
    SearchBoundHalves(|k.batch|, k.hi - k.lo, mid - k.lo, k.posts - 1);
    BisectKeeps(cfg, s, k.batch, k.lo, mid, k.posts, k.progressed, now);
    if mid - k.lo > 1 { BudgetSuffices(k.batch, mid - k.lo, k.posts); }
    HeadMarkedPlainly(k.batch[k.lo..] + Queue(s.mail), MessageDropped, PayloadRejected);
  }

  lemma ProbeAbandonedLess(cfg: Config, s: State, now: int)
    requires Inv(s) && s.task.AwaitProbe?
    ensures var t := EndBisect(cfg, s, s.task.batch[s.task.lo..], s.task.progressed, now);
            PostOutstanding(t) ==> Owing(t) < Owing(s)
  {
    InvReady(s);
    NoPreparation(s);
    EndBisectKeeps(cfg, s, s.task.batch[s.task.lo..], s.task.progressed, now);
    EndBisectPosts(cfg, s, s.task.batch[s.task.lo..], s.task.progressed, now);
  }

  lemma ProbeLess(cfg: Config, s: State, r: Reply, now: int)
    requires Inv(s) && s.task.AwaitProbe?
    ensures var t := ProbeSettled(cfg, s, s.task, r, now); PostOutstanding(t) ==> Less(t, s)
  {
    if r.Accepted? {
      ProbeAcceptedLess(cfg, s, now);
    } else if s.reservation.None? {
      ProbeRejectedLess(cfg, s, now);
      ProbeAbandonedLess(cfg, s, now);
    }
  }

  lemma MarkerLess(cfg: Config, s: State, r: Reply, now: int)
    requires Inv(s) && s.task.AwaitMarker?
    ensures var t := MarkerSettled(cfg, s, s.task, r, now); PostOutstanding(t) ==> Owing(t) < Owing(s)
  {
    var k := s.task;
    var rest := k.batch[k.lo + 1..];
    InvReady(s);
    NoPreparation(s);
    WithHeadOk(k.marker, rest);
    if r.Accepted? {
      EndBisectKeeps(cfg, s, rest, true, now);
      EndBisectPosts(cfg, s, rest, true, now);
    } else if s.reservation.None? && Classify(r) == Transient {
      EndBisectKeeps(cfg, s, [k.marker] + rest, k.progressed, now);
      EndBisectPosts(cfg, s, [k.marker] + rest, k.progressed, now);
    }
  }

  /** Every answer, of any class, either ends the flush's posts or decreases the measure. */
  lemma SettleLess(cfg: Config, s: State, r: Reply, now: int)
    requires Inv(s) && PostOutstanding(s)
    ensures var t := SettlePost(cfg, s, r, now); PostOutstanding(t) ==> Less(t, s)
  {
    match s.task
    case AwaitPost(_) => PostLess(cfg, s, r, now);
    case AwaitProbe(_, _, _, _, _) => ProbeLess(cfg, s, r, now);
    case AwaitMarker(_, _, _, _) => MarkerLess(cfg, s, r, now);
  }

  function Answer(cfg: Config, w: World, api: Api, clock: Clock, k: nat): World {
    Step(cfg, w, PostAnswer(api(k, Msgs(Outstanding(w.s.task))), false, clock(k)))
  }

  /** Let the flush run: answer its posts, the next one being number `k`, until none is outstanding. */
  function Drain(cfg: Config, w: World, api: Api, clock: Clock, k: nat): World
    requires Inv(w.s)
    decreases Owing(w.s), Plainly(Pending(w.s)), SplitRoom(w.s), Phase(w.s.task), PostOutstanding(w.s)
  {
    if !PostOutstanding(w.s) then w
    else
      var r := api(k, Msgs(Outstanding(w.s.task)));
      StepOk(cfg, w, PostAnswer(r, false, clock(k)));
      SettleLess(cfg, w.s, r, clock(k));
      var next := Answer(cfg, w, api, clock, k);
      if !PostOutstanding(next.s) then next else Drain(cfg, next, api, clock, k + 1)
  }

  // ----- where a flush stops

  /** A flush nothing interferes with: no reservation, no abort, not tripped. */
  predicate Undisturbed(s: State) {
    s.reservation.None? && !s.health.aborted && s.health.trip.None?
  }

  /** The answers after which the flush leaves its messages for the backed-off retry: a transient
      failure of a whole batch, or any inconclusive answer to a search that has not progressed. */
  predicate GivesUp(k: Task, r: Reply) {
    !r.Accepted? &&
    match k
    case AwaitPost(_) => Classify(r) == Transient
    case AwaitProbe(_, _, _, _, progressed) => !progressed && (Classify(r) == Transient || Classify(r) == Oversize)
    case AwaitMarker(_, _, _, progressed) => !progressed && Classify(r) == Transient
    case _ => false
  }

  ghost predicate GaveUp(cfg: Config, w: World, api: Api, clock: Clock, k: nat)
    requires Inv(w.s)
    decreases Owing(w.s), Plainly(Pending(w.s)), SplitRoom(w.s), Phase(w.s.task), PostOutstanding(w.s)
  {
    PostOutstanding(w.s) &&
    var r := api(k, Msgs(Outstanding(w.s.task)));
    StepOk(cfg, w, PostAnswer(r, false, clock(k)));
    SettleLess(cfg, w.s, r, clock(k));
    var next := Answer(cfg, w, api, clock, k);
    GivesUp(w.s.task, r) || (PostOutstanding(next.s) && GaveUp(cfg, next, api, clock, k + 1))
  }

  /** What one answer leaves behind in an undisturbed flush. */
  predicate Outcome(s: State, r: Reply, t: State) {
    && t.reservation.None? && !t.health.aborted
    && (t.health.trip.None? ==>
          if GivesUp(s.task, r) then !PostOutstanding(t) && Pending(t) != []
          else PostOutstanding(t) || (t.task.Idle? && Pending(t) == []))
  }

  lemma ContinueOutcome(s: State)
    requires Ready(s) && Undisturbed(s)
    ensures var t := Continue(s);
            && Undisturbed(t)
            && (t.task.AwaitPost? || (t.task.Idle? && Pending(t) == []))
  {
    ContinueKeeps(s);
    ContinueTask(s);
    if HasWork(s.mail) {
      RefillOk(s.mail);
      PrefixOk(RefillIfDrained(s.mail));
    }
  }

  lemma NoteTransientOutcome(cfg: Config, s: State, now: int)
    requires Ready(s) && Undisturbed(s) && |s.mail.buffer| > 0
    ensures var t := NoteTransient(cfg, s, now);
            t.reservation.None? && !t.health.aborted && !PostOutstanding(t) && Pending(t) != []
  {
    NoteTransientKeeps(cfg, s, now);
  }

  lemma EndBisectOutcome(cfg: Config, s: State, remaining: seq<Item>, progressed: bool, now: int)
    requires Ready(s) && Undisturbed(s) && ItemsOk(remaining) && (!progressed ==> remaining != [])
    ensures var t := EndBisect(cfg, s, remaining, progressed, now);
            && t.reservation.None? && !t.health.aborted
            && (if progressed then Undisturbed(t) && (t.task.AwaitPost? || (t.task.Idle? && Pending(t) == []))
                else !PostOutstanding(t) && Pending(t) != [])
  {
    RequeueOk(s.mail, remaining);
    var t := s.(mail := Requeue(s.mail, remaining));
    if progressed { ContinueOutcome(t.(health := ClearStreak(t.health))); } else { NoteTransientOutcome(cfg, t, now); }
  }

  lemma PostOutcome(cfg: Config, s: State, r: Reply, now: int)
    requires Inv(s) && s.task.AwaitPost? && Undisturbed(s)
    ensures Outcome(s, r, PostSettled(cfg, s, s.task.batch, r, now))
  {
    var batch := s.task.batch;
    InvReady(s);
    RequeueOk(s.mail, batch);
    if r.Accepted? {
      ContinueOutcome(s.(mail := s.mail.(split := None), health := ClearStreak(s.health)));
    } else if !(Classify(r) != Transient && |batch| == 1 && batch[0].tombstoned) {
      match Classify(r)
      case Transient => NoteTransientOutcome(cfg, s.(mail := Requeue(s.mail, batch)), now);
      case Fatal =>
      case Oversize => OversizeOutcome(s, batch);
      case Permanent => PermanentOutcome(cfg, s, batch, now);
    }
  }

  lemma OversizeOutcome(s: State, batch: seq<Item>)
    requires Ready(s) && Undisturbed(s) && |batch| > 0 && ItemsOk(batch)
    ensures var t := HandleOversize(s, batch);
            Undisturbed(t) && (t.task.AwaitPost? || (t.task.Idle? && Pending(t) == []))
  {
    if |batch| > 1 {
      RequeueOk(s.mail, batch);
      ContinueOutcome(s.(mail := Requeue(s.mail, batch).(split := Some(|batch| / 2)), health := ClearStreak(s.health)));
    } else {
      SingleKeeps(s.mail, batch, MessageTruncated, RejectedTooLarge);
      ContinueOutcome(s.(mail :=
          Requeue(s.mail, [Tombstone(batch[0], MessageTruncated, RejectedTooLarge)]).(split := None)));
    }
  }

  lemma PermanentOutcome(cfg: Config, s: State, batch: seq<Item>, now: int)
    requires Ready(s) && Undisturbed(s) && |batch| > 0 && ItemsOk(batch) && !(|batch| == 1 && batch[0].tombstoned)
    ensures var t := HandleFailure(cfg, s, batch, Permanent, now);
            Undisturbed(t) && (PostOutstanding(t) || (t.task.Idle? && Pending(t) == []))
  {
    if |batch| == 1 {
      SingleKeeps(s.mail, batch, MessageDropped, PayloadRejected);
      ContinueOutcome(s.(mail := Requeue(s.mail, [Tombstone(batch[0], MessageDropped, PayloadRejected)])));
    }
  }

  lemma ProbeOutcome(cfg: Config, s: State, r: Reply, now: int)
    requires Inv(s) && s.task.AwaitProbe? && Undisturbed(s)
    ensures Outcome(s, r, ProbeSettled(cfg, s, s.task, r, now))
  {
    var k := s.task;
    var mid := Mid(k.lo, k.hi);
    InvReady(s);
    if r.Accepted? {
      SearchBoundHalves(|k.batch|, k.hi - k.lo, k.hi - mid, k.posts - 1);
      if k.hi - mid > 1 { BudgetSuffices(k.batch, k.hi - mid, k.posts); }
    } else {
      match Classify(r)
      case Fatal =>
      case Permanent =>
        SearchBoundHalves(|k.batch|, k.hi - k.lo, mid - k.lo, k.posts - 1);
        if mid - k.lo > 1 { BudgetSuffices(k.batch, mid - k.lo, k.posts); }
      case _ => EndBisectOutcome(cfg, s, k.batch[k.lo..], k.progressed, now);
    }
  }

  lemma MarkerOutcome(cfg: Config, s: State, r: Reply, now: int)
    requires Inv(s) && s.task.AwaitMarker? && Undisturbed(s)
    ensures Outcome(s, r, MarkerSettled(cfg, s, s.task, r, now))
  {
    var k := s.task;
    var rest := k.batch[k.lo + 1..];
    InvReady(s);
    WithHeadOk(k.marker, rest);
    if r.Accepted? {
      EndBisectOutcome(cfg, s, rest, true, now);
    } else if Classify(r) == Transient {
      EndBisectOutcome(cfg, s, [k.marker] + rest, k.progressed, now);
    }
  }

  lemma SettleOutcome(cfg: Config, s: State, r: Reply, now: int)
    requires Inv(s) && PostOutstanding(s) && Undisturbed(s)
    ensures Outcome(s, r, SettlePost(cfg, s, r, now))
  {
    match s.task
    case AwaitPost(_) => PostOutcome(cfg, s, r, now);
    case AwaitProbe(_, _, _, _, _) => ProbeOutcome(cfg, s, r, now);
    case AwaitMarker(_, _, _, _) => MarkerOutcome(cfg, s, r, now);
  }

  /** Against any api, an undisturbed flush stops with nothing outstanding. If it did not trip, it
      delivered everything it owed if and only if it never gave up. */
  lemma {:induction false} DrainOutcome(cfg: Config, w: World, api: Api, clock: Clock, k: nat)
    requires Inv(w.s) && PostOutstanding(w.s) && Undisturbed(w.s)
    ensures var t := Drain(cfg, w, api, clock, k);
            && !PostOutstanding(t.s)
            && (t.s.health.trip.None? ==> (Pending(t.s) == [] <==> !GaveUp(cfg, w, api, clock, k)))
    decreases Owing(w.s), Plainly(Pending(w.s)), SplitRoom(w.s), Phase(w.s.task)
  {
    var r := api(k, Msgs(Outstanding(w.s.task)));
    var next := Answer(cfg, w, api, clock, k);
    StepOk(cfg, w, PostAnswer(r, false, clock(k)));
    SettleLess(cfg, w.s, r, clock(k));
    SettleOutcome(cfg, w.s, r, clock(k));
    if PostOutstanding(next.s) { DrainOutcome(cfg, next, api, clock, k + 1); }
  }
}
