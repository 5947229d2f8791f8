/** The seq stream of a run that never spills and never reserves: gapless at the server at every
    moment, and, until the breaker trips, accounted for message by message. */
module BatcherStream {
  import opened Options
  import opened BatcherTypes
  import opened BatcherMachine
  import opened BatcherRuns
  import opened BatcherInvariant
  import opened BatcherCourse
  import opened BatcherPending

  /** Consecutive seqs from `first` on. */
  predicate Consecutive(ms: seq<Msg>, first: nat) {
    forall i :: 0 <= i < |ms| ==> ms[i].seqNo == first + i
  }

  /** The server holds an interval that starts right after `lastSeq`. */
  predicate Gapless(server: map<nat, Msg>, lastSeq: nat) {
    && (forall n: nat :: n in server ==> lastSeq < n)
    && (forall m: nat, n: nat :: n in server && lastSeq < m <= n ==> m in server)
  }

  predicate Plain(s: State) {
    s.reservation.None? && s.mail.range.None? && !s.health.spilled && Networked(s.task)
  }

  /** No event reserves, and no state along the way is in spill mode. */
  predicate PlainRun(cfg: Config, lastSeq: nat, es: seq<Event>) {
    es == [] ||
    (PlainRun(cfg, lastSeq, es[..|es| - 1]) && !es[|es| - 1].ReserveCalled?
        && !Run(cfg, Start(lastSeq), es).s.health.spilled)
  }

  predicate StreamOk(lastSeq: nat, w: World) {
    && Inv(w.s) && Plain(w.s)
    && w.s.mail.seqNo == lastSeq + |w.issued|
    && Consecutive(Msgs(w.issued), lastSeq + 1)
    && Consecutive(w.delivered, lastSeq + 1) && |w.delivered| <= |w.issued|
    && (w.s.health.trip.None? ==>
          |w.delivered| + |Pending(w.s)| == |w.issued|
          && Consecutive(Msgs(Pending(w.s)), lastSeq + 1 + |w.delivered|))
    && Gapless(w.server, lastSeq)
    && (forall n: nat :: lastSeq < n <= lastSeq + |w.delivered| ==> n in w.server)
    && (forall n: nat :: n in w.server ==> n <= w.s.mail.seqNo)
  }

  lemma {:induction false} AbsorbKeys(server: map<nat, Msg>, ms: seq<Msg>)
    ensures forall n: nat :: n in Absorb(server, ms) <==> n in server || exists i :: 0 <= i < |ms| && ms[i].seqNo == n
    decreases |ms|
  {
    if ms != [] {
      var m := ms[0];
      var next := if m.seqNo in server then server else server[m.seqNo := m];
      AbsorbKeys(next, ms[1..]);
      forall n: nat | n in server || exists i :: 0 <= i < |ms| && ms[i].seqNo == n
        ensures n in Absorb(server, ms)
      {
        if n !in next {
          var i :| 0 <= i < |ms| && ms[i].seqNo == n;
          assert ms[1..][i - 1].seqNo == n;
        }
      }
    }
  }

  /** Applying the next consecutive messages keeps the server's interval. */
  lemma AbsorbGapless(server: map<nat, Msg>, ms: seq<Msg>, lastSeq: nat, confirmed: nat)
    requires Gapless(server, lastSeq) && Consecutive(ms, lastSeq + 1 + confirmed)
    requires forall n: nat :: lastSeq < n <= lastSeq + confirmed ==> n in server
    ensures Gapless(Absorb(server, ms), lastSeq)
    ensures forall n: nat :: lastSeq < n <= lastSeq + confirmed + |ms| ==> n in Absorb(server, ms)
    ensures forall n: nat :: n in Absorb(server, ms) ==>
              n in server || lastSeq + confirmed < n <= lastSeq + confirmed + |ms|
  {
    AbsorbKeys(server, ms);
    forall n: nat | lastSeq < n <= lastSeq + confirmed + |ms|
      ensures n in Absorb(server, ms)
    {
      if n > lastSeq + confirmed { assert ms[n - lastSeq - confirmed - 1].seqNo == n; }
    }
  }

  lemma HeadMarkedConsecutive(q: seq<Item>, event: MarkerEvent, reason: Reason, first: nat)
    requires |q| > 0 && Consecutive(Msgs(q), first)
    ensures Consecutive(Msgs(HeadMarked(q, event, reason)), first)
  {
    var h := HeadMarked(q, event, reason);
    forall i | 0 <= i < |h| ensures Msgs(h)[i].seqNo == first + i {
      assert Msgs(q)[i].seqNo == first + i;
    }
  }

  lemma DropConsecutive(q: seq<Item>, n: nat, first: nat)
    requires n <= |q| && Consecutive(Msgs(q), first)
    ensures Consecutive(Msgs(q[..n]), first) && Consecutive(Msgs(q[n..]), first + n)
  {
    assert forall i :: 0 <= i < n ==> Msgs(q[..n])[i] == Msgs(q)[i];
    assert forall i :: 0 <= i < |q| - n ==> Msgs(q[n..])[i] == Msgs(q)[n + i];
  }

  lemma ConsecutiveConcat(a: seq<Msg>, b: seq<Msg>, first: nat)
    requires Consecutive(a, first) && Consecutive(b, first + |a|)
    ensures Consecutive(a + b, first)
  {
  }

  /** What is owed after a settled post continues the confirmed stream. */
  lemma SettledConsecutive(s: State, r: Reply, t: State, first: nat)
    requires SettledTo(s, r, t) && Outstanding(s.task) <= Pending(s) && Consecutive(Msgs(Pending(s)), first)
    ensures var n := if r.Accepted? then |Outstanding(s.task)| else 0;
            |Pending(t)| == |Pending(s)| - n && Consecutive(Msgs(Pending(t)), first + n)
  {
    var n := if r.Accepted? then |Outstanding(s.task)| else 0;
    var base := Unsent(s, r);
    assert base == Pending(s)[n..];
    DropConsecutive(Pending(s), n, first);
    if |base| > 0 {
      HeadMarkedConsecutive(base, MessageDropped, PayloadRejected, first + n);
      HeadMarkedConsecutive(base, MessageTruncated, RejectedTooLarge, first + n);
    }
  }

  lemma PostStream(cfg: Config, lastSeq: nat, w: World, r: Reply, applied: bool, now: int)
    requires StreamOk(lastSeq, w) && PostOutstanding(w.s)
    ensures StreamOk(lastSeq, Step(cfg, w, PostAnswer(r, applied, now)))
  {
    var s := w.s;
    var t := SettlePost(cfg, s, r, now);
    StepOk(cfg, w, PostAnswer(r, applied, now));
    SettlePostKeeps(cfg, s, r, now);
    SettlePostCourse(cfg, s, r, now);
    if t.health.trip.None? { SettledConsecutive(s, r, t, lastSeq + 1 + |w.delivered|); }
    SentStream(lastSeq, w, Outstanding(s.task), r, applied, t);
  }

  lemma SentStream(lastSeq: nat, w: World, sent: seq<Item>, r: Reply, applied: bool, t: State)
    requires StreamOk(lastSeq, w) && w.s.health.trip.None? && sent <= Pending(w.s) && Inv(t) && Plain(t)
    requires t.mail.seqNo == w.s.mail.seqNo
    requires t.health.trip.None? ==>
               var n := if r.Accepted? then |sent| else 0;
               |Pending(t)| == |Pending(w.s)| - n && Consecutive(Msgs(Pending(t)), lastSeq + 1 + |w.delivered| + n)
    ensures StreamOk(lastSeq, SendSettled(w, sent, r, applied).(s := t))
  {
    var first := lastSeq + 1 + |w.delivered|;
    assert sent == Pending(w.s)[..|sent|];
    DropConsecutive(Pending(w.s), |sent|, first);
    AbsorbGapless(w.server, Msgs(sent), lastSeq, |w.delivered|);
    ConsecutiveConcat(w.delivered, Msgs(sent), lastSeq + 1);
  }

  lemma EmitStream(cfg: Config, lastSeq: nat, w: World, kind: string, payload: string, who: Attribution)
    requires StreamOk(lastSeq, w)
    ensures StreamOk(lastSeq, Step(cfg, w, EmitFrame(kind, payload, who)))
  {
    StepOk(cfg, w, EmitFrame(kind, payload, who));
    if !w.s.health.closed {
      var item := NewItem(w.s, Frame(kind, payload), who);
      var t := Emit(cfg, w.s, Frame(kind, payload), who);
      assert Pending(t) == Pending(w.s) + [item];
      IssuedStream(lastSeq, w, item, t);
    }
  }

  lemma IssuedStream(lastSeq: nat, w: World, item: Item, t: State)
    requires StreamOk(lastSeq, w) && Inv(t) && Plain(t) && t.mail.seqNo == w.s.mail.seqNo + 1 == item.msg.seqNo
    requires Pending(t) == Pending(w.s) + [item] && (t.health.trip.None? ==> w.s.health.trip.None?)
    ensures StreamOk(lastSeq, w.(s := t, issued := w.issued + [item]))
  {
    assert Msgs(Pending(t)) == Msgs(Pending(w.s)) + [item.msg];
    assert Msgs(w.issued + [item]) == Msgs(w.issued) + [item.msg];
  }

  lemma StepStream(cfg: Config, lastSeq: nat, w: World, e: Event)
    requires StreamOk(lastSeq, w) && !e.ReserveCalled? && !Step(cfg, w, e).s.health.spilled
    ensures StreamOk(lastSeq, Step(cfg, w, e))
  {
    match e
    case EmitFrame(kind, payload, who) => EmitStream(cfg, lastSeq, w, kind, payload, who);
    case PostAnswer(r, applied, now) => if PostOutstanding(w.s) { PostStream(cfg, lastSeq, w, r, applied, now); }
    case StoreAnswer(o, now) => StoreStream(cfg, lastSeq, w, o, now);
    case PrepareAnswer(_, _, _, _) => assert PrepCarried(w.s) == [];
    case ReleaseCalled(_) => Unreleased(cfg, w, e);
    case ReserveCalled =>
    case _ => QuietStream(cfg, lastSeq, w, e);
  }

  lemma Unreleased(cfg: Config, w: World, e: Event)
    requires e.ReleaseCalled? && w.s.reservation.None?
    ensures Step(cfg, w, e) == w
  {
  }

  lemma QuietStream(cfg: Config, lastSeq: nat, w: World, e: Event)
    requires StreamOk(lastSeq, w) && QuietEvent(e) && !e.ReserveCalled?
    ensures StreamOk(lastSeq, Step(cfg, w, e))
  {
    StepOk(cfg, w, e);
    StepMoves(cfg, w, e);
    QuietKeeps(cfg, w, e);
    QuietPlain(cfg, w, e);
    SameStream(lastSeq, w, Step(cfg, w, e));
  }

  /** A step that only moves what is owed around. */
  lemma SameStream(lastSeq: nat, w: World, t: World)
    requires StreamOk(lastSeq, w) && Inv(t.s) && Plain(t.s) && t.s.mail.seqNo == w.s.mail.seqNo
    requires t.issued == w.issued && t.delivered == w.delivered && t.server == w.server
    requires t.s.health.trip.None? ==> w.s.health.trip.None? && Pending(t.s) == Pending(w.s)
    ensures StreamOk(lastSeq, t)
  {
  }

  lemma QuietPlain(cfg: Config, w: World, e: Event)
    requires Inv(w.s) && Plain(w.s) && QuietEvent(e) && !e.ReserveCalled?
    ensures var t := Step(cfg, w, e).s; Plain(t) && (t.health.trip.None? ==> w.s.health.trip.None?)
  {
    if e.Flush? { ContinueCourse(w.s.(health := w.s.health.(aborted := e.alreadyAborted))); }
  }

  /** Outside the spill the outbox only answers the mark that would start it. */
  lemma StoreStream(cfg: Config, lastSeq: nat, w: World, o: StoreOutcome, now: int)
    requires StreamOk(lastSeq, w) && !Step(cfg, w, StoreAnswer(o, now)).s.health.spilled
    ensures StreamOk(lastSeq, Step(cfg, w, StoreAnswer(o, now)))
  {
    var t := Step(cfg, w, StoreAnswer(o, now));
    StepOk(cfg, w, StoreAnswer(o, now));
    StoreMoves(w.s, o, now);
    if o.Threw? { StoreThrewKeeps(w.s, now); }
    SameStream(lastSeq, w, t);
  }

  /** In every run that never spills and never reserves, whatever the answers (lost ones included),
      the seqs at the server always form a gapless interval after `lastSeq`, and until the breaker
      trips the confirmed messages followed by the owed ones are exactly the assigned seqs in order. */
  lemma {:induction false} RunStream(cfg: Config, lastSeq: nat, es: seq<Event>)
    requires PlainRun(cfg, lastSeq, es)
    ensures StreamOk(lastSeq, Run(cfg, Start(lastSeq), es))
    decreases |es|
  {
    if es == [] {
      assert Pending(Init(lastSeq)) == [];
    } else {
      RunStream(cfg, lastSeq, es[..|es| - 1]);
      StepStream(cfg, lastSeq, Run(cfg, Start(lastSeq), es[..|es| - 1]), es[|es| - 1]);
    }
  }
}
