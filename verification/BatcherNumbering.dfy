/** Seq numbers over runs with reservations: strictly increasing, never reused, frozen while
    reserved, and resumed contiguously from the server's cursor. */
module BatcherNumbering {
  import opened Options
  import opened BatcherTypes
  import opened BatcherMachine
  import opened BatcherRuns
  import opened BatcherInvariant
  import opened BatcherCourse
  import opened BatcherPending

  predicate Increasing(items: seq<Item>) {
    forall i, j :: 0 <= i < j < |items| ==> items[i].msg.seqNo < items[j].msg.seqNo
  }

  predicate NumberedWithin(items: seq<Item>, lo: nat, hi: nat) {
    forall i :: 0 <= i < |items| ==> lo < items[i].msg.seqNo <= hi
  }

  predicate NumberingOk(lastSeq: nat, w: World) {
    && Inv(w.s)
    && lastSeq <= w.s.mail.seqNo
    && Increasing(w.issued)
    && NumberedWithin(w.issued, lastSeq, w.s.mail.seqNo)
  }

  lemma StepNumbering(cfg: Config, lastSeq: nat, w: World, e: Event)
    requires NumberingOk(lastSeq, w)
    ensures NumberingOk(lastSeq, Step(cfg, w, e))
  {
    StepOk(cfg, w, e);
    if e.EmitFrame? && w.s.reservation.None? && !w.s.health.closed {
      EmitNumbers(cfg, w, e);
    } else if e.ReleaseCalled? {
      if CanRelease(cfg, w.s, e.proof) { ReleaseStep(cfg, w, e.proof); }
    } else {
      StepMoves(cfg, w, e);
    }
  }

  lemma EmitNumbers(cfg: Config, w: World, e: Event)
    requires e.EmitFrame? && w.s.reservation.None? && !w.s.health.closed
    ensures var t := Step(cfg, w, e);
            && t.s.mail.seqNo == w.s.mail.seqNo + 1
            && t.issued == w.issued + [NewItem(w.s, Frame(e.kind, e.payload), e.who)]
            && NewItem(w.s, Frame(e.kind, e.payload), e.who).msg.seqNo == w.s.mail.seqNo + 1
  {
  }

  /** Over any run: seqs are assigned in strictly increasing order above `lastSeq`, so none is
      ever assigned twice. */
  lemma {:induction false} RunNumbering(cfg: Config, lastSeq: nat, es: seq<Event>)
    ensures NumberingOk(lastSeq, Run(cfg, Start(lastSeq), es))
    decreases |es|
  {
    if es != [] {
      RunNumbering(cfg, lastSeq, es[..|es| - 1]);
      StepNumbering(cfg, lastSeq, Run(cfg, Start(lastSeq), es[..|es| - 1]), es[|es| - 1]);
    }
  }

  /** While a reservation is installed no event but its release assigns a seq. An emitted frame
      joins the held events at their end, or the reservation has failed. */
  lemma ReservedHoldsBack(cfg: Config, w: World, e: Event)
    requires Inv(w.s) && w.s.reservation.Some? && !e.ReleaseCalled?
    ensures var t := Step(cfg, w, e);
            && t.issued == w.issued && t.s.mail.seqNo == w.s.mail.seqNo == w.s.reservation.value.tail
            && t.s.reservation.Some? && t.s.reservation.value.tail == w.s.reservation.value.tail
            && w.s.reservation.value.held <= t.s.reservation.value.held
    ensures e.EmitFrame? && !w.s.health.closed ==>
            var r := Step(cfg, w, e).s.reservation.value;
            || r.state == Failed
            || (|r.held| == |w.s.reservation.value.held| + 1
                && r.held[|r.held| - 1].body == Measured(Msg(w.s.mail.seqNo, Frame(e.kind, e.payload), e.who)).msg.body
                && r.held[|r.held| - 1].who == e.who)
  {
    StepMoves(cfg, w, e);
    StepOk(cfg, w, e);
    HeldGrows(cfg, w, e);
  }

  lemma HeldGrows(cfg: Config, w: World, e: Event)
    requires Inv(w.s) && w.s.reservation.Some? && !e.ReleaseCalled?
    ensures var t := Step(cfg, w, e).s; t.reservation.Some? && w.s.reservation.value.held <= t.reservation.value.held
  {
    match e
    case EmitFrame(kind, payload, who) => EmitHeld(cfg, w.s, Frame(kind, payload), who);
    case PostAnswer(r, _, now) => SettlePostHeld(cfg, w.s, r, now);
    case StoreAnswer(o, now) => StoreHeld(w.s, o, now);
    case PrepareCalled(ok, permanent) => PrepHeld(cfg, w.s, Accepted, ok, false, permanent);
    case PrepareAnswer(r, _, expired, permanent) => PrepHeld(cfg, w.s, r, false, expired, permanent);
    case PrepareConfirmed(ok, permanent) => PrepHeld(cfg, w.s, Accepted, ok, false, permanent);
    case _ =>
  }

  lemma EmitHeld(cfg: Config, s: State, body: Body, who: Attribution)
    requires s.reservation.Some?
    ensures var t := Emit(cfg, s, body, who);
            t.reservation.Some? && s.reservation.value.held <= t.reservation.value.held
  {
  }

  lemma StoreHeld(s: State, o: StoreOutcome, now: int)
    ensures SameHeld(s, StoreSettled(s, o, now))
  {
  }

  predicate SameHeld(s: State, t: State) {
    s.reservation.Some? ==> t.reservation.Some? && t.reservation.value.held == s.reservation.value.held
  }

  lemma PrepHeld(cfg: Config, s: State, r: Reply, ok: bool, expired: bool, permanent: bool)
    ensures SameHeld(s, PrepBegin(cfg, s, ok, permanent)) && SameHeld(s, PrepPosted(s, r, expired, permanent))
    ensures SameHeld(s, PrepConfirmed(s, ok, permanent))
  {
  }

  lemma SettlePostHeld(cfg: Config, s: State, r: Reply, now: int)
    requires s.reservation.Some?
    ensures var t := SettlePost(cfg, s, r, now);
            t.reservation.Some? && t.reservation.value.held == s.reservation.value.held
  {
  }

  /** A release is granted only to a fully drained tail. The held events, in their order, get the
      seqs right after a server cursor that is at or above every seq assigned before. */
  lemma ReleaseResumes(cfg: Config, lastSeq: nat, w: World, p: Proof)
    requires NumberingOk(lastSeq, w) && CanRelease(cfg, w.s, p)
    ensures Pending(w.s) == []
    ensures var t := Step(cfg, w, ReleaseCalled(p));
            var held := w.s.reservation.value.held;
            var cursor := ReleaseCursor(w.s.reservation.value, p);
            var added := Pending(t.s);
            && w.s.mail.seqNo <= cursor && t.s.mail.seqNo == cursor + |held| <= MAX_SEQ
            && t.s.reservation.None? && t.issued == w.issued + added && |added| == |held|
            && forall i :: 0 <= i < |held| ==> added[i].msg == Msg(cursor + 1 + i, held[i].body, held[i].who)
  {
    ReleaseKeeps(cfg, w.s, p);
    ReleaseStep(cfg, w, p);
  }

  lemma ReleaseStep(cfg: Config, w: World, p: Proof)
    requires Inv(w.s) && CanRelease(cfg, w.s, p)
    ensures var t := Step(cfg, w, ReleaseCalled(p));
            var held := w.s.reservation.value.held;
            var cursor := ReleaseCursor(w.s.reservation.value, p);
            && w.s.mail.seqNo <= cursor && t.s.mail.seqNo == cursor + |held| <= MAX_SEQ
            && t.s.reservation.None? && t.issued == w.issued + Numbered(held, cursor)
  {
  }
}
