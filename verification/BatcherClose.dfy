/** The last write of a closing batcher: what is still owed goes to the outbox, the dropped range as
    one record and the buffer as segments. A spilled or reserved batcher closes this way. */
module BatcherClose {
  import opened Options
  import opened BatcherTypes
  import opened BatcherMachine
  import opened BatcherRuns
  import opened BatcherInvariant
  import opened BatcherPending
  import opened BatcherCoverage
  import opened BatcherLoss

  /** What is still owed, the recorded seqs, the mark by which a restart admits a possible loss, and
      whether the tail is reported as kept. */
  datatype Tail = Tail(mail: Mail, stored: set<nat>, unclean: bool, kept: bool)

  /** The segments, then the mark is cleared; the outbox answers its call `k` next. `disabled` says
      the outbox has been disabled by the end. */
  function SpillRest(t: Tail, outbox: nat -> StoreOutcome, k: nat, disabled: bool): Tail
    decreases |t.mail.buffer|
  {
    var n := PrefixCount(t.mail);
    if n == 0 then
      if outbox(k).Threw? then t.(kept := false) else t.(unclean := false, kept := !disabled)
    else if outbox(k) != Stored then t.(kept := false)
    else
      SpillRest(t.(mail := t.mail.(buffer := t.mail.buffer[n..]), stored := t.stored + Ids(t.mail.buffer[..n])),
                outbox, k + 1, disabled)
  }

  /** An append that did not commit ends the write. */
  function SpillRange(t: Tail, outbox: nat -> StoreOutcome, k: nat, disabled: bool): Tail {
    if t.mail.range.None? then SpillRest(t, outbox, k, disabled)
    else if outbox(k) != Stored then t.(kept := false)
    else
      SpillRest(t.(mail := t.mail.(range := None), stored := t.stored + Span(t.mail.range.value)), outbox, k + 1,
                disabled)
  }

  /** The mark is set before anything else is written. */
  function FinalSpill(cfg: Config, t: Tail, outbox: nat -> StoreOutcome, k: nat, disabled: bool): Tail {
    if !cfg.outbox.UsableStore? then t.(kept := false)
    else if !HasWork(t.mail) then SpillRest(t, outbox, k, disabled)
    else if outbox(k).Threw? then t.(kept := false)
    else SpillRange(t.(unclean := true), outbox, k + 1, disabled)
  }

  /** The owed and the recorded seqs together. */
  function Held(t: Tail): set<nat> {
    Ids(Queue(t.mail)) + t.stored
  }

  /** `u` comes from `t` by recording: no seq is lost or made up, the counter stays, what is still
      buffered is the end of what was, and the range is recorded before any of the buffer. */
  predicate Records(t: Tail, u: Tail) {
    && Held(u) == Held(t) && t.stored <= u.stored && u.mail == t.mail.(buffer := u.mail.buffer, range := u.mail.range)
    && |u.mail.buffer| <= |t.mail.buffer| && u.mail.buffer == t.mail.buffer[|t.mail.buffer| - |u.mail.buffer|..]
    && (u.mail.range == t.mail.range || u.mail.range.None?)
    && (u.mail.range.Some? ==> u.mail.buffer == t.mail.buffer)
  }

  /** It ends well: a tail is reported as kept only when nothing is owed any more and the mark is
      cleared, and a mark is cleared only then. */
  predicate Ends(t: Tail, u: Tail) {
    && Records(t, u) && (u.kept ==> Queue(u.mail) == [] && !u.unclean)
    && (Queue(u.mail) != [] ==> u.unclean == t.unclean)
  }

  lemma SegmentRecorded(t: Tail, n: nat)
    requires MailOk(t.mail) && n <= |t.mail.buffer| && t.mail.range.None?
    ensures var u := t.(mail := t.mail.(buffer := t.mail.buffer[n..]), stored := t.stored + Ids(t.mail.buffer[..n]));
            MailOk(u.mail) && Records(t, u)
  {
    var m := t.mail.(buffer := t.mail.buffer[n..]);
    QueueIds(t.mail);
    QueueIds(m);
    IdsConcat(t.mail.buffer[..n], t.mail.buffer[n..]);
    assert t.mail.buffer == t.mail.buffer[..n] + t.mail.buffer[n..];
  }

  lemma RecordsChain(t: Tail, u: Tail, v: Tail)
    requires Records(t, u) && Records(u, v)
    ensures Records(t, v)
  {
    var a, b, c := t.mail.buffer, u.mail.buffer, v.mail.buffer;
    assert a[|a| - |b|..][|b| - |c|..] == a[|a| - |c|..];
  }

  lemma EndsLater(t: Tail, s: Tail, u: Tail)
    requires Records(t, s) && s.unclean == t.unclean && Ends(s, u)
    ensures Ends(t, u)
  {
    RecordsChain(t, s, u);
  }

  /** Nothing more was recorded. */
  lemma EndsHere(t: Tail, u: Tail)
    requires u == t.(kept := false) || (Queue(t.mail) == [] && u == t.(unclean := false, kept := u.kept))
    ensures Ends(t, u)
  {
  }

  function SegmentDone(t: Tail): Tail {
    var n := PrefixCount(t.mail);
    t.(mail := t.mail.(buffer := t.mail.buffer[n..]), stored := t.stored + Ids(t.mail.buffer[..n]))
  }

  lemma RestStops(t: Tail, outbox: nat -> StoreOutcome, k: nat, disabled: bool)
    requires MailOk(t.mail) && t.mail.range.None? && (PrefixCount(t.mail) == 0 || outbox(k) != Stored)
    ensures Ends(t, SpillRest(t, outbox, k, disabled))
  {
    if |t.mail.buffer| > 0 { PrefixOk(t.mail); }
    EndsHere(t, SpillRest(t, outbox, k, disabled));
  }

  lemma RestFails(t: Tail, outbox: nat -> StoreOutcome, k: nat, disabled: bool)
    requires PrefixCount(t.mail) > 0 && outbox(k) != Stored
    ensures SpillRest(t, outbox, k, disabled) == t.(kept := false)
  {
  }

  lemma RestClears(t: Tail, outbox: nat -> StoreOutcome, k: nat, disabled: bool)
    requires PrefixCount(t.mail) == 0
    ensures SpillRest(t, outbox, k, disabled) ==
            if outbox(k).Threw? then t.(kept := false) else t.(unclean := false, kept := !disabled)
  {
  }

  lemma RestGoesOn(t: Tail, outbox: nat -> StoreOutcome, k: nat, disabled: bool)
    requires PrefixCount(t.mail) > 0 && outbox(k) == Stored
    ensures SpillRest(t, outbox, k, disabled) == SpillRest(SegmentDone(t), outbox, k + 1, disabled)
  {
  }

  lemma {:induction false} RestRecords(t: Tail, outbox: nat -> StoreOutcome, k: nat, disabled: bool)
    requires MailOk(t.mail) && t.mail.range.None?
    ensures Ends(t, SpillRest(t, outbox, k, disabled))
    decreases |t.mail.buffer|
  {
    if PrefixCount(t.mail) > 0 && outbox(k) == Stored {
      SegmentRecorded(t, PrefixCount(t.mail));
      RestGoesOn(t, outbox, k, disabled);
      RestRecords(SegmentDone(t), outbox, k + 1, disabled);
      EndsLater(t, SegmentDone(t), SpillRest(t, outbox, k, disabled));
    } else {
      RestStops(t, outbox, k, disabled);
    }
  }

  lemma RangeRecorded(t: Tail)
    requires MailOk(t.mail) && t.mail.range.Some?
    ensures Records(t, t.(mail := t.mail.(range := None), stored := t.stored + Span(t.mail.range.value)))
  {
    QueueIds(t.mail);
    QueueIds(t.mail.(range := None));
  }

  lemma RangeAndRestRecord(t: Tail, outbox: nat -> StoreOutcome, k: nat, disabled: bool)
    requires MailOk(t.mail)
    ensures Ends(t, SpillRange(t, outbox, k, disabled))
  {
    if t.mail.range.None? {
      RestRecords(t, outbox, k, disabled);
    } else if outbox(k) == Stored {
      var s := t.(mail := t.mail.(range := None), stored := t.stored + Span(t.mail.range.value));
      RangeRecorded(t);
      RestRecords(s, outbox, k + 1, disabled);
      EndsLater(t, s, SpillRest(s, outbox, k + 1, disabled));
    } else {
      EndsHere(t, t.(kept := false));
    }
  }

  /** Whatever the outbox answers, and wherever the write stops, the last write only records. A tail
      reported as kept is recorded whole. Something is left owed without the mark exactly when there
      was no mark and none could be set. */
  lemma FinalSpillRecords(cfg: Config, t: Tail, outbox: nat -> StoreOutcome, k: nat, disabled: bool)
    requires MailOk(t.mail)
    ensures var u := FinalSpill(cfg, t, outbox, k, disabled);
            && Records(t, u) && (u.kept ==> Queue(u.mail) == [] && !u.unclean)
            && (Queue(u.mail) != [] && !u.unclean <==>
                  HasWork(t.mail) && !t.unclean && (!cfg.outbox.UsableStore? || outbox(k).Threw?))
  {
    WorkIsOwed(t.mail);
    if !cfg.outbox.UsableStore? || (HasWork(t.mail) && outbox(k).Threw?) {
      EndsHere(t, t.(kept := false));
    } else if !HasWork(t.mail) {
      RestRecords(t, outbox, k, disabled);
      NothingLeft(t, SpillRest(t, outbox, k, disabled));
    } else {
      RangeAndRestRecord(t.(unclean := true), outbox, k + 1, disabled);
      MarkedRecords(t, SpillRange(t.(unclean := true), outbox, k + 1, disabled));
    }
  }

  lemma NothingLeft(t: Tail, u: Tail)
    requires !HasWork(t.mail) && Records(t, u)
    ensures Queue(u.mail) == []
  {
  }

  lemma MarkedRecords(t: Tail, u: Tail)
    requires Ends(t.(unclean := true), u)
    ensures Records(t, u) && (Queue(u.mail) != [] ==> u.unclean) && (u.kept ==> Queue(u.mail) == [] && !u.unclean)
  {
  }

  lemma WorkIsOwed(m: Mail)
    requires MailOk(m)
    ensures HasWork(m) <==> Queue(m) != []
  {
  }

  // ----- after a whole run

  /** The last write is made once no flush and no preparation is under way. */
  predicate Quiescent(s: State) {
    s.task.Idle? && PrepCarried(s) == []
  }

  function TailOf(w: World, unclean: bool): Tail {
    Tail(w.s.mail, w.stored, unclean, false)
  }

  /** The world after the last write. */
  function Closed(w: World, u: Tail): World {
    w.(s := w.s.(mail := u.mail), stored := u.stored)
  }

  lemma ClosedAccounted(w: World, u: Tail, unclean: bool)
    requires Quiescent(w.s) && Held(u) == Held(TailOf(w, unclean))
    ensures Accounted(Closed(w, u)) == Accounted(w) && Pending(Closed(w, u).s) == Queue(u.mail)
  {
    assert Pending(w.s) == Queue(w.s.mail);
    assert Pending(Closed(w, u).s) == Queue(u.mail);
  }

  /** Coverage through the end. After any untripped run whose returned appends all committed, and any
      last write, every assigned seq is owed, recorded or acknowledged exactly when no range write of
      the run forgot one. When the tail is reported as kept, that says recorded or acknowledged. */
  lemma CloseCoverage(cfg: Config, lastSeq: nat, es: seq<Event>, unclean: bool, outbox: nat -> StoreOutcome, k: nat,
                      disabled: bool)
    requires NoRefusal(es) && Run(cfg, Start(lastSeq), es).s.health.trip.None?
    requires Quiescent(Run(cfg, Start(lastSeq), es).s)
    ensures var w := Run(cfg, Start(lastSeq), es);
            var u := FinalSpill(cfg, TailOf(w, unclean), outbox, k, disabled);
            && (Covered(Closed(w, u)) <==> !SomeForgets(cfg, lastSeq, es))
            && (u.kept ==> (Ids(w.issued) <= u.stored + MsgIds(w.delivered) <==> !SomeForgets(cfg, lastSeq, es)))
  {
    var w := Run(cfg, Start(lastSeq), es);
    var u := FinalSpill(cfg, TailOf(w, unclean), outbox, k, disabled);
    RunOk(cfg, lastSeq, es);
    SpillCoverage(cfg, lastSeq, es);
    FinalSpillRecords(cfg, TailOf(w, unclean), outbox, k, disabled);
    ClosedAccounted(w, u, unclean);
    assert u.kept ==> Ids(Queue(u.mail)) == {};
  }
}
