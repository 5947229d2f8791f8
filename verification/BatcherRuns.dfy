/** Runs of the batcher against an arbitrary server and outbox: the events, what each one adds
    to the history, and the run of an event sequence. */
module BatcherRuns {
  import opened Options
  import opened BatcherTypes
  import opened BatcherMachine

  /** `applied` says a failed post was nevertheless applied by the server (a lost answer). */
  datatype Event =
    | EmitFrame(kind: string, payload: string, who: Attribution)
    | Flush(alreadyAborted: bool)
    | PostAnswer(reply: Reply, applied: bool, now: int)
    | StoreAnswer(outcome: StoreOutcome, now: int)
    | AbortFlush
    | Rearmed
    | CloseCalled
    | ReserveCalled
    | Submitted
    | Cancelled
    | PrepareCalled(ok: bool, permanent: bool)
    | PrepareAnswer(reply: Reply, applied: bool, expired: bool, permanent: bool)
    | PrepareConfirmed(ok: bool, permanent: bool)
    | ReleaseCalled(proof: Proof)

  /** The batcher and everything that happened around it: the items in the order their seqs were
      assigned, the 2xx-answered messages in answer order, the first message the server kept per
      seq, and the seqs of committed outbox records. */
  datatype World = World(s: State, issued: seq<Item>, delivered: seq<Msg>, server: map<nat, Msg>, stored: set<nat>)

  function Start(lastSeq: nat): World {
    World(Init(lastSeq), [], [], map[], {})
  }

  /** The request body the flush coroutine waits for. */
  function Outstanding(k: Task): seq<Item> {
    match k
    case AwaitPost(batch) => batch
    case AwaitProbe(batch, lo, hi, _, _) =>
      if lo < hi <= |batch| then batch[lo..Mid(lo, hi)] else []
    case AwaitMarker(_, _, marker, _) => [marker]
    case _ => []
  }

  /** Items the coroutine has taken out of the buffer and not settled. */
  function Carried(k: Task): seq<Item> {
    match k
    case AwaitPost(batch) => batch
    case AwaitProbe(batch, lo, _, _, _) => if lo <= |batch| then batch[lo..] else []
    case AwaitMarker(batch, lo, marker, _) => if lo < |batch| then [marker] + batch[lo + 1..] else []
    case AwaitSegment(batch) => batch
    case _ => []
  }

  function PrepCarried(s: State): seq<Item> {
    if s.reservation.Some? && s.reservation.value.prep.Posting? then s.reservation.value.prep.batch else []
  }

  /** Everything assigned that is still in memory as an item, in delivery order. */
  function Owned(s: State): seq<Item> {
    Carried(s.task) + PrepCarried(s) + s.mail.buffer
  }

  /** The server keeps the first message it accepts under a seq. */
  function Absorb(server: map<nat, Msg>, ms: seq<Msg>): map<nat, Msg>
    decreases |ms|
  {
    if ms == [] then server
    else
      var m := ms[0];
      Absorb(if m.seqNo in server then server else server[m.seqNo := m], ms[1..])
  }

  function Ids(items: seq<Item>): set<nat> {
    set i | 0 <= i < |items| :: items[i].msg.seqNo
  }

  /** The seqs a range record covers. */
  function Span(r: Range): (ns: set<nat>)
    ensures forall n: nat :: n in ns <==> r.first <= n <= r.last
    decreases r.last + 1 - r.first
  {
    if r.first > r.last then {} else {r.first} + Span(Range(r.first + 1, r.last))
  }

  predicate PostOutstanding(s: State) {
    s.task.AwaitPost? || s.task.AwaitProbe? || s.task.AwaitMarker?
  }

  function SettlePost(cfg: Config, s: State, r: Reply, now: int): State {
    match s.task
    case AwaitPost(batch) => if |batch| > 0 then PostSettled(cfg, s, batch, r, now) else s
    case AwaitProbe(_, _, _, _, _) =>
      if Probing(s.task) then ProbeSettled(cfg, s, s.task, r, now) else s
    case AwaitMarker(_, _, _, _) => if Marking(s.task) then MarkerSettled(cfg, s, s.task, r, now) else s
    case _ => s
  }

  function SendSettled(w: World, sent: seq<Item>, r: Reply, applied: bool): World {
    w.(delivered := if r.Accepted? then w.delivered + Msgs(sent) else w.delivered,
       server := if r.Accepted? || applied then Absorb(w.server, Msgs(sent)) else w.server)
  }

  function StoredBy(s: State, o: StoreOutcome): set<nat> {
    if o != Stored then {}
    else match s.task
      case AwaitRange(range) => Span(range)
      case AwaitSegment(batch) => Ids(batch)
      case _ => {}
  }

  function Step(cfg: Config, w: World, e: Event): World {
    var s := w.s;
    match e
    case EmitFrame(kind, payload, who) =>
      var body := Frame(kind, payload);
      w.(s := Emit(cfg, s, body, who),
         issued := if s.health.closed || s.reservation.Some? then w.issued else w.issued + [NewItem(s, body, who)])
    case Flush(already) => w.(s := StartFlush(s, already))
    case PostAnswer(r, applied, now) =>
      if !PostOutstanding(s) then w
      else SendSettled(w, Outstanding(s.task), r, applied).(s := SettlePost(cfg, s, r, now))
    case StoreAnswer(o, now) => w.(s := StoreSettled(s, o, now), stored := w.stored + StoredBy(s, o))
    case AbortFlush => w.(s := s.(health := s.health.(aborted := s.health.aborted || !s.task.Idle?)))
    case Rearmed => w.(s := Rearm(s))
    case CloseCalled => w.(s := Close(s))
    case ReserveCalled => w.(s := Reserve(cfg, s))
    case Submitted =>
      if s.reservation.None? then w else w.(s := s.(reservation := Some(s.reservation.value.(submitted := true))))
    case Cancelled =>
      w.(s := s.(reservation := FailReservation(s.reservation)))
    case PrepareCalled(ok, permanent) => w.(s := PrepBegin(cfg, s, ok, permanent))
    case PrepareAnswer(r, applied, expired, permanent) =>
      if PrepCarried(s) == [] then w
      else SendSettled(w, PrepCarried(s), r, applied).(s := PrepPosted(s, r, expired, permanent))
    case PrepareConfirmed(ok, permanent) => w.(s := PrepConfirmed(s, ok, permanent))
    case ReleaseCalled(p) =>
      w.(s := Release(cfg, s, p),
         issued := if CanRelease(cfg, s, p)
                     then w.issued + Numbered(s.reservation.value.held, ReleaseCursor(s.reservation.value, p))
                     else w.issued)
  }

  function Run(cfg: Config, w: World, es: seq<Event>): World
    decreases |es|
  {
    if es == [] then w else Step(cfg, Run(cfg, w, es[..|es| - 1]), es[|es| - 1])
  }
}
