/** The in-process queue in front of the authority lock. Each caller waits for the promise chain it
    found under its directory and leaves its own promise as the new tail. A waiter that gives up
    keeps its place until its predecessor has settled. */
module AuthorityQueue {
  import opened Options

  /** `Granted` holds the slot while the cross-process lock is taken; `Inside` runs the callback. */
  datatype Phase = Waiting | Granted | Inside | GaveUp | Freed | Done

  /** One outermost call. `previous` is the caller whose tail promise it found. */
  datatype Caller = Caller(dir: string, previous: Option<nat>, phase: Phase)

  /** Callers in arrival order, the tail promise per directory, and the grants in order. */
  datatype Queue = Queue(callers: seq<Caller>, tails: map<string, nat>, grants: seq<nat>)

  /** `holder` is the transaction the calling context is inside of, if any. */
  datatype Event =
    | Arrive(dir: string, holder: Option<nat>)
    | Grant(i: nat)
    | Enter(i: nat)
    | GiveUp(i: nat)
    | Free(i: nat)
    | Complete(i: nat)

  const EMPTY := Queue([], map[], [])

  predicate Released(c: Caller) {
    c.phase == Freed || c.phase == Done
  }

  predicate Running(c: Caller) {
    c.phase == Granted || c.phase == Inside
  }

  /** The tail promise of caller `i` has settled: its own part is released and so is its predecessor's. */
  predicate Settled(cs: seq<Caller>, i: nat)
    decreases i
  {
    i < |cs| && Released(cs[i]) && PreviousSettled(cs, i, cs[i].previous)
  }

  predicate PreviousSettled(cs: seq<Caller>, i: nat, previous: Option<nat>)
    decreases i, 0
  {
    previous.None? || (previous.value < i && Settled(cs, previous.value))
  }

  predicate Turn(cs: seq<Caller>, i: nat)
    requires i < |cs|
  {
    PreviousSettled(cs, i, cs[i].previous)
  }

  /** A call from inside a running transaction on the same directory is refused. */
  predicate Nested(q: Queue, dir: string, holder: Option<nat>) {
    holder.Some? && holder.value < |q.callers| && q.callers[holder.value].dir == dir
        && q.callers[holder.value].phase == Inside
  }

  predicate Enabled(q: Queue, e: Event) {
    match e
    case Arrive(dir, holder) => !Nested(q, dir, holder)
    case Grant(i) => i < |q.callers| && q.callers[i].phase == Waiting && Turn(q.callers, i)
    case Enter(i) => i < |q.callers| && q.callers[i].phase == Granted
    case GiveUp(i) => i < |q.callers| && q.callers[i].phase == Waiting
    case Free(i) => i < |q.callers| && q.callers[i].phase == GaveUp && Turn(q.callers, i)
    case Complete(i) => i < |q.callers| && Running(q.callers[i])
  }

  function SetPhase(q: Queue, i: nat, p: Phase): Queue
    requires i < |q.callers|
  {
    q.(callers := q.callers[i := q.callers[i].(phase := p)])
  }

  /** Release the caller's promise; the last caller of its directory also removes the tail. */
  function Finish(q: Queue, i: nat, p: Phase): Queue
    requires i < |q.callers|
  {
    var dir := q.callers[i].dir;
    var t := SetPhase(q, i, p);
    if dir in q.tails && q.tails[dir] == i then t.(tails := q.tails - {dir}) else t
  }

  function Join(q: Queue, dir: string): Queue {
    q.(callers := q.callers + [Caller(dir, if dir in q.tails then Some(q.tails[dir]) else None, Waiting)],
       tails := q.tails[dir := |q.callers|])
  }

  function Step(q: Queue, e: Event): Queue {
    if !Enabled(q, e) then q
    else match e
      case Arrive(dir, _) => Join(q, dir)
      case Grant(i) => SetPhase(q, i, Granted).(grants := q.grants + [i])
      case Enter(i) => SetPhase(q, i, Inside)
      case GiveUp(i) => SetPhase(q, i, GaveUp)
      case Free(i) => Finish(q, i, Freed)
      case Complete(i) => Finish(q, i, Done)
  }

  function Run(es: seq<Event>): Queue {
    if es == [] then EMPTY else Step(Run(es[..|es| - 1]), es[|es| - 1])
  }

  // ----- the invariant

  predicate EarlierSettled(cs: seq<Caller>, dir: string, n: nat) {
    forall i :: 0 <= i < n && i < |cs| && cs[i].dir == dir ==> Settled(cs, i)
  }

  /** Caller `j` queued right behind the caller before it, or found nothing left to wait for. */
  predicate Linked(cs: seq<Caller>, j: nat)
    requires j < |cs|
  {
    match cs[j].previous
    case None => EarlierSettled(cs, cs[j].dir, j)
    case Some(i) => i < j && cs[i].dir == cs[j].dir && forall k :: i < k < j ==> cs[k].dir != cs[j].dir
  }

  predicate CallersOk(cs: seq<Caller>) {
    forall j :: 0 <= j < |cs| ==> Linked(cs, j) && (Running(cs[j]) || Released(cs[j]) ==> Turn(cs, j))
  }

  /** The tail, if there is one, is the last caller of its directory; without one all have settled. */
  predicate TailsOk(cs: seq<Caller>, tails: map<string, nat>) {
    && (forall d :: d in tails ==> tails[d] < |cs| && cs[tails[d]].dir == d && forall k :: tails[d] < k < |cs| ==>
          cs[k].dir != d)
    && (forall j :: 0 <= j < |cs| && cs[j].dir !in tails ==> Settled(cs, j))
  }

  /** Within a directory, grants are in arrival order, and a granted caller never waits again. */
  predicate GrantsOk(cs: seq<Caller>, grants: seq<nat>) {
    && (forall k :: 0 <= k < |grants| ==> grants[k] < |cs| && (Running(cs[grants[k]]) || cs[grants[k]].phase == Done))
    && (forall a, b :: 0 <= a < b < |grants| && grants[b] < |cs| && grants[a] < |cs|
          && cs[grants[a]].dir == cs[grants[b]].dir
          ==> grants[a] < grants[b])
  }

  ghost predicate QueueOk(q: Queue) {
    CallersOk(q.callers) && TailsOk(q.callers, q.tails) && GrantsOk(q.callers, q.grants)
  }

  /** A settled promise stays settled when callers advance or join. */
  predicate Advances(cs: seq<Caller>, ds: seq<Caller>) {
    && |cs| <= |ds|
    && forall i :: 0 <= i < |cs| ==>
         ds[i].dir == cs[i].dir && ds[i].previous == cs[i].previous && (Released(cs[i]) ==> Released(ds[i]))
  }

  lemma {:induction false} SettledStays(cs: seq<Caller>, ds: seq<Caller>, i: nat)
    requires Advances(cs, ds) && Settled(cs, i)
    ensures Settled(ds, i)
    decreases i
  {
    if cs[i].previous.Some? { SettledStays(cs, ds, cs[i].previous.value); }
  }

  lemma TurnStays(cs: seq<Caller>, ds: seq<Caller>, i: nat)
    requires Advances(cs, ds) && i < |cs| && Turn(cs, i)
    ensures Turn(ds, i)
  {
    if cs[i].previous.Some? { SettledStays(cs, ds, cs[i].previous.value); }
  }

  lemma LinkedStays(cs: seq<Caller>, ds: seq<Caller>, j: nat)
    requires Advances(cs, ds) && j < |cs| && Linked(cs, j)
    ensures Linked(ds, j)
  {
    if cs[j].previous.None? {
      forall i | 0 <= i < j && ds[i].dir == ds[j].dir ensures Settled(ds, i) { SettledStays(cs, ds, i); }
    }
  }

  lemma SettledHadTurn(cs: seq<Caller>, i: nat)
    requires Settled(cs, i)
    ensures i < |cs| && Turn(cs, i)
  {
  }

  /** Its turn has come only when every earlier caller of the directory has settled. */
  lemma {:induction false} TurnMeansAlone(cs: seq<Caller>, j: nat, i: nat)
    requires CallersOk(cs) && j < |cs| && Turn(cs, j) && i < j && cs[i].dir == cs[j].dir
    ensures Settled(cs, i)
    decreases j
  {
    if cs[j].previous.Some? {
      var p := cs[j].previous.value;
      assert Linked(cs, j);
      if i < p {
        SettledHadTurn(cs, p);
        TurnMeansAlone(cs, p, i);
      }
    } else {
      assert Linked(cs, j);
    }
  }

  lemma JoinCallersOk(cs: seq<Caller>, tails: map<string, nat>, c: Caller)
    requires CallersOk(cs) && TailsOk(cs, tails) && c.phase == Waiting
    requires c.previous == if c.dir in tails then Some(tails[c.dir]) else None
    ensures CallersOk(cs + [c])
  {
    var ds := cs + [c];
    forall j | 0 <= j < |cs| ensures Linked(ds, j) && (Running(ds[j]) || Released(ds[j]) ==> Turn(ds, j)) {
      LinkedStays(cs, ds, j);
      if Turn(cs, j) { TurnStays(cs, ds, j); }
    }
    assert Linked(ds, |cs|) by {
      if c.dir !in tails {
        forall i | 0 <= i < |cs| && cs[i].dir == c.dir ensures Settled(ds, i) { SettledStays(cs, ds, i); }
      }
    }
  }

  lemma JoinTailsOk(cs: seq<Caller>, tails: map<string, nat>, c: Caller)
    requires TailsOk(cs, tails)
    ensures TailsOk(cs + [c], tails[c.dir := |cs|])
  {
    var ds := cs + [c];
    forall j | 0 <= j < |cs| && cs[j].dir !in tails ensures Settled(ds, j) { SettledStays(cs, ds, j); }
  }

  lemma JoinOk(q: Queue, dir: string)
    requires QueueOk(q)
    ensures QueueOk(Join(q, dir))
  {
    var c := Caller(dir, if dir in q.tails then Some(q.tails[dir]) else None, Waiting);
    JoinCallersOk(q.callers, q.tails, c);
    JoinTailsOk(q.callers, q.tails, c);
    GrantsStay(q.callers, q.callers + [c], q.grants);
  }

  /** Advancing the callers keeps the grants in order, as long as no granted caller is set back. */
  lemma GrantsStay(cs: seq<Caller>, ds: seq<Caller>, grants: seq<nat>)
    requires GrantsOk(cs, grants) && Advances(cs, ds)
    requires forall k :: 0 <= k < |cs| && (Running(cs[k]) || cs[k].phase == Done) ==>
              Running(ds[k]) || ds[k].phase == Done
    ensures GrantsOk(ds, grants)
  {
  }

  lemma PhaseCallersOk(q: Queue, i: nat, p: Phase)
    requires QueueOk(q) && i < |q.callers| && !Released(q.callers[i])
    requires p == Granted || p == Inside || p == Freed || p == Done ==> Turn(q.callers, i)
    ensures Advances(q.callers, SetPhase(q, i, p).callers) && CallersOk(SetPhase(q, i, p).callers)
  {
    var cs, ds := q.callers, SetPhase(q, i, p).callers;
    forall j | 0 <= j < |cs| ensures Linked(ds, j) && (Running(ds[j]) || Released(ds[j]) ==> Turn(ds, j)) {
      LinkedStays(cs, ds, j);
      if Turn(cs, j) { TurnStays(cs, ds, j); }
    }
  }

  lemma PhaseTailsOk(cs: seq<Caller>, ds: seq<Caller>, tails: map<string, nat>)
    requires TailsOk(cs, tails) && Advances(cs, ds) && |cs| == |ds|
    ensures TailsOk(ds, tails)
  {
    forall j | 0 <= j < |ds| && ds[j].dir !in tails ensures Settled(ds, j) { SettledStays(cs, ds, j); }
  }

  /** When the last caller of a directory settles, everyone before it has settled. */
  lemma FinishTailsOk(cs: seq<Caller>, tails: map<string, nat>, i: nat)
    requires CallersOk(cs) && TailsOk(cs, tails) && i < |cs| && Released(cs[i]) && cs[i].dir in tails
              && tails[cs[i].dir] == i
    ensures TailsOk(cs, tails - {cs[i].dir})
  {
    forall j | 0 <= j < |cs| && cs[j].dir !in tails - {cs[i].dir} ensures Settled(cs, j) {
      if cs[j].dir == cs[i].dir && j < i { TurnMeansAlone(cs, i, j); }
    }
  }

  lemma FinishOk(q: Queue, i: nat, p: Phase)
    requires QueueOk(q) && i < |q.callers| && !Released(q.callers[i]) && Turn(q.callers, i)
    requires (p == Done && Running(q.callers[i])) || (p == Freed && q.callers[i].phase == GaveUp)
    ensures QueueOk(Finish(q, i, p))
  {
    PhaseCallersOk(q, i, p);
    var ds := SetPhase(q, i, p).callers;
    PhaseTailsOk(q.callers, ds, q.tails);
    GrantsStay(q.callers, ds, q.grants);
    if ds[i].dir in q.tails && q.tails[ds[i].dir] == i { FinishTailsOk(ds, q.tails, i); }
  }

  /** Nobody behind the caller whose turn it is has been granted the slot. */
  lemma GrantIsNext(cs: seq<Caller>, grants: seq<nat>, i: nat, a: nat)
    requires CallersOk(cs) && GrantsOk(cs, grants) && i < |cs| && cs[i].phase == Waiting
    requires a < |grants| && cs[grants[a]].dir == cs[i].dir
    ensures grants[a] < i
  {
    if grants[a] > i { TurnMeansAlone(cs, grants[a], i); }
  }

  lemma GrantAppends(cs: seq<Caller>, ds: seq<Caller>, grants: seq<nat>, i: nat)
    requires GrantsOk(cs, grants) && GrantsOk(ds, grants) && |ds| == |cs| && i < |cs| && Running(ds[i])
    requires forall k :: 0 <= k < |cs| ==> ds[k].dir == cs[k].dir
    requires forall a :: 0 <= a < |grants| && cs[grants[a]].dir == cs[i].dir ==> grants[a] < i
    ensures GrantsOk(ds, grants + [i])
  {
  }

  lemma GrantOk(q: Queue, i: nat)
    requires QueueOk(q) && Enabled(q, Grant(i))
    ensures QueueOk(Step(q, Grant(i)))
  {
    PhaseCallersOk(q, i, Granted);
    var ds := SetPhase(q, i, Granted).callers;
    PhaseTailsOk(q.callers, ds, q.tails);
    GrantsStay(q.callers, ds, q.grants);
    forall a | 0 <= a < |q.grants| && q.callers[q.grants[a]].dir == q.callers[i].dir ensures q.grants[a] < i {
      GrantIsNext(q.callers, q.grants, i, a);
    }
    GrantAppends(q.callers, ds, q.grants, i);
  }

  /** A change of phase that settles nothing. */
  lemma PhaseOk(q: Queue, i: nat, p: Phase)
    requires QueueOk(q) && i < |q.callers|
    requires (p == Inside && q.callers[i].phase == Granted) || (p == GaveUp && q.callers[i].phase == Waiting)
    ensures QueueOk(SetPhase(q, i, p))
  {
    PhaseCallersOk(q, i, p);
    PhaseTailsOk(q.callers, SetPhase(q, i, p).callers, q.tails);
    GrantsStay(q.callers, SetPhase(q, i, p).callers, q.grants);
  }

  lemma StepOk(q: Queue, e: Event)
    requires QueueOk(q)
    ensures QueueOk(Step(q, e))
  {
    if Enabled(q, e) {
      match e
      case Arrive(dir, _) => JoinOk(q, dir);
      case Grant(i) => GrantOk(q, i);
      case Enter(i) => PhaseOk(q, i, Inside);
      case GiveUp(i) => PhaseOk(q, i, GaveUp);
      case Free(i) => FinishOk(q, i, Freed);
      case Complete(i) => FinishOk(q, i, Done);
    }
  }

  lemma {:induction false} RunOk(es: seq<Event>)
    ensures QueueOk(Run(es))
  {
    if es != [] {
      RunOk(es[..|es| - 1]);
      StepOk(Run(es[..|es| - 1]), es[|es| - 1]);
    }
  }

  // ----- the results

  /** In every run, at most one caller per directory holds the slot. */
  lemma MutualExclusion(es: seq<Event>, i: nat, j: nat)
    requires var q := Run(es); i < |q.callers| && j < |q.callers| && q.callers[i].dir == q.callers[j].dir
    requires Running(Run(es).callers[i]) && Running(Run(es).callers[j])
    ensures i == j
  {
    RunOk(es);
    var cs := Run(es).callers;
    if i < j { TurnMeansAlone(cs, j, i); } else if j < i { TurnMeansAlone(cs, i, j); }
  }

  /** In every run, the grants of a directory follow arrival order. A grant finds every earlier
      caller finished or given up and freed, so neither a timed-out waiter nor a removed tail lets a
      later caller pass a running one. */
  lemma GrantsFollowArrival(es: seq<Event>, i: nat)
    requires Enabled(Run(es), Grant(i))
    ensures var q := Run(es);
            && (forall k :: 0 <= k < i && q.callers[k].dir == q.callers[i].dir ==> Released(q.callers[k]))
            && (forall k :: 0 <= k < |q.grants| && q.grants[k] < |q.callers| ==>
                  q.callers[q.grants[k]].dir == q.callers[i].dir ==> q.grants[k] < i)
  {
    RunOk(es);
    var q := Run(es);
    forall k | 0 <= k < i && q.callers[k].dir == q.callers[i].dir ensures Released(q.callers[k]) {
      TurnMeansAlone(q.callers, i, k);
    }
    forall k | 0 <= k < |q.grants| && q.callers[q.grants[k]].dir == q.callers[i].dir ensures q.grants[k] < i {
      GrantIsNext(q.callers, q.grants, i, k);
    }
  }

  /** No grant is lost: as long as some caller of a directory is unsettled, the earliest of them has
      a step, whatever the others do. */
  lemma NeverStuck(es: seq<Event>, i: nat)
    requires var q := Run(es);
             i < |q.callers| && !Settled(q.callers, i) && EarlierSettled(q.callers, q.callers[i].dir, i)
    ensures var q := Run(es); Enabled(q, Grant(i)) || Enabled(q, Free(i)) || Enabled(q, Complete(i))
  {
    RunOk(es);
    EarliestHasTurn(Run(es).callers, i);
  }

  lemma EarliestHasTurn(cs: seq<Caller>, i: nat)
    requires CallersOk(cs) && i < |cs| && EarlierSettled(cs, cs[i].dir, i)
    ensures Turn(cs, i)
  {
    assert Linked(cs, i);
  }

  /** If no step is left but arrivals, every caller has settled. */
  lemma {:induction false} QuietMeansSettled(es: seq<Event>, n: nat)
    requires n <= |Run(es).callers|
    requires forall i :: 0 <= i < n ==>
              !Enabled(Run(es), Grant(i)) && !Enabled(Run(es), Free(i)) && !Enabled(Run(es), Complete(i))
    ensures forall i :: 0 <= i < n ==> Settled(Run(es).callers, i)
  {
    if n > 0 {
      QuietMeansSettled(es, n - 1);
      if !Settled(Run(es).callers, n - 1) { NeverStuck(es, n - 1); }
    }
  }

  function Rank(p: Phase): nat {
    match p
    case Waiting => 4
    case Granted => 3
    case Inside => 2
    case GaveUp => 1
    case _ => 0
  }

  function Work(cs: seq<Caller>): nat {
    if cs == [] then 0 else Work(cs[..|cs| - 1]) + Rank(cs[|cs| - 1].phase)
  }

  lemma {:induction false} WorkShrinks(cs: seq<Caller>, i: nat, c: Caller)
    requires i < |cs| && Rank(c.phase) < Rank(cs[i].phase)
    ensures Work(cs[i := c]) < Work(cs)
  {
    var n := |cs| - 1;
    if i < n {
      assert cs[i := c][..n] == cs[..n][i := c];
      WorkShrinks(cs[..n], i, c);
    } else {
      assert cs[i := c][..n] == cs[..n];
    }
  }

  /** Every step but an arrival uses up work, so without new arrivals the queue runs dry. */
  lemma StepUsesWork(q: Queue, e: Event)
    requires Enabled(q, e) && !e.Arrive?
    ensures Work(Step(q, e).callers) < Work(q.callers)
  {
    var p :=
      if e.Grant? then Granted
      else if e.Enter? then Inside
      else if e.GiveUp? then GaveUp
      else if e.Free? then Freed
      else Done;
    assert Step(q, e).callers == SetPhase(q, e.i, p).callers;
    WorkShrinks(q.callers, e.i, q.callers[e.i].(phase := p));
  }

  /** Why a nested call is refused: whoever queues behind a running transaction waits for it to end. */
  lemma NestedWouldDeadlock(es: seq<Event>, more: seq<Event>, holder: nat)
    requires var q := Run(es); holder < |q.callers| && q.callers[holder].phase == Inside
    requires |Run(es + more).callers| > |Run(es).callers|
    requires Run(es + more).callers[|Run(es).callers|].dir == Run(es).callers[holder].dir
    requires holder < |Run(es + more).callers| && Run(es + more).callers[holder] == Run(es).callers[holder]
    ensures !Running(Run(es + more).callers[|Run(es).callers|])
  {
    RunOk(es + more);
    var cs := Run(es + more).callers;
    var j := |Run(es).callers|;
    if Running(cs[j]) { TurnMeansAlone(cs, j, holder); }
  }

  // ----- the queue object

  /** The tail map and the callers' promises, updated around the awaits. */
  class Transactions {
    var callers: seq<Caller>
    var tails: map<string, nat>
    ghost var grants: seq<nat>

    ghost function View(): Queue
      reads this
    {
      Queue(callers, tails, grants)
    }

    constructor ()
      ensures View() == EMPTY && QueueOk(View())
    {
      callers, tails, grants := [], map[], [];
    }

    /** Queue behind the current tail and become the tail; a nested call is refused. */
    method Begin(dir: string, holder: Option<nat>) returns (place: Option<nat>)
      requires QueueOk(View())
      modifies this
      ensures View() == Step(old(View()), Arrive(dir, holder)) && QueueOk(View())
      ensures place == if Nested(old(View()), dir, holder) then None else Some(old(|callers|))
    {
      StepOk(View(), Arrive(dir, holder));
      if holder.Some? && holder.value < |callers| && callers[holder.value].dir == dir
          && callers[holder.value].phase == Inside {
        return None;
      }
      var previous := if dir in tails then Some(tails[dir]) else None;
      place := Some(|callers|);
      tails := tails[dir := |callers|];
      callers := callers + [Caller(dir, previous, Waiting)];
    }

    /** The wait for the predecessor ended: it settled, or the deadline or the signal came first. */
    method WaitEnded(i: nat, settled: bool)
      requires QueueOk(View()) && i < |callers| && callers[i].phase == Waiting && (settled ==> Turn(callers, i))
      modifies this
      ensures View() == Step(old(View()), if settled then Grant(i) else GiveUp(i)) && QueueOk(View())
    {
      StepOk(View(), if settled then Grant(i) else GiveUp(i));
      callers := callers[i := callers[i].(phase := if settled then Granted else GaveUp)];
      if settled { grants := grants + [i]; }
    }

    method EnterCallback(i: nat)
      requires QueueOk(View()) && i < |callers| && callers[i].phase == Granted
      modifies this
      ensures View() == Step(old(View()), Enter(i)) && QueueOk(View())
    {
      StepOk(View(), Enter(i));
      callers := callers[i := callers[i].(phase := Inside)];
    }

    /** `done`: a finished caller calls it at once, one that gave up once its predecessor settled. */
    method Finished(i: nat)
      requires QueueOk(View()) && i < |callers|
      requires Running(callers[i]) || (callers[i].phase == GaveUp && Turn(callers, i))
      modifies this
      ensures View() == Step(old(View()), if Running(old(callers)[i]) then Complete(i) else Free(i)) && QueueOk(View())
    {
      StepOk(View(), if Running(callers[i]) then Complete(i) else Free(i));
      callers := callers[i := callers[i].(phase := if Running(callers[i]) then Done else Freed)];
      if callers[i].dir in tails && tails[callers[i].dir] == i { tails := tails - {callers[i].dir}; }
    }
  }
}
