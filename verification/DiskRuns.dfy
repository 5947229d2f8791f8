/** Runs of the disk governor against a server that processes each run's reports in order, while
    acknowledgements may be delayed, reordered, repeated or lost. */
module DiskRuns {
  import opened Folds
  import opened Options
  import opened DiskGovernor

  /** A report on its way; `run` is the registration that numbered it, if there was one. */
  datatype Report = Report(run: Option<nat>, seqNo: nat, status: Status)

  datatype Ack = Ack(run: Option<nat>, seqNo: nat, status: Option<Status>)

  /** One run as the server sees it: unprocessed reports, its worker-driven status, and the
      acknowledgements it has sent. */
  datatype Line = Line(queue: seq<Report>, status: Option<Status>, acks: seq<Ack>)

  datatype Stop = Stop(id: string, run: nat, sampledAt: int)

  datatype World = World(g: Governor, lines: map<string, Line>, stops: seq<Stop>, releases: seq<int>)

  const START := World(IDLE, map[], [], [])

  /** `Process`: the server takes the next report of a run; `accepted` says it applies the status,
      `readable` that the acknowledgement can be read. */
  datatype Event =
    | Registered(id: string)
    | Entered(id: string)
    | Sent(id: string, status: Status)
    | Process(id: string, accepted: bool, readable: bool)
    | Deliver(id: string, k: nat)
    | Unregistered(id: string, now: int)
    | Left(id: string, diskParked: bool, now: int)
    | Sampled(over: Option<bool>, sampledAt: int, now: int)
    | MeasuredOne(reading: Option<nat>, now: int)
    | Reclaimed(left: Option<nat>, now: int)
    | BoundaryRead(run: nat, bytes: nat)

  function LineOf(w: World, id: string): Line {
    if id in w.lines then w.lines[id] else Line([], None, [])
  }

  /** The report the runner sends: numbered by the current registration. */
  function Outgoing(g: Governor, id: string, status: Status): Report {
    var k := Current(g, id);
    if k.None? then Report(None, 0, status) else Report(k, g.objects[k.value].sentSeq + 1, status)
  }

  function Processed(l: Line, accepted: bool, readable: bool): Line {
    if l.queue == [] then l
    else
      var r := l.queue[0];
      var status := if accepted then Some(r.status) else l.status;
      Line(l.queue[1..], status, l.acks + [Ack(r.run, r.seqNo, if readable then status else None)])
  }

  /** The selection's last measurement stops a run. */
  predicate Stops(g: Governor, reading: Option<nat>) {
    var t := Measured(g, reading);
    Chosen(t).Some? && WillStop(t, Chosen(t).value)
  }

  /** The stop slot was given free at `now`. */
  function Releases(g: Governor, t: Governor, releases: seq<int>, now: int): seq<int> {
    if g.slots.stopping.Some? && t.slots.stopping.None? then releases + [now] else releases
  }

  function StopsAfter(g: Governor, stops: seq<Stop>, reading: Option<nat>): seq<Stop> {
    if !Stops(g, reading) then stops
    else var c := Chosen(Measured(g, reading)).value; stops + [Stop(c.0, c.1, g.selection.sampledAt)]
  }

  function Step(w: World, e: Event): World {
    match e
    case Registered(id) => w.(g := Register(w.g, id))
    case Entered(id) => w.(g := EnterRun(w.g, id))
    case Sent(id, status) =>
      var l := LineOf(w, id);
      w.(g := StatusRequested(w.g, id, status), lines :=
          w.lines[id := l.(queue := l.queue + [Outgoing(w.g, id, status)])])
    case Process(id, accepted, readable) => w.(lines := w.lines[id := Processed(LineOf(w, id), accepted, readable)])
    case Deliver(id, k) =>
      if k >= |LineOf(w, id).acks| then w
      else var a := LineOf(w, id).acks[k]; w.(g := StatusAcked(w.g, id, a.seqNo, a.status))
    case Unregistered(id, now) =>
      var t := Unregister(w.g, id, now); w.(g := t, releases := Releases(w.g, t, w.releases, now))
    case Left(id, diskParked, now) =>
      var t := LeftLoop(w.g, id, diskParked, now); w.(g := t, releases := Releases(w.g, t, w.releases, now))
    case Sampled(over, sampledAt, now) =>
      var t := Observe(w.g, over, sampledAt, now); w.(g := t, releases := Releases(w.g, t, w.releases, now))
    case MeasuredOne(reading, now) =>
      w.(g := MeasureNext(w.g, reading, now), stops := StopsAfter(w.g, w.stops, reading))
    case Reclaimed(left, now) => w.(g := ReclaimEnded(w.g, left, now))
    case BoundaryRead(run, bytes) => w.(g := BoundaryReads(w.g, run, bytes))
  }

  function Run(es: seq<Event>): World {
    Fold(Step, START, es)
  }

  lemma RunNext(es: seq<Event>, e: Event)
    ensures Run(es + [e]) == Step(Run(es), e)
  {
    FoldNext(Step, START, es, e);
  }

  lemma RunLast(es: seq<Event>)
    requires es != []
    ensures Run(es) == Step(Run(es[..|es| - 1]), es[|es| - 1])
  {
    assert es == es[..|es| - 1] + [es[|es| - 1]];
    RunNext(es[..|es| - 1], es[|es| - 1]);
  }

  // ----- one stop at a time

  predicate SlotsOk(w: World) {
    && |w.stops| == |w.releases| + (if w.g.slots.stopping.Some? then 1 else 0)
    && w.g.slots.lastStopEnded == (if w.releases == [] then None else Some(w.releases[|w.releases| - 1]))
    && (!w.g.selection.NotSelecting? ==> w.g.slots.stopping.None?)
    && (w.g.selection.Measuring? && w.releases != [] ==> w.g.selection.sampledAt >= w.releases[|w.releases| - 1])
  }

  /** Each later stop was decided on a sample taken no earlier than the release before it. */
  predicate StopsFresh(stops: seq<Stop>, releases: seq<int>) {
    forall k :: 0 < k < |stops| && k - 1 < |releases| ==> stops[k].sampledAt >= releases[k - 1]
  }

  lemma MeasureSlots(w: World, reading: Option<nat>, now: int)
    requires SlotsOk(w) && StopsFresh(w.stops, w.releases)
    ensures var t := Step(w, MeasuredOne(reading, now)); SlotsOk(t) && StopsFresh(t.stops, t.releases)
  {
    var t := Step(w, MeasuredOne(reading, now));
    if Stops(w.g, reading) {
      assert |t.stops| == |w.stops| + 1 && t.g.slots.stopping.Some?;
    } else {
      assert t.stops == w.stops && t.g.slots.stopping == w.g.slots.stopping;
    }
  }

  lemma StepSlots(w: World, e: Event)
    requires SlotsOk(w) && StopsFresh(w.stops, w.releases)
    ensures SlotsOk(Step(w, e)) && StopsFresh(Step(w, e).stops, Step(w, e).releases)
  {
    if e.MeasuredOne? { MeasureSlots(w, e.reading, e.now); }
  }

  /** In every run at most one stop is outstanding, and a stop after another needs that one released
      and a sample taken no earlier than the release. */
  lemma {:induction false} StopsAreSerial(es: seq<Event>)
    ensures var w := Run(es);
            && SlotsOk(w) && StopsFresh(w.stops, w.releases)
            && |w.releases| <= |w.stops| <= |w.releases| + 1
  {
    if es != [] {
      RunLast(es);
      StopsAreSerial(es[..|es| - 1]);
      StepSlots(Run(es[..|es| - 1]), es[|es| - 1]);
    }
  }
}
