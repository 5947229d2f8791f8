/** When a stop can hit a run the server does not have as `running`: never in a run without a harmful
    delivery (`StopOnlyRunning`), and always possibly after one (module `DiskHarm`). */
module DiskSafety {
  import opened Options
  import opened OrderedMap
  import opened DiskGovernor
  import opened DiskRuns

  /** Every run id has its own object. */
  ghost predicate RunsOk(g: Governor) {
    && Distinct(g.runs)
    && (forall a :: Find<nat>(g.runs, a).Some? ==> Find<nat>(g.runs, a).value < |g.objects|)
    && (forall a, b :: Find<nat>(g.runs, a).Some? && Find<nat>(g.runs, a) == Find<nat>(g.runs, b) ==> a == b)
  }

  /** No report or acknowledgement carries the number of an object that does not exist. */
  predicate Born(l: Line, n: nat) {
    && (forall i :: 0 <= i < |l.queue| && l.queue[i].run.Some? ==> l.queue[i].run.value < n)
    && (forall i :: 0 <= i < |l.acks| && l.acks[i].run.Some? ==> l.acks[i].run.value < n)
  }

  /** The unprocessed reports of object `k`: behind everybody else's, in send order, and `running`
      after the last send that was not. */
  predicate QueueOk(q: seq<Report>, k: nat, r: RunState) {
    && (forall i :: 0 <= i < |q| && q[i].run == Some(k) ==>
          q[i].seqNo <= r.sentSeq && (q[i].seqNo > r.lastNonRunningSent ==> q[i].status == Running))
    && (forall i, j :: 0 <= i < j < |q| && q[i].run == Some(k) ==> q[j].run == Some(k) && q[i].seqNo < q[j].seqNo)
  }

  /** The server has the run as `running`, and so it will after every report under way. */
  predicate Steady(l: Line) {
    l.status == Some(Running) && forall i :: 0 <= i < |l.queue| ==> l.queue[i].status == Running
  }

  /** A current `running` acknowledgement of the object's own reports proves the line steady. */
  predicate AcksOk(l: Line, k: nat, r: RunState) {
    forall i :: 0 <= i < |l.acks| && l.acks[i].run == Some(k) ==>
      l.acks[i].seqNo <= r.sentSeq
      && (l.acks[i].status == Some(Running) && l.acks[i].seqNo > r.lastNonRunningSent ==> Steady(l))
  }

  /** A `running` acknowledgement numbered `n` would count although the line does not bear it out:
      it outranks even the next send, or the server has, or will have, the run as something else. */
  predicate Misleading(l: Line, r: RunState, n: nat) {
    n > r.lastNonRunningSent && n > r.lastNonRunningAcked && (n > r.sentSeq + 1 || !Steady(l))
  }

  /** What the object may still be stopped for is borne out by the line. */
  predicate Grounded(l: Line, r: RunState) {
    !r.stopRequested ==> !Misleading(l, r, r.runningAcked)
  }

  /** `sound` adds what only runs without a harmful delivery keep. */
  predicate LineOk(l: Line, k: nat, r: RunState, sound: bool) {
    r.lastNonRunningSent <= r.sentSeq && QueueOk(l.queue, k, r) && AcksOk(l, k, r) && (sound ==> Grounded(l, r))
  }

  predicate RunOk(w: World, id: string, sound: bool) {
    var k := Current(w.g, id);
    k.Some? ==> LineOk(LineOf(w, id), k.value, w.g.objects[k.value], sound)
  }

  ghost predicate WorldOk(w: World, sound: bool) {
    && RunsOk(w.g)
    && (forall id :: Born(LineOf(w, id), |w.g.objects|))
    && (forall id :: RunOk(w, id, sound))
  }

  /** The delivery of a `running` acknowledgement that is news to a run not yet stopped, outranks
      every other status heard of or sent, and misleads. */
  predicate Harmful(w: World, e: Event) {
    && e.Deliver? && e.k < |LineOf(w, e.id).acks| && Current(w.g, e.id).Some?
    && var r := w.g.objects[Current(w.g, e.id).value];
       var a := LineOf(w, e.id).acks[e.k];
       && a.status == Some(Running) && !r.stopRequested && a.seqNo > r.runningAcked
       && Misleading(LineOf(w, e.id), r, a.seqNo)
  }

  predicate HarmlessRun(es: seq<Event>) {
    es == [] || (HarmlessRun(es[..|es| - 1]) && !Harmful(Run(es[..|es| - 1]), es[|es| - 1]))
  }

  /** The part of a registration the argument depends on. */
  predicate SameCore(r: RunState, t: RunState) {
    && r.sentSeq == t.sentSeq && r.lastNonRunningSent == t.lastNonRunningSent && r.runningAcked == t.runningAcked
    && r.lastNonRunningAcked == t.lastNonRunningAcked && (r.stopRequested ==> t.stopRequested)
  }

  lemma CoreKept(l: Line, k: nat, r: RunState, t: RunState, sound: bool)
    requires LineOk(l, k, r, sound) && SameCore(r, t)
    ensures LineOk(l, k, t, sound)
  {
  }

  /** Steps that neither send, process nor deliver leave every line as it was. */
  predicate Quiet(g: Governor, t: Governor) {
    |t.objects| == |g.objects| && forall k :: 0 <= k < |g.objects| ==> SameCore(g.objects[k], t.objects[k])
  }

  lemma QuietOk(w: World, t: World, sound: bool)
    requires WorldOk(w, sound) && Quiet(w.g, t.g) && t.g.runs == w.g.runs && t.lines == w.lines
    ensures WorldOk(t, sound)
  {
    forall id ensures RunOk(t, id, sound) {
      if Current(t.g, id).Some? {
        var k := Current(w.g, id).value;
        assert RunOk(w, id, sound);
        CoreKept(LineOf(w, id), k, w.g.objects[k], t.g.objects[k], sound);
      }
    }
    forall id ensures Born(LineOf(t, id), |t.g.objects|) { assert LineOf(t, id) == LineOf(w, id); }
  }

  lemma ObserveQuiet(g: Governor, over: Option<bool>, sampledAt: int, now: int)
    ensures Quiet(g, Observe(g, over, sampledAt, now)) && Observe(g, over, sampledAt, now).runs == g.runs
  {
    var t := GiveUp(g, now);
    assert t.objects == g.objects && t.runs == g.runs;
  }

  lemma MeasuredQuiet(g: Governor, reading: Option<nat>)
    ensures Quiet(g, Measured(g, reading)) && Measured(g, reading).runs == g.runs
  {
  }

  lemma MeasureQuiet(g: Governor, reading: Option<nat>, now: int)
    ensures Quiet(g, MeasureNext(g, reading, now)) && MeasureNext(g, reading, now).runs == g.runs
  {
    MeasuredQuiet(g, reading);
  }

  lemma QuietStep(w: World, e: Event)
    requires e.Entered? || e.Left? || e.Sampled? || e.MeasuredOne? || e.Reclaimed? || e.BoundaryRead?
    ensures var t := Step(w, e); Quiet(w.g, t.g) && t.g.runs == w.g.runs && t.lines == w.lines
  {
    if e.Sampled? {
      ObserveQuiet(w.g, e.over, e.sampledAt, e.now);
    } else if e.MeasuredOne? {
      MeasureQuiet(w.g, e.reading, e.now);
    }
  }

  lemma SentLineOk(l: Line, k: nat, r: RunState, status: Status, sound: bool)
    requires LineOk(l, k, r, sound)
    ensures LineOk(l.(queue := l.queue + [Report(Some(k), r.sentSeq + 1, status)]), k, Requested(r, status), sound)
  {
    var m := l.(queue := l.queue + [Report(Some(k), r.sentSeq + 1, status)]);
    if status == Running {
      assert Steady(l) ==> Steady(m);
    }
  }

  lemma ProcessedLineOk(l: Line, k: nat, r: RunState, accepted: bool, readable: bool, sound: bool)
    requires LineOk(l, k, r, sound) && l.queue != []
    ensures LineOk(Processed(l, accepted, readable), k, r, sound)
  {
    var m := Processed(l, accepted, readable);
    assert forall i :: 0 <= i < |m.queue| ==> m.queue[i] == l.queue[i + 1];
    assert Steady(l) ==> Steady(m);
    if l.queue[0].run == Some(k) && l.queue[0].seqNo > r.lastNonRunningSent && m.status == Some(Running) {
      assert Steady(m);
    }
  }

  lemma DeliveredLineOk(l: Line, k: nat, r: RunState, a: Ack, sound: bool)
    requires LineOk(l, k, r, sound)
    requires sound && a.status == Some(Running) && !r.stopRequested && a.seqNo > r.runningAcked ==>
              !Misleading(l, r, a.seqNo)
    ensures LineOk(l, k, Acked(r, a.seqNo, a.status), sound)
  {
  }

  lemma NewLineOk(l: Line, k: nat, sound: bool)
    requires Born(l, k)
    ensures LineOk(l, k, NEW_RUN, sound)
  {
  }

  lemma BornGrows(l: Line, n: nat, m: nat)
    requires Born(l, n) && n <= m
    ensures Born(l, m)
  {
  }

  /** The object of one run id is not the object of another. */
  lemma OwnObject(g: Governor, a: string, b: string)
    requires RunsOk(g) && a != b && Current(g, a).Some? && Current(g, b).Some?
    ensures Current(g, a) != Current(g, b)
  {
  }

  /** A step that changes only one registered object and its line. */
  lemma OneLineOk(w: World, id: string, r: RunState, l: Line, sound: bool)
    requires WorldOk(w, sound) && Current(w.g, id).Some?
    requires LineOk(l, Current(w.g, id).value, r, sound) && Born(l, |w.g.objects|)
    ensures WorldOk(w.(g := Update(w.g, Current(w.g, id).value, r), lines := w.lines[id := l]), sound)
  {
    var k := Current(w.g, id).value;
    var t := w.(g := Update(w.g, k, r), lines := w.lines[id := l]);
    forall other ensures RunOk(t, other, sound) {
      if other != id && Current(t.g, other).Some? {
        OwnObject(w.g, id, other);
        assert RunOk(w, other, sound) && LineOf(t, other) == LineOf(w, other);
      }
    }
    forall other ensures Born(LineOf(t, other), |t.g.objects|) {
      if other != id { assert LineOf(t, other) == LineOf(w, other); }
    }
  }

  /** A step on a run that is not registered. */
  lemma UnregisteredLineOk(w: World, id: string, l: Line, sound: bool)
    requires WorldOk(w, sound) && Current(w.g, id).None? && Born(l, |w.g.objects|)
    ensures WorldOk(w.(lines := w.lines[id := l]), sound)
  {
    var t := w.(lines := w.lines[id := l]);
    forall other ensures RunOk(t, other, sound) {
      if other != id { assert RunOk(w, other, sound) && LineOf(t, other) == LineOf(w, other); }
    }
    forall other ensures Born(LineOf(t, other), |t.g.objects|) {
      if other != id { assert LineOf(t, other) == LineOf(w, other); }
    }
  }

  lemma SentStep(w: World, id: string, k: nat, status: Status)
    requires Current(w.g, id) == Some(k)
    ensures var l := LineOf(w, id);
            var r := w.g.objects[k];
            Step(w, Sent(id, status)) == w.(g := Update(w.g, k, Requested(r, status)),
              lines := w.lines[id := l.(queue := l.queue + [Report(Some(k), r.sentSeq + 1, status)])])
  {
  }

  lemma SentRegisteredOk(w: World, id: string, k: nat, status: Status, sound: bool)
    requires WorldOk(w, sound) && Current(w.g, id) == Some(k)
    ensures WorldOk(Step(w, Sent(id, status)), sound)
  {
    assert LineOk(LineOf(w, id), k, w.g.objects[k], sound) && Born(LineOf(w, id), |w.g.objects|) by {
      assert RunOk(w, id, sound);
    }
    SentStep(w, id, k, status);
    SentLineWorld(w, id, k, LineOf(w, id), w.g.objects[k], status, sound);
  }

  lemma SentLineWorld(w: World, id: string, k: nat, l: Line, r: RunState, status: Status, sound: bool)
    requires WorldOk(w, sound) && Current(w.g, id) == Some(k) && LineOk(l, k, r, sound) && Born(l, |w.g.objects|)
    ensures WorldOk(w.(g := Update(w.g, k, Requested(r, status)),
                       lines := w.lines[id := l.(queue := l.queue + [Report(Some(k), r.sentSeq + 1, status)])]), sound)
  {
    var m := l.(queue := l.queue + [Report(Some(k), r.sentSeq + 1, status)]);
    SentBorn(l, Report(Some(k), r.sentSeq + 1, status), |w.g.objects|);
    SentLineOk(l, k, r, status, sound);
    OneLineOk(w, id, Requested(r, status), m, sound);
  }

  lemma SentBorn(l: Line, r: Report, n: nat)
    requires Born(l, n) && (r.run.Some? ==> r.run.value < n)
    ensures Born(l.(queue := l.queue + [r]), n)
  {
  }

  lemma SentOk(w: World, id: string, status: Status, sound: bool)
    requires WorldOk(w, sound)
    ensures WorldOk(Step(w, Sent(id, status)), sound)
  {
    var l := LineOf(w, id);
    if Current(w.g, id).Some? {
      SentRegisteredOk(w, id, Current(w.g, id).value, status, sound);
    } else {
      assert Born(l, |w.g.objects|);
      SentBorn(l, Report(None, 0, status), |w.g.objects|);
      UnregisteredLineOk(w, id, l.(queue := l.queue + [Report(None, 0, status)]), sound);
    }
  }

  lemma ProcessOk(w: World, id: string, accepted: bool, readable: bool, sound: bool)
    requires WorldOk(w, sound)
    ensures WorldOk(Step(w, Process(id, accepted, readable)), sound)
  {
    var l := LineOf(w, id);
    var m := Processed(l, accepted, readable);
    assert Born(m, |w.g.objects|);
    if Current(w.g, id).Some? {
      var k := Current(w.g, id).value;
      assert RunOk(w, id, sound);
      if l.queue != [] { ProcessedLineOk(l, k, w.g.objects[k], accepted, readable, sound); }
      OneLineOk(w, id, w.g.objects[k], m, sound);
      assert Update(w.g, k, w.g.objects[k]) == w.g;
    } else {
      UnregisteredLineOk(w, id, m, sound);
    }
  }

  lemma DeliverOk(w: World, id: string, i: nat, sound: bool)
    requires WorldOk(w, sound) && (sound ==> !Harmful(w, Deliver(id, i)))
    ensures WorldOk(Step(w, Deliver(id, i)), sound)
  {
    var l := LineOf(w, id);
    if i < |l.acks| && Current(w.g, id).Some? {
      var k := Current(w.g, id).value;
      var r := Acked(w.g.objects[k], l.acks[i].seqNo, l.acks[i].status);
      assert RunOk(w, id, sound);
      DeliveredLineOk(l, k, w.g.objects[k], l.acks[i], sound);
      OneLineOk(w, id, r, l, sound);
      var t := w.(g := Update(w.g, k, r), lines := w.lines[id := l]);
      SameLines(t, Step(w, Deliver(id, i)), id, sound);
    }
  }

  /** Writing a line back unchanged makes no difference. */
  lemma SameLines(t: World, u: World, id: string, sound: bool)
    requires WorldOk(t, sound) && u.g == t.g && t.lines == u.lines[id := LineOf(u, id)]
    ensures WorldOk(u, sound)
  {
    forall other ensures LineOf(u, other) == LineOf(t, other) && RunOk(u, other, sound)
        && Born(LineOf(u, other), |u.g.objects|) {
      assert RunOk(t, other, sound) && Born(LineOf(t, other), |t.g.objects|);
    }
  }

  lemma RegisterRunsOk(g: Governor, id: string)
    requires RunsOk(g)
    ensures RunsOk(Register(g, id))
    ensures forall other :: Find<nat>(Register(g, id).runs, other) == if other == id then Some(|g.objects|)
              else Find<nat>(g.runs, other)
  {
    PutIds<nat>(g.runs, id, |g.objects|);
    forall other ensures Find<nat>(Register(g, id).runs, other) == if other == id then Some(|g.objects|)
        else Find<nat>(g.runs, other) {
      PutFinds<nat>(g.runs, id, |g.objects|, other);
    }
  }

  lemma RegisterOk(w: World, id: string, sound: bool)
    requires WorldOk(w, sound)
    ensures WorldOk(Step(w, DiskRuns.Registered(id)), sound)
  {
    var t := Step(w, DiskRuns.Registered(id));
    RegisterRunsOk(w.g, id);
    forall other ensures Born(LineOf(t, other), |t.g.objects|) {
      assert LineOf(t, other) == LineOf(w, other);
      BornGrows(LineOf(w, other), |w.g.objects|, |t.g.objects|);
    }
    forall other ensures RunOk(t, other, sound) {
      assert LineOf(t, other) == LineOf(w, other);
      if other == id {
        NewLineOk(LineOf(w, id), |w.g.objects|, sound);
      } else {
        assert Current(t.g, other) == Current(w.g, other) && RunOk(w, other, sound);
      }
    }
  }

  lemma UnregisterRunsOk(g: Governor, id: string)
    requires RunsOk(g)
    ensures RunsOk(g.(runs := Drop<nat>(g.runs, id)))
    ensures forall other :: Find<nat>(Drop<nat>(g.runs, id), other) == if other == id then None
              else Find<nat>(g.runs, other)
  {
    DropIds<nat>(g.runs, id);
    forall other ensures Find<nat>(Drop<nat>(g.runs, id), other) == if other == id then None
        else Find<nat>(g.runs, other) {
      DropFinds<nat>(g.runs, id, other);
    }
  }

  lemma UnregisterOk(w: World, id: string, now: int, sound: bool)
    requires WorldOk(w, sound)
    ensures WorldOk(Step(w, Unregistered(id, now)), sound)
  {
    var t := Step(w, Unregistered(id, now));
    if Find<nat>(w.g.runs, id).Some? {
      UnregisterRunsOk(w.g, id);
      assert t.g.runs == Drop<nat>(w.g.runs, id) && t.g.objects == w.g.objects;
      FewerRunsOk(w, t, sound);
    }
  }

  lemma FewerRunsOk(w: World, t: World, sound: bool)
    requires WorldOk(w, sound) && t.lines == w.lines && t.g.objects == w.g.objects && RunsOk(t.g)
    requires forall id :: Find<nat>(t.g.runs, id).Some? ==> Find<nat>(t.g.runs, id) == Find<nat>(w.g.runs, id)
    ensures WorldOk(t, sound)
  {
    forall id ensures LineOf(t, id) == LineOf(w, id) && Born(LineOf(t, id), |t.g.objects|) { }
    forall id ensures RunOk(t, id, sound) {
      assert RunOk(w, id, sound);
      if Current(t.g, id).Some? { assert Current(t.g, id) == Current(w.g, id); }
    }
  }

  lemma StepWorldOk(w: World, e: Event, sound: bool)
    requires WorldOk(w, sound) && (sound ==> !Harmful(w, e))
    ensures WorldOk(Step(w, e), sound)
  {
    match e
    case Registered(id) => RegisterOk(w, id, sound);
    case Sent(id, status) => SentOk(w, id, status, sound);
    case Process(id, accepted, readable) => ProcessOk(w, id, accepted, readable, sound);
    case Deliver(id, k) => DeliverOk(w, id, k, sound);
    case Unregistered(id, now) => UnregisterOk(w, id, now, sound);
    case _ =>
      QuietStep(w, e);
      QuietOk(w, Step(w, e), sound);
  }

  lemma {:induction false} RunWorldOk(es: seq<Event>, sound: bool)
    requires sound ==> HarmlessRun(es)
    ensures WorldOk(Run(es), sound)
  {
    if es != [] {
      RunLast(es);
      RunWorldOk(es[..|es| - 1], sound);
      StepWorldOk(Run(es[..|es| - 1]), es[|es| - 1], sound);
    }
  }

  /** In every run, an acknowledgement that reaches the registration which sent the report is harmless. */
  lemma OwnAckIsHarmless(es: seq<Event>, id: string, k: nat)
    requires k < |LineOf(Run(es), id).acks| && LineOf(Run(es), id).acks[k].run == Current(Run(es).g, id)
    ensures !Harmful(Run(es), Deliver(id, k))
  {
    RunWorldOk(es, false);
    assert RunOk(Run(es), id, false);
  }

  lemma ParkableSteady(w: World, id: string)
    requires WorldOk(w, true) && Current(w.g, id).Some?
    requires Parkable(w.g.objects[Current(w.g, id).value]) && !w.g.objects[Current(w.g, id).value].stopRequested
    ensures Steady(LineOf(w, id))
  {
    assert RunOk(w, id, true);
  }

  /** In every run without a harmful delivery, a parkable run that may still be stopped is `running`
      at the server, now and after everything already sent. */
  lemma ParkableIsRunning(es: seq<Event>, id: string)
    requires HarmlessRun(es) && Current(Run(es).g, id).Some?
    requires var r := Run(es).g.objects[Current(Run(es).g, id).value]; Parkable(r) && !r.stopRequested
    ensures Steady(LineOf(Run(es), id))
  {
    RunWorldOk(es, true);
    ParkableSteady(Run(es), id);
  }

  /** The next reading makes the governor stop a run the server does not have as `running`. */
  predicate WrongfulStop(w: World, reading: Option<nat>) {
    Stops(w.g, reading) && LineOf(w, Chosen(Measured(w.g, reading)).value.0).status != Some(Running)
  }

  /** In every run without a harmful delivery, however acknowledgements are delayed, reordered,
      repeated, lost or left over from earlier registrations, a stop is requested only of a run
      the server has as `running`. */
  lemma StopOnlyRunning(es: seq<Event>, reading: Option<nat>)
    requires HarmlessRun(es)
    ensures !WrongfulStop(Run(es), reading)
  {
    var w := Run(es);
    if Stops(w.g, reading) {
      RunWorldOk(es, true);
      var t := w.(g := Measured(w.g, reading));
      MeasuredQuiet(w.g, reading);
      QuietOk(w, t, true);
      ParkableSteady(t, Chosen(t.g).value.0);
      assert LineOf(t, Chosen(t.g).value.0) == LineOf(w, Chosen(t.g).value.0);
    }
  }
}
