/** The governor object. Its methods take the machine's steps, with the source's loops where it has
    loops, and every method keeps what the runs of the machine keep: one stop at a time, fresh
    samples, no registration stopped twice and, until a reading upsets it, the right pick. */
module DiskObject {
  import opened Options
  import opened OrderedMap
  import opened DiskGovernor
  import opened DiskRuns
  import opened DiskSafety
  import opened DiskPick

  ghost predicate WellRun(w: World) {
    RunsOk(w.g) && Shaped(w.g) && Unfinished(w.g) && SlotsOk(w) && StopsFresh(w.stops, w.releases) && StoppedOnce(w)
  }

  lemma StartWellRun(w: World)
    requires w == START
    ensures WellRun(w)
  {
  }

  lemma StepWellRun(w: World, e: Event)
    requires WellRun(w)
    ensures WellRun(Step(w, e))
  {
    StepRunsOk(w, e);
    StepShaped(w, e);
    StepSlots(w, e);
    StepStoppedOnce(w, e);
  }

  /** Latches, slots and the selection are all the invariant looks at. */
  lemma SameStanding(w: World, t: World)
    requires WellRun(w) && t == w.(g := w.g.(objects := t.g.objects)) && |t.g.objects| == |w.g.objects|
    requires forall k :: 0 <= k < |w.g.objects| ==> t.g.objects[k].stopRequested == w.g.objects[k].stopRequested
    ensures WellRun(t)
  {
    assert RunsOk(t.g);
    assert SlotsOk(t);
    assert StoppedOnce(t);
  }

  /** The pick depends on the selection and the bytes alone. */
  lemma SamePick(g: Governor, t: Governor)
    requires PickOk(g) && t.selection == g.selection && Shaped(g) && |t.objects| >= |g.objects|
    requires forall k :: 0 <= k < |g.objects| ==> t.objects[k].cacheBytes == g.objects[k].cacheBytes
    ensures PickOk(t)
  {
    assert forall k :: 0 <= k < |g.objects| ==> Bytes(t.objects, k) == Bytes(g.objects, k);
  }

  lemma UpdateWellRun(w: World, k: nat, r: RunState)
    requires WellRun(w) && k < |w.g.objects|
    requires r.stopRequested == w.g.objects[k].stopRequested
    ensures WellRun(w.(g := Update(w.g, k, r)))
  {
    SameStanding(w, w.(g := Update(w.g, k, r)));
  }

  lemma RegisterWellRun(w: World, id: string)
    requires WellRun(w)
    ensures WellRun(w.(g := DiskGovernor.Register(w.g, id)))
  {
    StepWellRun(w, DiskRuns.Registered(id));
  }

  lemma RegisterCurrent(g: Governor, id: string)
    requires RunsOk(g)
    ensures var t := DiskGovernor.Register(g, id);
            Current(t, id) == Some(|g.objects|) && OthersKept(g, t, id)
  {
    RegisterRunsOk(g, id);
  }

  lemma UnregisterWellRun(w: World, id: string, now: int)
    requires WellRun(w)
    ensures var t := DiskGovernor.Unregister(w.g, id, now);
            WellRun(w.(g := t, releases := Releases(w.g, t, w.releases, now)))
  {
    UnregisteredIs(w, id, now);
    StepWellRun(w, Unregistered(id, now));
  }

  lemma UnregisteredIs(w: World, id: string, now: int)
    ensures var g := DiskGovernor.Unregister(w.g, id, now);
            Step(w, Unregistered(id, now)) == w.(g := g, releases := Releases(w.g, g, w.releases, now))
  {
  }

  lemma LeftIs(w: World, id: string, diskParked: bool, now: int)
    ensures var g := DiskGovernor.LeftLoop(w.g, id, diskParked, now);
            Step(w, Left(id, diskParked, now)) == w.(g := g, releases := Releases(w.g, g, w.releases, now))
  {
  }

  lemma LeftWellRun(w: World, id: string, diskParked: bool, now: int)
    requires WellRun(w)
    ensures var t := DiskGovernor.LeftLoop(w.g, id, diskParked, now);
            WellRun(w.(g := t, releases := Releases(w.g, t, w.releases, now)))
  {
    LeftIs(w, id, diskParked, now);
    StepWellRun(w, Left(id, diskParked, now));
  }

  lemma ObserveWellRun(w: World, over: Option<bool>, sampledAt: int, now: int)
    requires WellRun(w)
    ensures var t := DiskGovernor.Observe(w.g, over, sampledAt, now);
            WellRun(w.(g := t, releases := Releases(w.g, t, w.releases, now)))
  {
    var e := Sampled(over, sampledAt, now);
    StepWellRun(w, e);
    var t := Step(w, e);
    SampledIs(w, over, sampledAt, now);
    assert t == w.(g := t.g, releases := t.releases);
  }

  lemma SampledIs(w: World, over: Option<bool>, sampledAt: int, now: int)
    ensures var g := DiskGovernor.Observe(w.g, over, sampledAt, now);
            Step(w, Sampled(over, sampledAt, now)) == w.(g := g, releases := Releases(w.g, g, w.releases, now))
  {
  }

  lemma MeasuredIs(w: World, reading: Option<nat>, now: int)
    ensures Step(w, MeasuredOne(reading, now))
            == w.(g := DiskGovernor.MeasureNext(w.g, reading, now), stops := StopsAfter(w.g, w.stops, reading))
  {
  }

  lemma MeasureWellRun(w: World, reading: Option<nat>, now: int)
    requires WellRun(w)
    ensures WellRun(w.(g := DiskGovernor.MeasureNext(w.g, reading, now), stops := StopsAfter(w.g, w.stops, reading)))
  {
    MeasuredIs(w, reading, now);
    StepWellRun(w, MeasuredOne(reading, now));
  }

  lemma ReclaimWellRun(w: World, left: Option<nat>, now: int)
    requires WellRun(w)
    ensures WellRun(w.(g := DiskGovernor.ReclaimEnded(w.g, left, now)))
  {
    StepWellRun(w, Reclaimed(left, now));
  }

  /** With this acknowledgement one that counts has arrived. */
  ghost predicate CountsNow(r: RunState, number: nat, status: Option<Status>) {
    r.inExecutor && r.sentStatus == Some(Running) && exists n: nat :: Counts(r, [(number, status)], n)
  }

  lemma AckOne(r: RunState, number: nat, status: Option<Status>)
    ensures Parkable(Acked(r, number, status)) <==> CountsNow(r, number, status)
  {
    assert [(number, status)][..0] == [];
    assert AckAll(r, [(number, status)]) == Acked(r, number, status);
    ParkableExactly(r, [(number, status)]);
  }

  /** Every other run id still has its object. */
  ghost predicate OthersKept(g: Governor, t: Governor, id: string) {
    forall other :: other != id ==> Current(t, other) == Current(g, other)
  }

  /** Everything but the object of one run is as it was, and so are all bytes: the pick stays right. */
  predicate OnlyRun(g: Governor, t: Governor, id: string) {
    && t.runs == g.runs && t.selection == g.selection && |t.objects| == |g.objects|
    && forall k :: 0 <= k < |g.objects| ==>
         t.objects[k] == g.objects[k]
         || (Current(g, id) == Some(k) && t.objects[k].cacheBytes == g.objects[k].cacheBytes)
  }

  /** Such an operation never upsets a selection. */
  lemma OnlyRunKeepsPick(g: Governor, t: Governor, id: string)
    requires Shaped(g) && PickOk(g) && OnlyRun(g, t, id)
    ensures PickOk(t)
  {
    SamePick(g, t);
  }

  /** What a selection has led to once it is over: at most one stop, of a candidate, and if nothing has
      upset it the run stopped or reclaimed is the first of the candidates with the most bytes. */
  ghost predicate Acted(was: Selection, objects: seq<RunState>, before: seq<Stop>, stops: seq<Stop>, now: Selection,
                        sound: bool)
    requires was.Measuring?
  {
    var cs := was.candidates;
    && (stops != before || now.Reclaiming? ==>
          exists p :: 0 <= p < |cs| && (sound ==> FirstLargest(objects, cs, |cs|, Some(p)))
                      && (stops != before ==> stops == before + [Stop(cs[p].0, cs[p].1, was.sampledAt)])
                      && (now.Reclaiming? ==> now == Reclaiming(cs[p].0, cs[p].1) && stops == before))
  }

  /** A selection over exactly the runs that may be acted on, with the stop slot free, on a sample no
      older than the last release and the last reclaim. */
  ghost predicate Started(g: Governor, sampledAt: int) {
    && g.slots.stopping.None? && Fresh(g.slots.lastStopEnded, sampledAt) && Fresh(g.slots.lastReclaimEnded, sampledAt)
    && g.selection.Measuring? && g.selection == Measuring(g.selection.candidates, 0, None, sampledAt)
    && forall c :: c in g.selection.candidates <==>
         c in g.runs && c.1 < |g.objects| && !g.objects[c.1].stopRequested && !g.objects[c.1].skipped
  }

  /** The selection stays as it was and a right pick right, or a selection starts, with no wrong pick. */
  ghost predicate StartsOrStays(g: Governor, t: Governor, sampledAt: int) {
    if t.selection == g.selection then PickOk(g) ==> PickOk(t)
    else g.selection.NotSelecting? && Started(t, sampledAt) && PickOk(t)
  }

  lemma StartsWell(g: Governor, over: Option<bool>, sampledAt: int, now: int)
    requires Shaped(g)
    ensures StartsOrStays(g, DiskGovernor.Observe(g, over, sampledAt, now), sampledAt)
  {
    var t := DiskGovernor.Observe(g, over, sampledAt, now);
    var u := GiveUp(g, now);
    SampledPick(g, over, sampledAt, now);
    if t.selection != g.selection {
      forall c
        ensures c in t.selection.candidates <==>
                c in t.runs && c.1 < |t.objects| && !t.objects[c.1].stopRequested && !t.objects[c.1].skipped
      {
        CandidatesExactly(u.objects, u.runs, c);
      }
    }
  }

  lemma MeasureActs(w: World, reading: Option<nat>, now: int, sound: bool)
    requires Shaped(w.g) && w.g.selection.Measuring? && w.g.selection.at < |w.g.selection.candidates|
    requires sound ==> PickOk(w.g)
    ensures var t := w.(g := DiskGovernor.MeasureNext(w.g, reading, now), stops := StopsAfter(w.g, w.stops, reading));
            && Acted(w.g.selection, t.g.objects, w.stops, t.stops, t.g.selection, sound)
            && (t.g.selection.Measuring? ==>
                  && t.g.selection.at == w.g.selection.at + 1 < |w.g.selection.candidates|
                  && t.g.selection.candidates == w.g.selection.candidates
                  && t.g.selection.sampledAt == w.g.selection.sampledAt && t.stops == w.stops)
  {
    MeasuredShaped(w.g, reading);
    if sound { MeasuredPick(w.g, reading); }
    var u := Measured(w.g, reading);
    var t := w.(g := DiskGovernor.MeasureNext(w.g, reading, now));
    if !t.g.selection.Measuring? && u.selection.pick.Some? {
      var cs, p := u.selection.candidates, u.selection.pick.value;
      assert 0 <= p < |cs| && cs[p] == Chosen(u).value;
      if sound {
        assert FirstLargest(u.objects, cs, |cs|, Some(p));
        SameLargest(u.objects, t.g.objects, cs, p);
      }
    }
  }

  /** The measurements of one selection, one step of the machine after the other. */
  function MeasureAll(g: Governor, reading: nat -> Option<nat>, now: int): Governor
    decreases if g.selection.Measuring? && g.selection.at < |g.selection.candidates|
              then |g.selection.candidates| - g.selection.at else 0
  {
    if !g.selection.Measuring? || g.selection.at >= |g.selection.candidates| then g
    else MeasureAll(DiskGovernor.MeasureNext(g, reading(g.selection.at), now), reading, now)
  }

  lemma BoundaryDecides(g: Governor, k: nat, bytes: nat)
    requires Shaped(g)
    ensures PickOk(g) ==> (PickOk(BoundaryReads(g, k, bytes)) <==> !Upsetting(g, BoundaryRead(k, bytes)))
  {
    if Upsetting(g, BoundaryRead(k, bytes)) {
      var j :| 0 <= j < g.selection.at && g.selection.candidates[j].1 == k && Upsets(g, j, bytes);
      UpsetIsWrong(g, j, bytes);
    } else if PickOk(g) {
      OtherIsRight(g, k, bytes);
    }
  }

  lemma ObservedWell(w: World, t: World, over: Option<bool>, sampledAt: int, now: int)
    requires WellRun(w) && t == w.(g := t.g, releases := Releases(w.g, t.g, w.releases, now))
    requires t.g == DiskGovernor.Observe(w.g, over, sampledAt, now)
    ensures WellRun(t) && StartsOrStays(w.g, t.g, sampledAt)
  {
    ObserveWellRun(w, over, sampledAt, now);
    StartsWell(w.g, over, sampledAt, now);
  }

  lemma MeasuredWell(w: World, t: World, reading: Option<nat>, now: int)
    requires WellRun(w) && w.g.selection.Measuring?
    requires t == w.(g := t.g, stops := StopsAfter(w.g, w.stops, reading))
    requires t.g == DiskGovernor.MeasureNext(w.g, reading, now)
    ensures WellRun(t) && (PickOk(w.g) ==> PickOk(t.g))
    ensures Acted(w.g.selection, t.g.objects, w.stops, t.stops, t.g.selection, PickOk(w.g))
  {
    MeasureWellRun(w, reading, now);
    MeasureActs(w, reading, now, PickOk(w.g));
    MeasureShaped(w.g, reading, now);
  }

  lemma SameLargest(objects: seq<RunState>, after: seq<RunState>, cs: seq<Candidate>, p: nat)
    requires FirstLargest(objects, cs, |cs|, Some(p))
    requires forall k: nat :: Bytes(after, k) == Bytes(objects, k)
    ensures FirstLargest(after, cs, |cs|, Some(p))
  {
  }

  lemma UnskipNext(objects: seq<RunState>, runs: seq<Candidate>, i: nat)
    requires i < |runs|
    ensures var front := Unskip(objects, runs[..i]);
            var k := runs[i].1;
            Unskip(objects, runs[..i + 1])
            == if k < |objects| then front[k := front[k].(skipped := false)] else front
  {
    var k := runs[i].1;
    assert forall j :: Held(runs[..i + 1], j) <==> Held(runs[..i], j) || j == k by {
      forall j ensures Held(runs[..i + 1], j) <==> Held(runs[..i], j) || j == k {
        if Held(runs[..i], j) {
          var a :| 0 <= a < i && runs[..i][a].1 == j;
          assert runs[..i + 1][a].1 == j;
        } else if j == k {
          assert runs[..i + 1][i].1 == j;
        }
      }
    }
  }

  class DiskGovernorObject {
    var objects: seq<RunState>
    var runs: seq<Candidate>
    var slots: Slots
    var selection: Selection
    ghost var stops: seq<Stop>
    ghost var releases: seq<int>
    ghost function Value(): Governor
      reads this
    {
      Governor(objects, runs, slots, selection)
    }

    ghost function View(): World
      reads this
    {
      World(Value(), map[], stops, releases)
    }

    ghost predicate Valid()
      reads this
    {
      WellRun(View())
    }

    constructor ()
      ensures Valid() && View() == START
    {
      objects, runs, slots, selection := [], [], Slots(None, 0, None, None, None), NotSelecting;
      stops, releases := [], [];
      new;
      StartWellRun(View());
    }

    method Register(id: string)
      requires Valid()
      modifies this`objects, this`runs
      ensures Valid() && Value() == DiskGovernor.Register(old(Value()), id)
      ensures Current(Value(), id) == Some(|old(objects)|) && !Parkable(objects[|old(objects)|])
      ensures old(objects) <= objects
      ensures OthersKept(old(Value()), Value(), id)
    {
      ghost var was := View();
      RegisterWellRun(was, id);
      RegisterCurrent(was.g, id);
      runs := Put<nat>(runs, id, |objects|);
      objects := objects + [NEW_RUN];
      assert Value() == DiskGovernor.Register(was.g, id);
    }

    method Get(id: string) returns (k: Option<nat>)
      ensures k == Current(Value(), id)
    {
      k := Find<nat>(runs, id);
      if k.Some? && k.value >= |objects| { k := None; }
    }

    method EnterRun(id: string)
      requires Valid()
      modifies this`objects
      ensures Valid() && Value() == DiskGovernor.EnterRun(old(Value()), id) && OnlyRun(old(Value()), Value(), id)
      ensures var k := Current(Value(), id);
              k.Some? && !objects[k.value].stopRequested ==> (id, k.value) in Candidates(objects, runs)
    {
      var k := Get(id);
      if k.None? { return; }
      var r := objects[k.value].(inExecutor := true, skipped := false);
      UpdateWellRun(View(), k.value, r);
      objects := objects[k.value := r];
      CandidatesExactly(objects, runs, (id, k.value));
    }

    /** The number of the send, or 0 for a run that is not registered. */
    method StatusRequested(id: string, status: Status) returns (number: nat)
      requires Valid()
      modifies this`objects
      ensures Valid() && Value() == DiskGovernor.StatusRequested(old(Value()), id, status)
      ensures OnlyRun(old(Value()), Value(), id)
      ensures number == Outgoing(old(Value()), id, status).seqNo
    {
      var k := Get(id);
      if k.None? { return 0; }
      var r := objects[k.value];
      if r.sentStatus != Some(status) { r := r.(skipped := false); }
      r := r.(sentStatus := Some(status), sentSeq := r.sentSeq + 1);
      if status != Running { r := r.(lastNonRunningSent := r.sentSeq); }
      UpdateWellRun(View(), k.value, r);
      objects := objects[k.value := r];
      number := r.sentSeq;
    }

    method StatusAcked(id: string, number: nat, status: Option<Status>)
      requires Valid()
      modifies this`objects
      ensures Valid() && Value() == DiskGovernor.StatusAcked(old(Value()), id, number, status)
      ensures OnlyRun(old(Value()), Value(), id)
      ensures var k := Current(Value(), id);
              k.Some? ==> (Parkable(objects[k.value]) <==> CountsNow(old(objects)[k.value], number, status))
    {
      var k := Get(id);
      if k.None? { return; }
      AckOne(objects[k.value], number, status);
      var r := objects[k.value];
      if status != Some(Running) {
        if number > r.lastNonRunningAcked { r := r.(lastNonRunningAcked := number); }
      } else if number > r.runningAcked {
        r := r.(runningAcked := number);
        if Parkable(r) { r := r.(skipped := false); }
      }
      UpdateWellRun(View(), k.value, r);
      objects := objects[k.value := r];
    }

    method ReleaseStop(now: int)
      modifies this`slots, this`releases
      ensures Value() == DiskGovernor.ReleaseStop(old(Value()), now)
      ensures releases == Releases(old(Value()), Value(), old(releases), now)
    {
      if slots.stopping.Some? { releases := releases + [now]; }
      slots := slots.(stopping := None, lastStopEnded := Some(now));
    }

    method Unregister(id: string, now: int)
      requires Valid()
      modifies this`runs, this`slots, this`releases
      ensures Valid() && Value() == DiskGovernor.Unregister(old(Value()), id, now)
      ensures releases == Releases(old(Value()), Value(), old(releases), now)
      ensures Current(Value(), id).None? && (Find<nat>(old(runs), id).Some? ==> slots.stopping != Some(id))
      ensures OthersKept(old(Value()), Value(), id)
    {
      UnregisterWellRun(View(), id, now);
      UnregisterRunsOk(Value(), id);
      if Find<nat>(runs, id).None? { return; }
      runs := Drop<nat>(runs, id);
      if slots.stopping == Some(id) { ReleaseStop(now); }
    }

    method LeftLoop(id: string, diskParked: bool, now: int)
      requires Valid()
      modifies this`objects, this`slots, this`releases
      ensures Valid() && Value() == DiskGovernor.LeftLoop(old(Value()), id, diskParked, now)
      ensures releases == Releases(old(Value()), Value(), old(releases), now) && OnlyRun(old(Value()), Value(), id)
      ensures Current(Value(), id).Some? ==> !Parkable(objects[Current(Value(), id).value])
      ensures slots.stopping == Some(id) ==> diskParked
    {
      LeftWellRun(View(), id, diskParked, now);
      var k := Get(id);
      if k.Some? { objects := objects[k.value := objects[k.value].(inExecutor := false, skipped := false)]; }
      if slots.stopping == Some(id) && !diskParked { ReleaseStop(now); }
    }

    method UnskipAll()
      modifies this`objects
      ensures objects == Unskip(old(objects), runs)
    {
      var i := 0;
      while i < |runs|
        invariant i <= |runs|
        invariant objects == Unskip(old(objects), runs[..i])
      {
        UnskipNext(old(objects), runs, i);
        var k := runs[i].1;
        if k < |objects| { objects := objects[k := objects[k].(skipped := false)]; }
        i := i + 1;
      }
      assert runs[..|runs|] == runs;
    }

    method CollectCandidates() returns (cs: seq<Candidate>)
      ensures cs == Candidates(objects, runs)
      ensures forall c :: c in cs <==>
                c in runs && c.1 < |objects| && !objects[c.1].stopRequested && !objects[c.1].skipped
    {
      cs := [];
      var i := 0;
      while i < |runs|
        invariant i <= |runs|
        invariant cs == Candidates(objects, runs[..i])
      {
        assert runs[..i + 1][..i] == runs[..i];
        var k := runs[i].1;
        if k < |objects| && !objects[k].stopRequested && !objects[k].skipped { cs := cs + [runs[i]]; }
        i := i + 1;
      }
      assert runs[..|runs|] == runs;
      forall c
        ensures c in cs <==>
                c in runs && c.1 < |objects| && !objects[c.1].stopRequested && !objects[c.1].skipped
      {
        CandidatesExactly(objects, runs, c);
      }
    }

    method GiveUpStop(now: int)
      modifies this`slots, this`releases
      ensures Value() == GiveUp(old(Value()), now)
      ensures releases == Releases(old(Value()), Value(), old(releases), now)
    {
      if slots.stopping.Some? && now - slots.stopRequestedAt >= STOP_TIMEOUT_MS { ReleaseStop(now); }
    }

    /** A selection starts only with the stop slot free, on a sample no older than the last release
        and the last reclaim, and then over exactly the runs that may be acted on. */
    method Observe(over: Option<bool>, sampledAt: int, now: int)
      requires Valid()
      modifies this`objects, this`slots, this`selection, this`releases
      ensures Valid() && Value() == DiskGovernor.Observe(old(Value()), over, sampledAt, now)
      ensures releases == Releases(old(Value()), Value(), old(releases), now)
      ensures StartsOrStays(old(Value()), Value(), sampledAt)
    {
      ghost var was := View();
      TakeSample(over, sampledAt, now);
      assert View() == was.(g := Value(), releases := Releases(was.g, Value(), was.releases, now));
      ObservedWell(was, View(), over, sampledAt, now);
    }

    method TakeSample(over: Option<bool>, sampledAt: int, now: int)
      modifies this`objects, this`slots, this`selection, this`releases
      ensures Value() == DiskGovernor.Observe(old(Value()), over, sampledAt, now)
      ensures releases == Releases(old(Value()), Value(), old(releases), now)
    {
      GiveUpStop(now);
      if over.None? { return; }
      if slots.lastStopEnded.Some? && sampledAt < slots.lastStopEnded.value { return; }
      if slots.lastReclaimEnded.Some? && sampledAt < slots.lastReclaimEnded.value { return; }
      if !over.value {
        slots := slots.(lastSelection := None);
        UnskipAll();
        return;
      }
      if slots.stopping.Some? || !selection.NotSelecting? { return; }
      if slots.lastSelection.Some? && now - slots.lastSelection.value < SELECT_INTERVAL_MS { return; }
      var cs := CollectCandidates();
      if cs == [] { return; }
      selection := Measuring(cs, 0, None, sampledAt);
    }

    /** The reading of a turn boundary arrives, for the object the boundary began with. A right pick
        stays right exactly if the reading does not upset the selection. */
    method RecordBoundaryReading(k: nat, bytes: nat)
      requires Valid() && k < |objects|
      modifies this`objects
      ensures Valid() && Value() == BoundaryReads(old(Value()), k, bytes)
      ensures PickOk(old(Value())) ==> (PickOk(Value()) <==> !Upsetting(old(Value()), BoundaryRead(k, bytes)))
    {
      BoundaryDecides(Value(), k, bytes);
      UpdateWellRun(View(), k, objects[k].(cacheBytes := Some(bytes)));
      objects := objects[k := objects[k].(cacheBytes := Some(bytes))];
    }

    method SelectedNothing(now: int)
      modifies this`slots, this`selection
      ensures Value() == SelectNothing(old(Value()), now)
    {
      selection := NotSelecting;
      slots := slots.(lastSelection := Some(now));
    }

    /** Stop the picked run if it is registered, parkable and was not stopped before; else start
        dropping its caches where it stands, or do nothing. */
    method Decide(c: Candidate, now: int)
      requires selection.Measuring?
      modifies this`objects, this`slots, this`selection, this`stops
      ensures Value() == Conclude(old(Value()), c, now)
      ensures stops == old(stops) + (if WillStop(old(Value()), c) then [Stop(c.0, c.1, old(selection).sampledAt)]
                else [])
      ensures slots.stopping != old(slots).stopping ==> slots.stopping == Some(c.0) && WillStop(old(Value()), c)
      ensures selection.Reclaiming? ==> c.1 < |objects| && !Parkable(objects[c.1]) && Current(Value(), c.0) == Some(c.1)
    {
      if c.1 >= |objects| || Find<nat>(runs, c.0) != Some(c.1) || objects[c.1].stopRequested {
        SelectedNothing(now);
      } else if !Parkable(objects[c.1]) {
        selection := Reclaiming(c.0, c.1);
      } else {
        objects := objects[c.1 := objects[c.1].(stopRequested := true)];
        slots := slots.(stopping := Some(c.0), stopRequestedAt := now);
        stops := stops + [Stop(c.0, c.1, selection.sampledAt)];
        selection := NotSelecting;
      }
    }

    /** The body of the measuring loop up to its await. */
    method MeasureOne(reading: Option<nat>)
      requires selection.Measuring? && selection.at < |selection.candidates|
      modifies this`objects, this`selection
      ensures Value() == Measured(old(Value()), reading)
      ensures selection.Measuring? && selection.at == old(selection).at + 1
      ensures selection.candidates == old(selection).candidates && selection.sampledAt == old(selection).sampledAt
    {
      var k := selection.candidates[selection.at].1;
      if reading.Some? && k < |objects| { objects := objects[k := objects[k].(cacheBytes := reading)]; }
      if Bytes(objects, k) > PickBytes(objects, selection.candidates, selection.pick) {
        selection := selection.(pick := Some(selection.at));
      }
      selection := selection.(at := selection.at + 1);
    }

    /** One measurement, and after the last the decision about the pick. */
    method MeasureNext(reading: Option<nat>, now: int)
      requires Valid() && selection.Measuring? && selection.at < |selection.candidates|
      modifies this`objects, this`slots, this`selection, this`stops
      ensures Valid() && Value() == DiskGovernor.MeasureNext(old(Value()), reading, now)
      ensures stops == StopsAfter(old(Value()), old(stops), reading)
      ensures Acted(old(selection), objects, old(stops), stops, selection, PickOk(old(Value())))
      ensures PickOk(old(Value())) ==> PickOk(Value())
    {
      ghost var was := View();
      MeasureAndDecide(reading, now);
      assert View() == was.(g := Value(), stops := StopsAfter(was.g, was.stops, reading));
      MeasuredWell(was, View(), reading, now);
    }

    method MeasureAndDecide(reading: Option<nat>, now: int)
      requires Shaped(Value()) && selection.Measuring? && selection.at < |selection.candidates|
      modifies this`objects, this`slots, this`selection, this`stops
      ensures Value() == DiskGovernor.MeasureNext(old(Value()), reading, now)
      ensures stops == StopsAfter(old(Value()), old(stops), reading)
    {
      MeasuredShaped(Value(), reading);
      MeasureOne(reading);
      if selection.at < |selection.candidates| { return; }
      if selection.pick.None? {
        SelectedNothing(now);
      } else {
        Decide(selection.candidates[selection.pick.value], now);
      }
    }

    /** The measuring loop, when nothing happens between its awaits. */
    method SelectAndStop(reading: nat -> Option<nat>, now: int)
      requires Valid() && selection.Measuring? && selection.at < |selection.candidates|
      modifies this`objects, this`slots, this`selection, this`stops
      ensures Valid() && !selection.Measuring? && Value() == MeasureAll(old(Value()), reading, now)
      ensures Acted(old(selection), objects, old(stops), stops, selection, PickOk(old(Value())))
      ensures PickOk(old(Value())) ==> PickOk(Value())
    {
      while selection.Measuring?
        invariant Valid() && MeasureAll(Value(), reading, now) == MeasureAll(old(Value()), reading, now)
        invariant selection.Measuring? ==>
          && selection.at < |selection.candidates| && selection.candidates == old(selection).candidates
          && selection.sampledAt == old(selection).sampledAt && stops == old(stops)
        invariant PickOk(old(Value())) ==> PickOk(Value())
        invariant !selection.Measuring? ==>
          Acted(old(selection), objects, old(stops), stops, selection, PickOk(old(Value())))
        decreases if selection.Measuring? then |selection.candidates| - selection.at + 1 else 0
      {
        MeasureActs(View(), reading(selection.at), now, PickOk(old(Value())));
        MeasureNext(reading(selection.at), now);
      }
    }

    /** The slot is free again, and the run is not picked again in this stretch unless it holds nothing. */
    method ReclaimEnded(left: Option<nat>, now: int)
      requires Valid()
      modifies this`objects, this`slots, this`selection
      ensures Valid() && Value() == DiskGovernor.ReclaimEnded(old(Value()), left, now)
      ensures !selection.Reclaiming?
      ensures old(selection).Reclaiming? ==>
                forall c :: c in Candidates(objects, runs) && c.1 == old(selection).run ==>
                  left == Some(0) && Bytes(objects, c.1) == 0
    {
      ReclaimWellRun(View(), left, now);
      if !selection.Reclaiming? { return; }
      var k := selection.run;
      if k < |objects| {
        if left.Some? { objects := objects[k := objects[k].(cacheBytes := left)]; }
        if left != Some(0) { objects := objects[k := objects[k].(skipped := true)]; }
      }
      selection := NotSelecting;
      slots := slots.(lastReclaimEnded := Some(now));
      forall c: Candidate | c.1 == k && c in Candidates(objects, runs)
        ensures left == Some(0) && Bytes(objects, c.1) == 0
      {
        CandidatesExactly(objects, runs, c);
      }
    }
  }
}
