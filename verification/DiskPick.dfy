/** Which run the hard layer picks: the first of the candidates with the most cache bytes, unless the
    soft layer has meanwhile read a candidate already measured as something that matters. */
module DiskPick {
  import opened Options
  import opened OrderedMap
  import opened DiskGovernor
  import opened DiskRuns
  import opened DiskSafety

  predicate DistinctObjects(cs: seq<Candidate>) {
    forall i, j :: 0 <= i < j < |cs| ==> cs[i].1 != cs[j].1
  }

  /** The first of the largest among the first `at` candidates, or none when they hold nothing. */
  predicate FirstLargest(objects: seq<RunState>, cs: seq<Candidate>, at: nat, pick: Option<nat>)
    requires at <= |cs|
  {
    if pick.None? then forall j :: 0 <= j < at ==> Bytes(objects, cs[j].1) == 0
    else
      var p := pick.value;
      && p < at && Bytes(objects, cs[p].1) > 0
      && (forall j :: 0 <= j < at ==> Bytes(objects, cs[j].1) <= Bytes(objects, cs[p].1))
      && (forall j :: 0 <= j < p ==> Bytes(objects, cs[j].1) < Bytes(objects, cs[p].1))
  }

  /** What every selection under way looks like. */
  predicate Shaped(g: Governor) {
    g.selection.Measuring? ==>
      && g.selection.at <= |g.selection.candidates| && DistinctObjects(g.selection.candidates)
      && (forall i :: 0 <= i < |g.selection.candidates| ==> g.selection.candidates[i].1 < |g.objects|)
      && (g.selection.pick.Some? ==> g.selection.pick.value < g.selection.at)
  }

  /** Between events there is a candidate left to measure. */
  predicate Unfinished(g: Governor) {
    g.selection.Measuring? ==> g.selection.at < |g.selection.candidates|
  }

  /** The pick is right so far. */
  predicate PickOk(g: Governor) {
    g.selection.Measuring? && g.selection.at <= |g.selection.candidates| ==>
      FirstLargest(g.objects, g.selection.candidates, g.selection.at, g.selection.pick)
  }

  lemma {:induction false} FindAt<T>(m: seq<(string, T)>, i: nat)
    requires Distinct(m) && i < |m|
    ensures Find(m, m[i].0) == Some(m[i].1)
  {
    if i > 0 {
      assert m[0].0 != m[i].0;
      FindAt(m[1..], i - 1);
    }
  }

  lemma RunsDistinct(g: Governor)
    requires RunsOk(g)
    ensures DistinctObjects(g.runs)
  {
    forall i, j | 0 <= i < j < |g.runs| ensures g.runs[i].1 != g.runs[j].1 {
      FindAt<nat>(g.runs, i);
      FindAt<nat>(g.runs, j);
    }
  }

  lemma {:induction false} CandidatesDistinct(objects: seq<RunState>, runs: seq<Candidate>)
    requires DistinctObjects(runs)
    ensures DistinctObjects(Candidates(objects, runs))
  {
    if runs != [] {
      var n := |runs| - 1;
      CandidatesDistinct(objects, runs[..n]);
      var front := Candidates(objects, runs[..n]);
      forall i | 0 <= i < |front| ensures front[i].1 != runs[n].1 {
        assert front[i] in front;
      }
    }
  }

  /** Every registered run the layer may act on is a candidate, and nothing else is. */
  lemma {:induction false} CandidatesExactly(objects: seq<RunState>, runs: seq<Candidate>, c: Candidate)
    ensures c in Candidates(objects, runs) <==>
            c in runs && c.1 < |objects| && !objects[c.1].stopRequested && !objects[c.1].skipped
  {
    if runs != [] {
      CandidatesExactly(objects, runs[..|runs| - 1], c);
      assert runs == runs[..|runs| - 1] + [runs[|runs| - 1]];
    }
  }

  // ----- readings that upset a selection

  /** `a` bytes at place `i` would have been picked over `b` bytes at place `p`. */
  predicate Outranks(a: nat, i: nat, b: nat, p: nat) {
    a > b || (a == b && i < p)
  }

  function BytesAt(g: Governor, i: nat): nat
    requires g.selection.Measuring? && i < |g.selection.candidates|
  {
    Bytes(g.objects, g.selection.candidates[i].1)
  }

  /** Reading `bytes` for the measured candidate `j` changes which of the measured ones should be
      picked: there is a pick where there was none, the pick holds nothing or falls behind another,
      or another gets ahead of the pick. */
  predicate Upsets(g: Governor, j: nat, bytes: nat)
    requires g.selection.Measuring? && j < g.selection.at <= |g.selection.candidates|
    requires g.selection.pick.Some? ==> g.selection.pick.value < g.selection.at
  {
    match g.selection.pick
    case None => bytes > 0
    case Some(p) =>
      if j != p then Outranks(bytes, j, BytesAt(g, p), p)
      else bytes == 0 || exists i :: 0 <= i < g.selection.at && i != p && Outranks(BytesAt(g, i), i, bytes, p)
  }

  /** A turn boundary of a candidate the selection under way has already measured. */
  predicate Upsetting(g: Governor, e: Event) {
    && e.BoundaryRead? && g.selection.Measuring? && Shaped(g)
    && exists j :: 0 <= j < g.selection.at && g.selection.candidates[j].1 == e.run && Upsets(g, j, e.bytes)
  }

  /** The measured candidate the object is, if it is one. */
  lemma ReadBytes(g: Governor, k: nat, bytes: nat, j: nat)
    requires Shaped(g) && g.selection.Measuring? && j < |g.selection.candidates|
    ensures BytesAt(BoundaryReads(g, k, bytes), j) == if g.selection.candidates[j].1 == k then bytes else BytesAt(g, j)
  {
  }

  /** An upsetting reading leaves the pick wrong, in any state. */
  lemma UpsetIsWrong(g: Governor, j: nat, bytes: nat)
    requires Shaped(g) && g.selection.Measuring? && j < g.selection.at && Upsets(g, j, bytes)
    ensures !PickOk(BoundaryReads(g, g.selection.candidates[j].1, bytes))
  {
    var k := g.selection.candidates[j].1;
    var t := BoundaryReads(g, k, bytes);
    ReadBytes(g, k, bytes, j);
    if g.selection.pick.Some? {
      var p := g.selection.pick.value;
      if j != p {
        ReadBytes(g, k, bytes, p);
      } else if bytes > 0 {
        var i :| 0 <= i < g.selection.at && i != p && Outranks(BytesAt(g, i), i, bytes, p);
        ReadBytes(g, k, bytes, i);
        assert BytesAt(t, i) == BytesAt(g, i);
      }
    }
  }

  /** Any other reading leaves a right pick right. */
  lemma OtherIsRight(g: Governor, k: nat, bytes: nat)
    requires Shaped(g) && PickOk(g) && !Upsetting(g, BoundaryRead(k, bytes))
    ensures PickOk(BoundaryReads(g, k, bytes))
  {
    var t := BoundaryReads(g, k, bytes);
    if g.selection.Measuring? {
      forall j | 0 <= j < |g.selection.candidates|
        ensures BytesAt(t, j) == if g.selection.candidates[j].1 == k then bytes else BytesAt(g, j)
      {
        ReadBytes(g, k, bytes, j);
      }
      if j :| 0 <= j < g.selection.at && g.selection.candidates[j].1 == k {
        assert !Upsets(g, j, bytes);
        MeasuredReading(g, t, j, bytes);
      }
    }
  }

  lemma MeasuredReading(g: Governor, t: Governor, j: nat, bytes: nat)
    requires Shaped(g) && PickOk(g) && g.selection.Measuring? && j < g.selection.at && !Upsets(g, j, bytes)
    requires t.selection == g.selection
    requires forall i :: 0 <= i < |g.selection.candidates| ==> BytesAt(t, i) == if i == j then bytes else BytesAt(g, i)
    ensures PickOk(t)
  {
    var cs, at := g.selection.candidates, g.selection.at;
    assert forall i :: 0 <= i < at ==> Bytes(t.objects, cs[i].1) == BytesAt(t, i);
    assert forall i :: 0 <= i < at ==> Bytes(g.objects, cs[i].1) == BytesAt(g, i);
  }

  // ----- what every step keeps

  lemma MeasuredShaped(g: Governor, reading: Option<nat>)
    requires Shaped(g)
    ensures Shaped(Measured(g, reading))
  {
  }

  lemma MeasuredPick(g: Governor, reading: Option<nat>)
    requires Shaped(g) && PickOk(g)
    ensures PickOk(Measured(g, reading))
  {
    var t := Measured(g, reading);
    if g.selection.Measuring? && g.selection.at < |g.selection.candidates| {
      var cs, at := g.selection.candidates, g.selection.at;
      assert forall j :: 0 <= j < at ==> Bytes(t.objects, cs[j].1) == Bytes(g.objects, cs[j].1);
    }
  }

  lemma MeasureShaped(g: Governor, reading: Option<nat>, now: int)
    requires Shaped(g)
    ensures Shaped(MeasureNext(g, reading, now)) && Unfinished(MeasureNext(g, reading, now))
    ensures PickOk(g) ==> PickOk(MeasureNext(g, reading, now))
  {
    var t := Measured(g, reading);
    MeasuredShaped(g, reading);
    if PickOk(g) { MeasuredPick(g, reading); }
    assert MeasureNext(g, reading, now).selection.Measuring? ==> MeasureNext(g, reading, now) == t;
  }

  lemma StepShaped(w: World, e: Event)
    requires RunsOk(w.g) && Shaped(w.g) && Unfinished(w.g)
    ensures Shaped(Step(w, e).g) && Unfinished(Step(w, e).g)
  {
    if e.MeasuredOne? {
      MeasureShaped(w.g, e.reading, e.now);
    } else if e.Sampled? {
      SampledShaped(w.g, e.over, e.sampledAt, e.now);
    } else if w.g.selection.Measuring? {
      SameSelection(w, e);
    }
  }

  lemma StepPick(w: World, e: Event)
    requires Shaped(w.g) && PickOk(w.g) && !Upsetting(w.g, e)
    ensures PickOk(Step(w, e).g)
  {
    if e.MeasuredOne? {
      MeasureShaped(w.g, e.reading, e.now);
    } else if e.Sampled? {
      SampledPick(w.g, e.over, e.sampledAt, e.now);
    } else if e.BoundaryRead? {
      OtherIsRight(w.g, e.run, e.bytes);
    } else if w.g.selection.Measuring? {
      SameSelection(w, e);
    }
  }

  lemma SampledShaped(g: Governor, over: Option<bool>, sampledAt: int, now: int)
    requires RunsOk(g) && Shaped(g) && Unfinished(g)
    ensures Shaped(Observe(g, over, sampledAt, now)) && Unfinished(Observe(g, over, sampledAt, now))
  {
    var t := Observe(g, over, sampledAt, now);
    var u := GiveUp(g, now);
    assert u.objects == g.objects && u.runs == g.runs && u.selection == g.selection;
    if t.selection != g.selection {
      RunsDistinct(g);
      CandidatesDistinct(g.objects, g.runs);
      forall i | 0 <= i < |t.selection.candidates| ensures t.selection.candidates[i].1 < |t.objects| {
        assert t.selection.candidates[i] in Candidates(g.objects, g.runs);
      }
    }
  }

  /** A selection that starts has no wrong pick yet, and one under way keeps its bytes. */
  lemma SampledPick(g: Governor, over: Option<bool>, sampledAt: int, now: int)
    requires Shaped(g)
    ensures var t := Observe(g, over, sampledAt, now);
            && (PickOk(g) || t.selection != g.selection ==> PickOk(t))
            && (g.selection.Measuring? ==> t.selection == g.selection)
  {
    var t := Observe(g, over, sampledAt, now);
    if g.selection.Measuring? {
      assert forall k :: 0 <= k < |g.objects| ==> Bytes(t.objects, k) == Bytes(g.objects, k);
    }
  }

  lemma SameSelection(w: World, e: Event)
    requires w.g.selection.Measuring? && !e.MeasuredOne? && !e.Sampled?
    ensures Step(w, e).g.selection == w.g.selection && |w.g.objects| <= |Step(w, e).g.objects|
    ensures !e.BoundaryRead? ==>
              forall k :: 0 <= k < |w.g.objects| ==> Bytes(Step(w, e).g.objects, k) == Bytes(w.g.objects, k)
  {
  }

  /** A step that neither registers nor unregisters keeps the map. */
  lemma SameRuns(w: World, e: Event)
    requires !e.Registered? && !e.Unregistered?
    ensures Step(w, e).g.runs == w.g.runs && |Step(w, e).g.objects| == |w.g.objects|
  {
    if e.Sampled? {
      ObserveQuiet(w.g, e.over, e.sampledAt, e.now);
    } else if e.MeasuredOne? {
      MeasureQuiet(w.g, e.reading, e.now);
    }
  }

  lemma StepRunsOk(w: World, e: Event)
    requires RunsOk(w.g)
    ensures RunsOk(Step(w, e).g)
  {
    match e
    case Registered(id) => RegisterRunsOk(w.g, id);
    case Unregistered(id, now) => UnregisterRunsOk(w.g, id);
    case _ => SameRuns(w, e);
  }

  lemma {:induction false} RunShaped(es: seq<Event>)
    ensures RunsOk(Run(es).g) && Shaped(Run(es).g) && Unfinished(Run(es).g)
  {
    if es != [] {
      RunLast(es);
      RunShaped(es[..|es| - 1]);
      StepRunsOk(Run(es[..|es| - 1]), es[|es| - 1]);
      StepShaped(Run(es[..|es| - 1]), es[|es| - 1]);
    }
  }

  /** The selection under way, if there is one, has met no upsetting reading since it started. */
  predicate Undisturbed(es: seq<Event>) {
    es == [] ||
    var w := Run(es[..|es| - 1]).g;
    !w.selection.Measuring? || !Run(es).g.selection.Measuring? ||
    (Undisturbed(es[..|es| - 1]) && !Upsetting(w, es[|es| - 1]))
  }

  /** A step out of or into a selection leaves no wrong pick. */
  lemma FreshPick(w: World, e: Event)
    requires Shaped(w.g) && (!w.g.selection.Measuring? || !Step(w, e).g.selection.Measuring?)
    ensures PickOk(Step(w, e).g)
  {
    if e.Sampled? { SampledPick(w.g, e.over, e.sampledAt, e.now); }
  }

  lemma {:induction false} RunPick(es: seq<Event>)
    requires Undisturbed(es)
    ensures PickOk(Run(es).g)
  {
    if es != [] {
      var w := Run(es[..|es| - 1]);
      RunLast(es);
      RunShaped(es[..|es| - 1]);
      if !w.g.selection.Measuring? || !Run(es).g.selection.Measuring? {
        FreshPick(w, es[|es| - 1]);
      } else {
        RunPick(es[..|es| - 1]);
        StepPick(w, es[|es| - 1]);
      }
    }
  }

  /** The next reading ends the selection with a pick that is not the first with the most bytes. */
  predicate WrongPick(g: Governor, reading: Option<nat>) {
    var t := Measured(g, reading);
    Chosen(t).Some? && !FirstLargest(t.objects, t.selection.candidates, |t.selection.candidates|, t.selection.pick)
  }

  /** In every run whose selection under way has met no upsetting reading, the run it picks (to stop
      it or to drop its caches in place) holds at least one byte, no candidate holds more, and every
      earlier candidate holds less. */
  lemma PicksLargest(es: seq<Event>, reading: Option<nat>)
    requires Undisturbed(es)
    ensures !WrongPick(Run(es).g, reading)
    ensures var t := Measured(Run(es).g, reading);
            Chosen(t).Some? ==>
              var cs, p := t.selection.candidates, t.selection.pick.value;
              && Chosen(t).value == cs[p] && Bytes(t.objects, cs[p].1) > 0
              && (forall j :: 0 <= j < |cs| ==> Bytes(t.objects, cs[j].1) <= Bytes(t.objects, cs[p].1))
              && (forall j :: 0 <= j < p ==> Bytes(t.objects, cs[j].1) < Bytes(t.objects, cs[p].1))
  {
    RunShaped(es);
    RunPick(es);
    MeasuredPick(Run(es).g, reading);
  }

  /** A registration is stopped at most once. */
  predicate StoppedOnce(w: World) {
    && (forall k :: 0 <= k < |w.stops| ==> w.stops[k].run < |w.g.objects| && w.g.objects[w.stops[k].run].stopRequested)
    && (forall i, j :: 0 <= i < j < |w.stops| ==> w.stops[i].run != w.stops[j].run)
  }

  lemma LatchStays(w: World, e: Event, k: nat)
    requires k < |w.g.objects| && w.g.objects[k].stopRequested
    ensures k < |Step(w, e).g.objects| && Step(w, e).g.objects[k].stopRequested
  {
    if e.MeasuredOne? { MeasuredLatch(w.g, e.reading, k); }
  }

  lemma MeasuredLatch(g: Governor, reading: Option<nat>, k: nat)
    requires k < |g.objects|
    ensures k < |Measured(g, reading).objects|
              && Measured(g, reading).objects[k].stopRequested == g.objects[k].stopRequested
  {
  }

  lemma StepStoppedOnce(w: World, e: Event)
    requires StoppedOnce(w)
    ensures StoppedOnce(Step(w, e))
  {
    var t := Step(w, e);
    forall k | 0 <= k < |w.stops| ensures w.stops[k].run < |t.g.objects| && t.g.objects[w.stops[k].run].stopRequested {
      LatchStays(w, e, w.stops[k].run);
    }
    if e.MeasuredOne? && Stops(w.g, e.reading) {
      var c := Chosen(Measured(w.g, e.reading)).value;
      forall k | 0 <= k < |w.stops| ensures w.stops[k].run != c.1 { MeasuredLatch(w.g, e.reading, w.stops[k].run); }
    }
  }

  lemma {:induction false} RunStoppedOnce(es: seq<Event>)
    ensures StoppedOnce(Run(es))
  {
    if es != [] {
      RunLast(es);
      RunStoppedOnce(es[..|es| - 1]);
      StepStoppedOnce(Run(es[..|es| - 1]), es[|es| - 1]);
    }
  }
}
