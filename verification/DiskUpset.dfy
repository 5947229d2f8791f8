/** What an upsetting reading does: from any state, readings of the remaining candidates can end the
    selection with the wrong pick. */
module DiskUpset {
  import opened Options
  import opened DiskGovernor
  import opened DiskRuns
  import opened DiskPick
  import opened DiskHarm

  /** The rest of a selection, measured at one time. */
  predicate OnlyMeasures(es: seq<Event>, now: int) {
    forall i :: 0 <= i < |es| ==> es[i].MeasuredOne? && es[i].now == now
  }

  predicate NoBoundary(es: seq<Event>) {
    forall i :: 0 <= i < |es| ==> !es[i].BoundaryRead?
  }

  predicate Misled(g: Governor) {
    g.selection.Measuring? && Shaped(g) && Unfinished(g) && !PickOk(g)
  }

  /** One more candidate that holds nothing leaves a wrong pick wrong. */
  lemma NothingMore(g: Governor)
    requires Misled(g) && g.selection.pick.Some?
    ensures var t := Measured(g, Some(0));
            && t.selection == g.selection.(at := g.selection.at + 1) && Shaped(t) && !PickOk(t)
  {
    var t := Measured(g, Some(0));
    var cs, at := g.selection.candidates, g.selection.at;
    MeasuredShaped(g, Some(0));
    assert forall j :: 0 <= j < at ==> Bytes(t.objects, cs[j].1) == Bytes(g.objects, cs[j].1);
  }

  /** Without a pick although one holds bytes, the next candidate is picked for a single byte. */
  lemma OneByteMore(g: Governor)
    requires Misled(g) && g.selection.pick.None?
    ensures var t := Measured(g, Some(1));
            && t.selection == g.selection.(at := g.selection.at + 1, pick := Some(g.selection.at))
            && Shaped(t) && !PickOk(t)
  {
    var t := Measured(g, Some(1));
    var cs, at := g.selection.candidates, g.selection.at;
    MeasuredShaped(g, Some(1));
    assert forall j :: 0 <= j < at ==> Bytes(t.objects, cs[j].1) == Bytes(g.objects, cs[j].1);
    var j :| 0 <= j < at && Bytes(g.objects, cs[j].1) != 0;
    assert Bytes(t.objects, cs[j].1) >= Bytes(t.objects, cs[at].1);
  }

  lemma MisledStep(g: Governor) returns (reading: Option<nat>)
    requires Misled(g)
    ensures var t := Measured(g, reading);
            && t.selection.Measuring? && t.selection.pick.Some? && Shaped(t) && !PickOk(t)
            && t.selection.candidates == g.selection.candidates && t.selection.at == g.selection.at + 1
  {
    if g.selection.pick.Some? {
      reading := Some(0);
      NothingMore(g);
    } else {
      reading := Some(1);
      OneByteMore(g);
    }
  }

  lemma StillMeasuring(w: World, reading: Option<nat>, now: int)
    requires Measured(w.g, reading).selection.Measuring? && Unfinished(Measured(w.g, reading))
    ensures Step(w, MeasuredOne(reading, now)).g == Measured(w.g, reading)
  {
  }

  lemma LastMeasured(g: Governor, reading: Option<nat>)
    requires var t := Measured(g, reading);
             && t.selection.Measuring? && t.selection.pick.Some? && Shaped(t) && !PickOk(t)
             && t.selection.at == |t.selection.candidates|
    ensures WrongPick(g, reading)
  {
  }

  lemma {:induction false} MisledPicks(w: World, now: int) returns (es: seq<Event>, reading: Option<nat>)
    requires Misled(w.g)
    ensures OnlyMeasures(es, now) && WrongPick(RunFrom(w, es).g, reading)
    decreases |w.g.selection.candidates| - w.g.selection.at
  {
    reading := MisledStep(w.g);
    if w.g.selection.at + 1 == |w.g.selection.candidates| {
      LastMeasured(w.g, reading);
      es := [];
    } else {
      var e := MeasuredOne(reading, now);
      StillMeasuring(w, reading, now);
      var fs;
      fs, reading := MisledPicks(Step(w, e), now);
      RunFromFirst(w, e, fs);
      es := [e] + fs;
    }
  }

  /** After any upsetting reading, in any run, the selection can end with the wrong pick, whatever the
      remaining measurements' time. */
  lemma UpsetLeadsToWrongPick(es: seq<Event>, e: Event, now: int) returns (fs: seq<Event>, reading: Option<nat>)
    requires Upsetting(Run(es).g, e)
    ensures OnlyMeasures(fs, now) && WrongPick(Run(es + [e] + fs).g, reading)
  {
    var g := Run(es).g;
    var j :| 0 <= j < g.selection.at && g.selection.candidates[j].1 == e.run && Upsets(g, j, e.bytes);
    RunNext(es, e);
    RunShaped(es + [e]);
    UpsetIsWrong(g, j, e.bytes);
    fs, reading := MisledPicks(Run(es + [e]), now);
    RunIsRunFrom(es + [e], fs);
  }

  lemma {:induction false} StaysUndisturbed(es: seq<Event>, fs: seq<Event>)
    requires Undisturbed(es) && NoBoundary(fs)
    ensures Undisturbed(es + fs)
  {
    if fs == [] {
      assert es + fs == es;
    } else {
      var n := |fs| - 1;
      StaysUndisturbed(es, fs[..n]);
      assert (es + fs)[..|es + fs| - 1] == es + fs[..n];
    }
  }

  ghost predicate CanPickWrongly(es: seq<Event>) {
    exists fs, reading :: NoBoundary(fs) && WrongPick(Run(es + fs).g, reading)
  }

  lemma RightWithoutBoundary(es: seq<Event>)
    requires Undisturbed(es)
    ensures !CanPickWrongly(es)
  {
    forall fs, reading | NoBoundary(fs) ensures !WrongPick(Run(es + fs).g, reading) {
      StaysUndisturbed(es, fs);
      PicksLargest(es + fs, reading);
    }
  }

  /** A boundary reading is upsetting exactly when it is what makes a wrong pick possible. */
  lemma UpsettingExactly(es: seq<Event>, e: Event)
    requires Undisturbed(es)
    ensures !CanPickWrongly(es)
    ensures CanPickWrongly(es + [e]) <==> Upsetting(Run(es).g, e)
  {
    RightWithoutBoundary(es);
    if Upsetting(Run(es).g, e) {
      var fs, reading := UpsetLeadsToWrongPick(es, e, 0);
      assert NoBoundary(fs) && WrongPick(Run(es + [e] + fs).g, reading);
    } else {
      assert (es + [e])[..|es + [e]| - 1] == es;
      RightWithoutBoundary(es + [e]);
    }
  }

  // ----- it does happen

  lemma TwoRegistered() returns (es: seq<Event>)
    ensures Run(es).g == IDLE.(objects := [NEW_RUN, NEW_RUN], runs := [("a", 0), ("b", 1)])
  {
    RunNext([], DiskRuns.Registered("a"));
    var a := [] + [DiskRuns.Registered("a")];
    RunNext(a, DiskRuns.Registered("b"));
    es := a + [DiskRuns.Registered("b")];
    assert [("a", 0)][1..] == [];
  }

  lemma TwoCandidates(g: Governor)
    requires g.objects == [NEW_RUN, NEW_RUN] && g.runs == [("a", 0), ("b", 1)]
    ensures Candidates(g.objects, g.runs) == g.runs
  {
    assert Candidates(g.objects, []) == [];
    assert g.runs[..1] == [("a", 0)] && [("a", 0)][..0] == [];
    assert Candidates(g.objects, [("a", 0)]) == [("a", 0)];
  }

  /** Runs `a` and `b` are registered, a sample is over, and `a` is measured as empty. */
  lemma FirstMeasured() returns (es: seq<Event>)
    ensures Run(es).g.selection == Measuring([("a", 0), ("b", 1)], 1, None, 0)
    ensures Run(es).g.objects == [NEW_RUN.(cacheBytes := Some(0)), NEW_RUN]
  {
    var a := TwoRegistered();
    var over := Sampled(Some(true), 0, 0);
    RunNext(a, over);
    OverStarts(Run(a).g);
    RunNext(a + [over], MeasuredOne(Some(0), 0));
    EmptyMeasured(Run(a + [over]).g);
    es := a + [over] + [MeasuredOne(Some(0), 0)];
  }

  lemma OverStarts(g: Governor)
    requires g == IDLE.(objects := [NEW_RUN, NEW_RUN], runs := [("a", 0), ("b", 1)])
    ensures Observe(g, Some(true), 0, 0) == g.(selection := Measuring([("a", 0), ("b", 1)], 0, None, 0))
  {
    TwoCandidates(g);
  }

  lemma EmptyMeasured(g: Governor)
    requires g.selection == Measuring([("a", 0), ("b", 1)], 0, None, 0) && g.objects == [NEW_RUN, NEW_RUN]
    ensures var t := MeasureNext(g, Some(0), 0);
            && t.selection == Measuring([("a", 0), ("b", 1)], 1, None, 0)
            && t.objects == [NEW_RUN.(cacheBytes := Some(0)), NEW_RUN]
  {
  }

  /** While `b` is being measured, a turn boundary of `a` reads 7 bytes; then `b` is measured as 5 and
      picked, although `a` holds more. */
  lemma BoundaryMisleads() returns (es: seq<Event>)
    ensures var t := Measured(Run(es).g, Some(5));
            && Chosen(t) == Some(("b", 1)) && Bytes(t.objects, 1) == 5 && Bytes(t.objects, 0) == 7
            && WrongPick(Run(es).g, Some(5))
  {
    var a := FirstMeasured();
    RunNext(a, BoundaryRead(0, 7));
    es := a + [BoundaryRead(0, 7)];
    var t := Measured(Run(es).g, Some(5));
    assert t.selection.candidates[0].1 == 0 && t.selection.candidates[1].1 == 1;
  }
}
