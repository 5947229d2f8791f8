/** Why a harmful delivery is harmful: whatever state the governor is in, such a delivery can be
    followed by a stop of a run the server does not have as `running`, with no further delivery and
    on a clock that goes on from any time. */
module DiskHarm {
  import opened Folds
  import opened Options
  import opened DiskGovernor
  import opened DiskRuns
  import opened DiskSafety
  import opened DiskPick

  function RunFrom(w: World, es: seq<Event>): World {
    Fold(Step, w, es)
  }

  predicate NoDelivery(es: seq<Event>) {
    forall i :: 0 <= i < |es| ==> !es[i].Deliver?
  }

  function TimeOf(e: Event): Option<int> {
    match e
    case Unregistered(_, now) => Some(now)
    case Left(_, _, now) => Some(now)
    case Sampled(_, _, now) => Some(now)
    case MeasuredOne(_, now) => Some(now)
    case Reclaimed(_, now) => Some(now)
    case _ => None
  }

  /** No delivery, and whatever has a time happens at `t`; a sample is handled when it is taken. */
  predicate QuietAt(es: seq<Event>, t: int) {
    forall i :: 0 <= i < |es| ==>
      !es[i].Deliver? && (TimeOf(es[i]).Some? ==> TimeOf(es[i]).value == t) && (es[i].Sampled? ==> es[i].sampledAt == t)
  }

  /** Times not before `from` and never going back; a sample is handled when it is taken. */
  predicate OnTime(es: seq<Event>, from: int) {
    && (forall i :: 0 <= i < |es| ==>
          && (TimeOf(es[i]).Some? ==> TimeOf(es[i]).value >= from)
          && (es[i].Sampled? ==> es[i].sampledAt == es[i].now))
    && (forall i, j :: 0 <= i < j < |es| && TimeOf(es[i]).Some? && TimeOf(es[j]).Some? ==>
          TimeOf(es[i]).value <= TimeOf(es[j]).value)
  }

  lemma ThreeTimes(a: seq<Event>, b: seq<Event>, c: seq<Event>, r: int, s: int, t: int)
    requires QuietAt(a, r) && QuietAt(b, s) && QuietAt(c, t) && r <= s <= t
    ensures NoDelivery(a + b + c) && OnTime(a + b + c, r)
  {
    var es := a + b + c;
    forall i | 0 <= i < |es|
      ensures !es[i].Deliver?
      ensures TimeOf(es[i]).Some? ==>
                TimeOf(es[i]).value == if i < |a| then r else if i < |a| + |b| then s else t
      ensures es[i].Sampled? ==> es[i].sampledAt == es[i].now
    {
      if i < |a| {
        assert es[i] == a[i];
      } else if i < |a| + |b| {
        assert es[i] == b[i - |a|];
      } else {
        assert es[i] == c[i - |a| - |b|];
      }
    }
  }

  lemma RunFromNext(w: World, es: seq<Event>, e: Event)
    ensures RunFrom(w, es + [e]) == Step(RunFrom(w, es), e)
  {
    FoldNext(Step, w, es, e);
  }

  lemma RunFromAppend(w: World, es: seq<Event>, fs: seq<Event>)
    ensures RunFrom(w, es + fs) == RunFrom(RunFrom(w, es), fs)
  {
    FoldAppend(Step, w, es, fs);
  }

  lemma RunFromFirst(w: World, e: Event, es: seq<Event>)
    ensures RunFrom(w, [e] + es) == RunFrom(Step(w, e), es)
  {
    FoldFirst(Step, w, e, es);
  }

  lemma RunIsRunFrom(es: seq<Event>, fs: seq<Event>)
    ensures Run(es + fs) == RunFrom(Run(es), fs)
  {
    RunFromAppend(START, es, fs);
  }

  lemma {:induction false} RunFromRunsOk(w: World, es: seq<Event>)
    requires RunsOk(w.g)
    ensures RunsOk(RunFrom(w, es).g)
  {
    if es != [] {
      var n := |es| - 1;
      RunFromRunsOk(w, es[..n]);
      RunFromNext(w, es[..n], es[n]);
      assert es == es[..n] + [es[n]];
      StepRunsOk(RunFrom(w, es[..n]), es[n]);
    }
  }

  /** The `running` acknowledgement counts. */
  predicate Exposed(g: Governor, id: string, k: nat) {
    && Current(g, id) == Some(k)
    && var r := g.objects[k];
       !r.stopRequested && r.runningAcked > r.lastNonRunningSent && r.runningAcked > r.lastNonRunningAcked
  }

  /** A run the governor could stop, but for its executor, although the server has it as something else. */
  predicate Bait(w: World, id: string, k: nat) {
    Exposed(w.g, id, k) && w.g.objects[k].sentStatus == Some(Running) && LineOf(w, id).status != Some(Running)
  }

  // ----- the server comes to have the run as something else

  function Processings(id: string, n: nat): (es: seq<Event>)
    ensures |es| == n && forall i :: 0 <= i < n ==> es[i] == Process(id, true, true)
  {
    seq(n, _ => Process(id, true, true))
  }

  /** Processing the first `n` reports leaves the server with the status of the last of them. */
  lemma {:induction false} ProcessSome(w: World, id: string, n: nat)
    requires n <= |LineOf(w, id).queue|
    ensures var t := RunFrom(w, Processings(id, n));
            && t.g == w.g && LineOf(t, id).queue == LineOf(w, id).queue[n..]
            && LineOf(t, id).status == if n == 0 then LineOf(w, id).status else Some(LineOf(w, id).queue[n - 1].status)
  {
    if n > 0 {
      ProcessSome(w, id, n - 1);
      assert Processings(id, n)[..n - 1] == Processings(id, n - 1);
      var t := RunFrom(w, Processings(id, n - 1));
      assert Step(t, Process(id, true, true)) == RunFrom(w, Processings(id, n));
      assert LineOf(t, id).queue[0] == LineOf(w, id).queue[n - 1];
    }
  }

  /** A last `running` send makes the run look parkable again. */
  lemma SayRunning(w: World, id: string, k: nat)
    requires Exposed(w.g, id, k) && LineOf(w, id).status != Some(Running)
    ensures Bait(Step(w, Sent(id, Running)), id, k)
  {
  }

  /** A report that is not `running` waits at place `i`: process up to it. */
  lemma DisplaceByQueue(w: World, id: string, k: nat, i: nat, now: int) returns (es: seq<Event>)
    requires Exposed(w.g, id, k) && i < |LineOf(w, id).queue| && LineOf(w, id).queue[i].status != Running
    ensures QuietAt(es, now) && Bait(RunFrom(w, es), id, k)
  {
    ProcessSome(w, id, i + 1);
    var a := Processings(id, i + 1);
    SayRunning(RunFrom(w, a), id, k);
    RunFromNext(w, a, Sent(id, Running));
    es := a + [Sent(id, Running)];
  }

  /** The acknowledgement outranks the next send: send something else and process it. */
  lemma DisplaceBySend(w: World, id: string, k: nat, now: int) returns (es: seq<Event>)
    requires Exposed(w.g, id, k) && w.g.objects[k].runningAcked > w.g.objects[k].sentSeq + 1
    ensures QuietAt(es, now) && Bait(RunFrom(w, es), id, k)
  {
    var other := Sent(id, NotRunning(""));
    var t := Step(w, other);
    assert LineOf(t, id).queue == LineOf(w, id).queue + [Outgoing(w.g, id, NotRunning(""))];
    var fs := DisplaceByQueue(t, id, k, |LineOf(w, id).queue|, now);
    RunFromFirst(w, other, fs);
    es := [other] + fs;
  }

  lemma DisplacedAlready(w: World, id: string, k: nat, now: int) returns (es: seq<Event>)
    requires Exposed(w.g, id, k) && LineOf(w, id).status != Some(Running)
    ensures QuietAt(es, now) && Bait(RunFrom(w, es), id, k)
  {
    SayRunning(w, id, k);
    es := [Sent(id, Running)];
    RunFromFirst(w, Sent(id, Running), []);
    assert es == [Sent(id, Running)] + [];
  }

  lemma Displace(w: World, id: string, k: nat, now: int) returns (es: seq<Event>)
    requires Exposed(w.g, id, k) && Misleading(LineOf(w, id), w.g.objects[k], w.g.objects[k].runningAcked)
    ensures QuietAt(es, now) && Bait(RunFrom(w, es), id, k)
  {
    if w.g.objects[k].runningAcked > w.g.objects[k].sentSeq + 1 {
      es := DisplaceBySend(w, id, k, now);
    } else if LineOf(w, id).status != Some(Running) {
      es := DisplacedAlready(w, id, k, now);
    } else {
      var i :| 0 <= i < |LineOf(w, id).queue| && LineOf(w, id).queue[i].status != Running;
      es := DisplaceByQueue(w, id, k, i, now);
    }
  }

  // ----- the governor becomes free to select

  /** Out of its executor the run is not stopped by the selection under way. */
  predicate OutOfReach(w: World, id: string, k: nat) {
    Bait(w, id, k) && !w.g.objects[k].inExecutor
  }

  lemma MeasureSpares(g: Governor, k: nat, now: int)
    requires k < |g.objects| && !g.objects[k].inExecutor
    ensures var t := MeasureNext(g, None, now); t.runs == g.runs && k < |t.objects| && t.objects[k] == g.objects[k]
  {
    assert Measured(g, None).objects == g.objects;
  }

  lemma MeasureProgress(g: Governor, now: int)
    requires g.selection.Measuring?
    ensures var t := MeasureNext(g, None, now);
            t.selection.Measuring? ==>
              && t.selection.candidates == g.selection.candidates
              && g.selection.at < t.selection.at < |t.selection.candidates|
  {
  }

  lemma MeasureOnce(w: World, id: string, k: nat, now: int)
    requires OutOfReach(w, id, k) && w.g.selection.Measuring?
    ensures var t := Step(w, MeasuredOne(None, now));
            && OutOfReach(t, id, k)
            && (t.g.selection.Measuring? ==>
                  && t.g.selection.candidates == w.g.selection.candidates
                  && w.g.selection.at < t.g.selection.at < |t.g.selection.candidates|)
  {
    MeasureSpares(w.g, k, now);
    MeasureProgress(w.g, now);
  }

  /** The selection under way comes to its decision. */
  lemma {:induction false} FinishMeasuring(w: World, id: string, k: nat, now: int) returns (es: seq<Event>)
    requires OutOfReach(w, id, k)
    ensures QuietAt(es, now) && OutOfReach(RunFrom(w, es), id, k) && !RunFrom(w, es).g.selection.Measuring?
    decreases if w.g.selection.Measuring? && w.g.selection.at < |w.g.selection.candidates|
              then |w.g.selection.candidates| - w.g.selection.at + 1
              else if w.g.selection.Measuring? then 1 else 0
  {
    if w.g.selection.Measuring? {
      var e := MeasuredOne(None, now);
      MeasureOnce(w, id, k, now);
      var fs := FinishMeasuring(Step(w, e), id, k, now);
      RunFromFirst(w, e, fs);
      es := [e] + fs;
    } else {
      es := [];
    }
  }

  lemma FinishReclaiming(w: World, id: string, k: nat, now: int)
    requires OutOfReach(w, id, k) && !w.g.selection.Measuring?
    ensures var t := Step(w, Reclaimed(None, now)); OutOfReach(t, id, k) && t.g.selection.NotSelecting?
  {
  }

  lemma FreeSlot(w: World, id: string, k: nat, now: int)
    requires OutOfReach(w, id, k) && w.g.selection.NotSelecting? && now >= w.g.slots.stopRequestedAt + STOP_TIMEOUT_MS
    ensures var t := Step(w, Sampled(None, now, now));
            OutOfReach(t, id, k) && t.g.selection.NotSelecting? && t.g.slots.stopping.None?
  {
  }

  /** Only the next sample is missing. */
  predicate Ready(w: World, id: string, k: nat) {
    && Bait(w, id, k) && Parkable(w.g.objects[k]) && !w.g.objects[k].skipped
    && w.g.selection.NotSelecting? && w.g.slots.stopping.None?
  }

  lemma LeaveAndFinish(w: World, id: string, k: nat, now: int) returns (es: seq<Event>)
    requires Bait(w, id, k)
    ensures QuietAt(es, now) && OutOfReach(RunFrom(w, es), id, k) && RunFrom(w, es).g.selection.NotSelecting?
  {
    var e := Left(id, true, now);
    var fs := FinishMeasuring(Step(w, e), id, k, now);
    RunFromFirst(w, e, fs);
    var a := [e] + fs;
    FinishReclaiming(RunFrom(w, a), id, k, now);
    RunFromNext(w, a, Reclaimed(None, now));
    es := a + [Reclaimed(None, now)];
  }

  /** The stop under way is given up, and the run enters its executor again. */
  lemma MakeReady(w: World, id: string, k: nat, from: int) returns (es: seq<Event>, now: int)
    requires OutOfReach(w, id, k) && w.g.selection.NotSelecting?
    ensures now >= from && QuietAt(es, now) && Ready(RunFrom(w, es), id, k)
  {
    now := Later(from, Some(w.g.slots.stopRequestedAt + STOP_TIMEOUT_MS));
    var e := Sampled(None, now, now);
    FreeSlot(w, id, k, now);
    RunFromFirst(w, e, []);
    assert [e] + [] == [e];
    RunFromNext(w, [e], Entered(id));
    es := [e] + [Entered(id)];
  }

  // ----- the selection that stops it

  function Later(a: int, o: Option<int>): (t: int)
    ensures t >= a && (o.Some? ==> t >= o.value)
  {
    if o.Some? && o.value > a then o.value else a
  }

  /** A time not before `from`, after everything the governor compares a sample with. */
  function Enough(s: Slots, from: int): (t: int)
    ensures t >= from && Fresh(s.lastStopEnded, t) && Fresh(s.lastReclaimEnded, t)
    ensures s.lastSelection.Some? ==> t - s.lastSelection.value >= SELECT_INTERVAL_MS
  {
    Later(Later(Later(from, s.lastStopEnded), s.lastReclaimEnded), s.lastSelection) + SELECT_INTERVAL_MS
  }

  /** The first `at` candidates weigh nothing, except the one at `p`, which weighs one byte. */
  predicate Weighed(g: Governor, p: nat) {
    && g.selection.Measuring? && p < |g.selection.candidates| && g.selection.at < |g.selection.candidates|
    && DistinctObjects(g.selection.candidates)
    && (forall i :: 0 <= i < |g.selection.candidates| ==> g.selection.candidates[i].1 < |g.objects|)
    && (forall j :: 0 <= j < g.selection.at ==>
          Bytes(g.objects, g.selection.candidates[j].1) == if j == p then 1 else 0)
    && g.selection.pick == if g.selection.at > p then Some(p) else None
  }

  function Weight(g: Governor, p: nat): Option<nat>
    requires g.selection.Measuring?
  {
    Some(if g.selection.at == p then 1 else 0)
  }

  predicate Selected(w: World, id: string, k: nat, p: nat) {
    && Bait(w, id, k) && Parkable(w.g.objects[k]) && Weighed(w.g, p) && w.g.selection.candidates[p] == (id, k)
  }

  lemma IsCandidate(g: Governor, id: string, k: nat) returns (p: nat)
    requires RunsOk(g) && Current(g, id) == Some(k) && !g.objects[k].stopRequested && !g.objects[k].skipped
    ensures var cs := Candidates(g.objects, g.runs);
            && p < |cs| && cs[p] == (id, k) && DistinctObjects(cs)
            && forall i :: 0 <= i < |cs| ==> cs[i].1 < |g.objects|
  {
    var cs := Candidates(g.objects, g.runs);
    RunsDistinct(g);
    CandidatesDistinct(g.objects, g.runs);
    CandidatesExactly(g.objects, g.runs, (id, k));
    p :| 0 <= p < |cs| && cs[p] == (id, k);
    forall i | 0 <= i < |cs| ensures cs[i].1 < |g.objects| { assert cs[i] in cs; }
  }

  lemma SampleStarts(g: Governor, from: int, now: int)
    requires g.selection.NotSelecting? && g.slots.stopping.None? && now == Enough(g.slots, from)
    requires Candidates(g.objects, g.runs) != []
    ensures Observe(g, Some(true), now, now) == g.(selection := Measuring(Candidates(g.objects, g.runs), 0, None, now))
  {
  }

  lemma StartSelection(w: World, id: string, k: nat, from: int, now: int) returns (p: nat)
    requires Ready(w, id, k) && RunsOk(w.g) && now == Enough(w.g.slots, from)
    ensures Selected(Step(w, Sampled(Some(true), now, now)), id, k, p)
  {
    p := IsCandidate(w.g, id, k);
    SampleStarts(w.g, from, now);
  }

  /** One more candidate is weighed; the rest of the run's state stays. */
  lemma WeighOne(g: Governor, p: nat)
    requires Weighed(g, p)
    ensures var t := Measured(g, Weight(g, p));
            && t.selection.Measuring? && t.selection.candidates == g.selection.candidates
            && t.selection.at == g.selection.at + 1 && t.runs == g.runs
            && (t.selection.at < |t.selection.candidates| ==> Weighed(t, p))
            && (t.selection.at == |t.selection.candidates| ==> t.selection.pick == Some(p))
            && |t.objects| == |g.objects|
            && forall k :: 0 <= k < |g.objects| ==> t.objects[k] == g.objects[k].(cacheBytes := t.objects[k].cacheBytes)
  {
    var t := Measured(g, Weight(g, p));
    var cs, at := g.selection.candidates, g.selection.at;
    assert forall j :: 0 <= j < at ==> Bytes(t.objects, cs[j].1) == Bytes(g.objects, cs[j].1);
  }

  /** Weighing the remaining candidates ends in the stop. */
  lemma {:induction false} FinishSelection(w: World, id: string, k: nat, p: nat, now: int)
    returns (es: seq<Event>, reading: Option<nat>)
    requires Selected(w, id, k, p)
    ensures QuietAt(es, now) && WrongfulStop(RunFrom(w, es), reading)
    ensures Chosen(Measured(RunFrom(w, es).g, reading)) == Some((id, k))
    decreases |w.g.selection.candidates| - w.g.selection.at
  {
    WeighOne(w.g, p);
    reading := Weight(w.g, p);
    if w.g.selection.at + 1 == |w.g.selection.candidates| {
      es := [];
    } else {
      var e := MeasuredOne(reading, now);
      assert Selected(Step(w, e), id, k, p);
      var fs;
      fs, reading := FinishSelection(Step(w, e), id, k, p, now);
      RunFromFirst(w, e, fs);
      es := [e] + fs;
    }
  }

  lemma ReadyStops(w: World, id: string, k: nat, from: int) returns (es: seq<Event>, reading: Option<nat>, now: int)
    requires RunsOk(w.g) && Ready(w, id, k)
    ensures now >= from && QuietAt(es, now) && WrongfulStop(RunFrom(w, es), reading)
    ensures Chosen(Measured(RunFrom(w, es).g, reading)) == Some((id, k))
  {
    now := Enough(w.g.slots, from);
    var p := StartSelection(w, id, k, from, now);
    var start := Sampled(Some(true), now, now);
    var fs;
    fs, reading := FinishSelection(Step(w, start), id, k, p, now);
    RunFromFirst(w, start, fs);
    es := [start] + fs;
  }

  // ----- the exact condition

  lemma DisplaceAndFinish(w: World, id: string, k: nat, now: int) returns (es: seq<Event>)
    requires Exposed(w.g, id, k) && Misleading(LineOf(w, id), w.g.objects[k], w.g.objects[k].runningAcked)
    ensures QuietAt(es, now) && OutOfReach(RunFrom(w, es), id, k) && RunFrom(w, es).g.selection.NotSelecting?
  {
    var a := Displace(w, id, k, now);
    var b := LeaveAndFinish(RunFrom(w, a), id, k, now);
    RunFromAppend(w, a, b);
    es := a + b;
  }

  /** From a misled governor in any state, at any time. */
  lemma MisledStops(w: World, id: string, k: nat, from: int) returns (es: seq<Event>, reading: Option<nat>)
    requires RunsOk(w.g) && Exposed(w.g, id, k)
    requires Misleading(LineOf(w, id), w.g.objects[k], w.g.objects[k].runningAcked)
    ensures NoDelivery(es) && OnTime(es, from) && WrongfulStop(RunFrom(w, es), reading)
    ensures Chosen(Measured(RunFrom(w, es).g, reading)) == Some((id, k))
  {
    var a := DisplaceAndFinish(w, id, k, from);
    var b, s := MakeReady(RunFrom(w, a), id, k, from);
    RunFromAppend(w, a, b);
    RunFromRunsOk(w, a + b);
    var c, t;
    c, reading, t := ReadyStops(RunFrom(w, a + b), id, k, s);
    RunFromAppend(w, a + b, c);
    ThreeTimes(a, b, c, from, s, t);
    es := a + b + c;
  }

  /** After any harmful delivery, in any run, some continuation without a delivery ends in a stop of
      that registration although the server does not have the run as `running`. Its times go on from
      any given one. */
  lemma HarmLeadsToStop(es: seq<Event>, e: Event, from: int) returns (fs: seq<Event>, reading: Option<nat>)
    requires Harmful(Run(es), e)
    ensures NoDelivery(fs) && OnTime(fs, from) && WrongfulStop(Run(es + [e] + fs), reading)
    ensures Chosen(Measured(Run(es + [e] + fs).g, reading)) == Some((e.id, Current(Run(es).g, e.id).value))
  {
    RunNext(es, e);
    RunShaped(es + [e]);
    HarmExposes(Run(es), e);
    fs, reading := MisledStops(Run(es + [e]), e.id, Current(Run(es).g, e.id).value, from);
    RunIsRunFrom(es + [e], fs);
  }

  lemma HarmExposes(w: World, e: Event)
    requires Harmful(w, e)
    ensures var t := Step(w, e);
            var k := Current(w.g, e.id).value;
            && Exposed(t.g, e.id, k)
            && Misleading(LineOf(t, e.id), t.g.objects[k], t.g.objects[k].runningAcked)
  {
  }

  lemma {:induction false} StaysHarmless(es: seq<Event>, fs: seq<Event>)
    requires HarmlessRun(es) && NoDelivery(fs)
    ensures HarmlessRun(es + fs)
  {
    if fs == [] {
      assert es + fs == es;
    } else {
      var n := |fs| - 1;
      StaysHarmless(es, fs[..n]);
      assert (es + fs)[..|es + fs| - 1] == es + fs[..n];
    }
  }

  ghost predicate CanStopWrongly(es: seq<Event>) {
    exists fs, reading :: NoDelivery(fs) && WrongfulStop(Run(es + fs), reading)
  }

  ghost predicate CanStopWronglyFrom(es: seq<Event>, from: int) {
    exists fs, reading :: NoDelivery(fs) && OnTime(fs, from) && WrongfulStop(Run(es + fs), reading)
  }

  /** A delivery is harmful exactly when it is what makes a wrongful stop possible: a harmful one does
      so on every clock that goes on from some time, any other on none at all. */
  lemma HarmfulExactly(es: seq<Event>, e: Event, from: int)
    requires HarmlessRun(es)
    ensures !CanStopWrongly(es)
    ensures CanStopWrongly(es + [e]) <==> Harmful(Run(es), e)
    ensures CanStopWronglyFrom(es + [e], from) <==> Harmful(Run(es), e)
  {
    SafeWithoutDelivery(es);
    if Harmful(Run(es), e) {
      var fs, reading := HarmLeadsToStop(es, e, from);
      assert NoDelivery(fs) && WrongfulStop(Run(es + [e] + fs), reading);
    } else {
      assert (es + [e])[..|es + [e]| - 1] == es;
      SafeWithoutDelivery(es + [e]);
    }
  }

  lemma SafeWithoutDelivery(es: seq<Event>)
    requires HarmlessRun(es)
    ensures !CanStopWrongly(es)
  {
    forall fs, reading | NoDelivery(fs) ensures !WrongfulStop(Run(es + fs), reading) {
      StaysHarmless(es, fs);
      StopOnlyRunning(es + fs, reading);
    }
  }
}
