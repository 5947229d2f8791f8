/** The hard layer of the disk governor: which run it stops under disk pressure, and when. A report
    and its acknowledgement travel separately, so whether a run may be stopped is judged from send
    numbers and from the acknowledgements that have arrived. */
module DiskGovernor {
  import opened Options
  import opened OrderedMap

  const STOP_TIMEOUT_MS: nat := 10 * 60 * 1000
  const SELECT_INTERVAL_MS: nat := 60 * 1000

  datatype Status = Running | NotRunning(name: string)

  /** One registration of a run. Registering the run again makes a new object. */
  datatype RunState = RunState(
    cacheBytes: Option<nat>, inExecutor: bool, sentStatus: Option<Status>, sentSeq: nat, lastNonRunningSent: nat,
    runningAcked: nat, lastNonRunningAcked: nat, stopRequested: bool, skipped: bool)

  const NEW_RUN := RunState(None, false, None, 0, 0, 0, 0, false, false)

  type Candidate = (string, nat)

  /** The hard layer's selection: measuring the candidates one by one, or dropping the caches of a
      run that cannot be parked. `pick` indexes the candidates. */
  datatype Selection =
    | NotSelecting
    | Measuring(candidates: seq<Candidate>, at: nat, pick: Option<nat>, sampledAt: int)
    | Reclaiming(id: string, run: nat)

  /** `None` is the time before any. */
  datatype Slots = Slots(stopping: Option<string>, stopRequestedAt: int, lastStopEnded: Option<int>,
                         lastReclaimEnded: Option<int>, lastSelection: Option<int>)

  /** The objects ever made, and the one currently registered under each run id. */
  datatype Governor = Governor(objects: seq<RunState>, runs: seq<Candidate>, slots: Slots, selection: Selection)

  const IDLE := Governor([], [], Slots(None, 0, None, None, None), NotSelecting)

  predicate Parkable(r: RunState) {
    && r.inExecutor && r.sentStatus == Some(Running)
    && r.runningAcked > r.lastNonRunningSent && r.runningAcked > r.lastNonRunningAcked
  }

  /** The object registered under the run id. */
  function Current(g: Governor, id: string): (r: Option<nat>)
    ensures r.Some? ==> r.value < |g.objects|
  {
    var k := Find<nat>(g.runs, id);
    if k.Some? && k.value < |g.objects| then k else None
  }

  function Update(g: Governor, k: nat, r: RunState): Governor
    requires k < |g.objects|
  {
    g.(objects := g.objects[k := r])
  }

  function Register(g: Governor, id: string): Governor {
    g.(objects := g.objects + [NEW_RUN], runs := Put<nat>(g.runs, id, |g.objects|))
  }

  function EnterRun(g: Governor, id: string): Governor {
    var k := Current(g, id);
    if k.None? then g else Update(g, k.value, g.objects[k.value].(inExecutor := true, skipped := false))
  }

  function Requested(r: RunState, status: Status): RunState {
    r.(sentStatus := Some(status), sentSeq := r.sentSeq + 1,
       lastNonRunningSent := if status == Running then r.lastNonRunningSent else r.sentSeq + 1,
       skipped := r.skipped && r.sentStatus == Some(status))
  }

  function StatusRequested(g: Governor, id: string, status: Status): Governor {
    var k := Current(g, id);
    if k.None? then g else Update(g, k.value, Requested(g.objects[k.value], status))
  }

  function Acked(r: RunState, seqNo: nat, status: Option<Status>): RunState {
    if status != Some(Running)
    then r.(lastNonRunningAcked := if seqNo > r.lastNonRunningAcked then seqNo else r.lastNonRunningAcked)
    else if seqNo <= r.runningAcked then r
    else
      var t := r.(runningAcked := seqNo);
      t.(skipped := t.skipped && !Parkable(t))
  }

  function StatusAcked(g: Governor, id: string, seqNo: nat, status: Option<Status>): Governor {
    var k := Current(g, id);
    if k.None? then g else Update(g, k.value, Acked(g.objects[k.value], seqNo, status))
  }

  function ReleaseStop(g: Governor, now: int): Governor {
    g.(slots := g.slots.(stopping := None, lastStopEnded := Some(now)))
  }

  function Unregister(g: Governor, id: string, now: int): Governor {
    if Find<nat>(g.runs, id).None? then g
    else
      var t := g.(runs := Drop<nat>(g.runs, id));
      if g.slots.stopping == Some(id) then ReleaseStop(t, now) else t
  }

  function LeftLoop(g: Governor, id: string, diskParked: bool, now: int): Governor {
    var k := Current(g, id);
    var t := if k.None? then g else Update(g, k.value, g.objects[k.value].(inExecutor := false, skipped := false));
    if g.slots.stopping == Some(id) && !diskParked then ReleaseStop(t, now) else t
  }

  predicate Fresh(o: Option<int>, sampledAt: int) {
    o.None? || sampledAt >= o.value
  }

  /** A stop that produced no park in time is given up. */
  function GiveUp(g: Governor, now: int): Governor {
    if g.slots.stopping.Some? && now - g.slots.stopRequestedAt >= STOP_TIMEOUT_MS then ReleaseStop(g, now) else g
  }

  predicate Held(runs: seq<Candidate>, k: nat) {
    exists i :: 0 <= i < |runs| && runs[i].1 == k
  }

  function Unskip(objects: seq<RunState>, runs: seq<Candidate>): (r: seq<RunState>)
    ensures |r| == |objects|
    ensures forall i :: 0 <= i < |r| ==> r[i] == objects[i] || r[i] == objects[i].(skipped := false)
  {
    seq(|objects|, i requires 0 <= i < |objects| => if Held(runs, i) then objects[i].(skipped := false) else objects[i])
  }

  function Candidates(objects: seq<RunState>, runs: seq<Candidate>): (r: seq<Candidate>)
    ensures forall c :: c in r ==> c in runs && c.1 < |objects| && !objects[c.1].stopRequested
  {
    if runs == [] then []
    else
      var n := |runs| - 1;
      Candidates(objects, runs[..n])
      + (if runs[n].1 < |objects| && !objects[runs[n].1].stopRequested && !objects[runs[n].1].skipped then [runs[n]]
          else [])
  }

  /** One stats sample: `over` is `None` when the volume is unreadable. */
  function Observe(g: Governor, over: Option<bool>, sampledAt: int, now: int): Governor {
    var t := GiveUp(g, now);
    if over.None? || !Fresh(t.slots.lastStopEnded, sampledAt) || !Fresh(t.slots.lastReclaimEnded, sampledAt) then t
    else if !over.value then t.(objects := Unskip(t.objects, t.runs), slots := t.slots.(lastSelection := None))
    else if t.slots.stopping.Some? || !t.selection.NotSelecting? then t
    else if t.slots.lastSelection.Some? && now - t.slots.lastSelection.value < SELECT_INTERVAL_MS then t
    else
      var cs := Candidates(t.objects, t.runs);
      if cs == [] then t else t.(selection := Measuring(cs, 0, None, sampledAt))
  }

  function Bytes(objects: seq<RunState>, k: nat): nat {
    if k < |objects| && objects[k].cacheBytes.Some? then objects[k].cacheBytes.value else 0
  }

  function PickBytes(objects: seq<RunState>, cs: seq<Candidate>, pick: Option<nat>): nat {
    if pick.Some? && pick.value < |cs| then Bytes(objects, cs[pick.value].1) else 0
  }

  function SelectNothing(g: Governor, now: int): Governor {
    g.(selection := NotSelecting, slots := g.slots.(lastSelection := Some(now)))
  }

  predicate WillStop(g: Governor, c: Candidate) {
    c.1 < |g.objects| && Find<nat>(g.runs, c.0) == Some(c.1) && !g.objects[c.1].stopRequested
        && Parkable(g.objects[c.1])
  }

  /** Decided after the last measurement, from the picked run's state now. */
  function Conclude(g: Governor, c: Candidate, now: int): Governor {
    if WillStop(g, c) then
      Governor(g.objects[c.1 := g.objects[c.1].(stopRequested := true)], g.runs,
               g.slots.(stopping := Some(c.0), stopRequestedAt := now), NotSelecting)
    else if c.1 >= |g.objects| || Find<nat>(g.runs, c.0) != Some(c.1) || g.objects[c.1].stopRequested
        then SelectNothing(g, now)
    else g.(selection := Reclaiming(c.0, c.1))
  }

  /** One candidate was measured; a failed measurement leaves its last reading. */
  function Measured(g: Governor, reading: Option<nat>): Governor {
    if !g.selection.Measuring? || g.selection.at >= |g.selection.candidates| then g
    else
      var s := g.selection;
      var k := s.candidates[s.at].1;
      var objects := if reading.Some? && k < |g.objects| then g.objects[k := g.objects[k].(cacheBytes := reading)]
          else g.objects;
      var larger := Bytes(objects, k) > PickBytes(objects, s.candidates, s.pick);
      g.(objects := objects, selection := s.(at := s.at + 1, pick := if larger then Some(s.at) else s.pick))
  }

  /** The candidate a finished selection acts on. */
  function Chosen(g: Governor): Option<Candidate> {
    if g.selection.Measuring? && g.selection.at == |g.selection.candidates| && g.selection.pick.Some?
       && g.selection.pick.value < |g.selection.candidates|
    then Some(g.selection.candidates[g.selection.pick.value]) else None
  }

  function MeasureNext(g: Governor, reading: Option<nat>, now: int): Governor {
    var t := Measured(g, reading);
    if !t.selection.Measuring? || t.selection.at < |t.selection.candidates| then t
    else if Chosen(t).Some? then Conclude(t, Chosen(t).value, now)
    else SelectNothing(t, now)
  }

  /** The in-place drop ended; `left` is what the run still holds, if it could be measured. */
  function ReclaimEnded(g: Governor, left: Option<nat>, now: int): Governor {
    if !g.selection.Reclaiming? then g
    else
      var k := g.selection.run;
      var objects :=
        if k < |g.objects|
        then g.objects[k := g.objects[k].(cacheBytes := if left.Some? then left else g.objects[k].cacheBytes,
                                          skipped := g.objects[k].skipped || left != Some(0))]
        else g.objects;
      Governor(objects, g.runs, g.slots.(lastReclaimEnded := Some(now)), NotSelecting)
  }

  /** The soft layer measured a run at a turn boundary. It holds on to the object it began with, so
      its reading may land at any time later, on an object no longer registered too. */
  function BoundaryReads(g: Governor, k: nat, bytes: nat): Governor {
    if k >= |g.objects| then g else Update(g, k, g.objects[k].(cacheBytes := Some(bytes)))
  }

  // ----- acknowledgements in any order

  type AckedSend = (nat, Option<Status>)

  function AckAll(r: RunState, acks: seq<AckedSend>): RunState {
    if acks == [] then r
    else var n := |acks| - 1; Acked(AckAll(r, acks[..n]), acks[n].0, acks[n].1)
  }

  /** Both marks are maxima over what has arrived. */
  lemma {:induction false} AckAllMarks(r: RunState, acks: seq<AckedSend>)
    ensures var t := AckAll(r, acks);
            && t.inExecutor == r.inExecutor && t.sentStatus == r.sentStatus
                  && t.lastNonRunningSent == r.lastNonRunningSent
            && (t.runningAcked == r.runningAcked || (t.runningAcked, Some(Running)) in acks)
            && (t.lastNonRunningAcked == r.lastNonRunningAcked
                || exists a :: a in acks && a.0 == t.lastNonRunningAcked && a.1 != Some(Running))
            && t.runningAcked >= r.runningAcked && t.lastNonRunningAcked >= r.lastNonRunningAcked
            && forall a :: a in acks ==> a.0 <= if a.1 == Some(Running) then t.runningAcked else t.lastNonRunningAcked
  {
    if acks != [] {
      var n := |acks| - 1;
      AckAllMarks(r, acks[..n]);
      assert acks == acks[..n] + [acks[n]];
      assert forall a :: a in acks[..n] ==> a in acks;
    }
  }

  /** `n` is acknowledged as `running` and no other status is as new. */
  predicate Counts(r: RunState, acks: seq<AckedSend>, n: nat) {
    && (n == r.runningAcked || (n, Some(Running)) in acks) && n > r.lastNonRunningSent && n > r.lastNonRunningAcked
    && forall a :: a in acks && a.1 != Some(Running) ==> a.0 < n
  }

  /** Whatever order the acknowledgements arrive in, and however often, the run is parkable exactly
      when one of them counts. */
  lemma ParkableExactly(r: RunState, acks: seq<AckedSend>)
    ensures Parkable(AckAll(r, acks)) <==>
            r.inExecutor && r.sentStatus == Some(Running) && exists n: nat :: Counts(r, acks, n)
  {
    var t := AckAll(r, acks);
    AckAllMarks(r, acks);
    if Parkable(t) {
      assert Counts(r, acks, t.runningAcked);
    }
    if exists n: nat :: Counts(r, acks, n) {
      var n: nat :| Counts(r, acks, n);
      assert (n, Some(Running)) in acks ==> n <= t.runningAcked;
      assert t.runningAcked >= n;
    }
  }
}
