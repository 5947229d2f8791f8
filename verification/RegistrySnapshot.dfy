/** Building a snapshot: the live entries, the capped and rotating pending entries, and the
    overflow flag that protects whatever is not listed. */
module RegistrySnapshot {
  import opened OrderedMap
  import opened RegistryTypes
  import opened RegistryOrder
  import opened RegistryProjection

  datatype ActiveEntry = ActiveEntry(runId: string, generation: int, phase: Phase, terminalPending: bool)

  datatype Snapshot = Snapshot(epoch: nat, active: seq<ActiveEntry>, overflow: bool)

  /** What the server and the disk say at the time of a build. */
  datatype Inputs = Inputs(ps: seq<Outcome>, cap: nat, covered: bool)

  function Min(a: nat, b: nat): nat {
    if a < b then a else b
  }

  /** Runs that carry any outcome the snapshot must not contradict. */
  function SourceIds(ps: seq<Outcome>): set<string> {
    set i | 0 <= i < |ps| && (IsPolicy(ps[i]) || !ps[i].notOwned) :: ps[i].runId
  }

  function LiveEntries(runs: seq<(string, Entry)>, excluded: set<string>): (r: seq<ActiveEntry>)
    ensures forall e :: e in r ==> !e.terminalPending && e.runId !in excluded
  {
    if runs == [] then []
    else
      var n := |runs| - 1;
      var e := runs[n].1;
      LiveEntries(runs[..n], excluded)
      + (if e.pendingOnly || runs[n].0 in excluded then []
         else [ActiveEntry(runs[n].0, e.generation, e.phase, false)])
  }

  function PendingEntries(q: seq<Outcome>): (r: seq<ActiveEntry>)
    ensures |r| == |q|
    ensures forall i :: 0 <= i < |q| ==>
              r[i] == ActiveEntry(q[i].runId, q[i].generation, ToSnapshotPhase(q[i].phase), true)
  {
    seq(|q|, i requires 0 <= i < |q| => ActiveEntry(q[i].runId, q[i].generation, ToSnapshotPhase(q[i].phase), true))
  }

  function Room(live: nat): nat {
    if live < MAX_WIRE_ENTRIES then MAX_WIRE_ENTRIES - live else 0
  }

  // ----- selection

  function IdsOf(q: seq<Outcome>): set<string> {
    set i | 0 <= i < |q| :: q[i].runId
  }

  function Outside(q: seq<Outcome>, ids: set<string>): seq<Outcome> {
    if q == [] then []
    else
      var n := |q| - 1;
      Outside(q[..n], ids) + (if q[n].runId in ids then [] else [q[n]])
  }

  lemma {:induction false} OutsideMembers(q: seq<Outcome>, ids: set<string>, p: Outcome)
    ensures p in Outside(q, ids) <==> p in q && p.runId !in ids
  {
    if q != [] {
      OutsideMembers(q[..|q| - 1], ids, p);
      assert q == q[..|q| - 1] + [q[|q| - 1]];
    }
  }

  /** The entries every overflowing snapshot lists. */
  function Fixed(q: seq<Outcome>, cap: nat): seq<Outcome>
    requires 0 < cap <= |q|
  {
    Sort(BlockedFirst, q)[..cap - 1]
  }

  /** The entries that take turns in the last slot. */
  function Omitted(q: seq<Outcome>, cap: nat): seq<Outcome>
    requires 0 < cap <= |q|
  {
    Sort(OldestFirst, Outside(q, IdsOf(Fixed(q, cap))))
  }

  predicate Rotates(q: seq<Outcome>, cap: nat) {
    0 < cap < |q| && Omitted(q, cap) != []
  }

  /** The fixed entries and the one whose turn it is. */
  function WithTurn(fixed: seq<Outcome>, omitted: seq<Outcome>, rotation: nat): (r: seq<Outcome>)
    ensures |r| <= |fixed| + 1
  {
    fixed + (if omitted == [] then [] else [omitted[rotation % |omitted|]])
  }

  function Select(q: seq<Outcome>, cap: nat, rotation: nat): (r: seq<Outcome>)
    ensures |r| <= cap
  {
    if q == [] || cap == 0 then []
    else if |q| <= cap then Sort(BlockedFirst, q)
    else WithTurn(Fixed(q, cap), Omitted(q, cap), rotation)
  }

  function Live(r: Registry, ps: seq<Outcome>): seq<ActiveEntry> {
    LiveEntries(r.runs, SourceIds(ps))
  }

  function Slots(r: Registry, i: Inputs): nat {
    Min(i.cap, Room(|Live(r, i.ps)|))
  }

  function Leased(r: Registry, i: Inputs): seq<Outcome> {
    Project(r, i.ps).leases
  }

  function SnapshotOf(r: Registry, i: Inputs): Snapshot {
    var ps := i.ps;
    Snapshot(r.epoch + 1,
             Live(r, ps) + PendingEntries(Select(Leased(r, i), Slots(r, i), r.rotation)),
             !i.covered || Project(r, ps).unknown || |Leased(r, i)| > Slots(r, i))
  }

  function Pruned(r: Registry, ps: seq<Outcome>): Registry {
    r.(ownership := Prune(r.ownership, Groups(ps, r.runs)))
  }

  function AfterBuild(r: Registry, i: Inputs): Registry {
    Pruned(r, i.ps).(epoch := r.epoch + 1,
                       rotation := if Rotates(Leased(r, i), Slots(r, i)) then r.rotation + 1 else r.rotation)
  }

  /** The local claim gate of an unscoped worker. */
  predicate ClaimsPaused(r: Registry, ps: seq<Outcome>, cap: nat) {
    Project(r, ps).unknown || |Project(r, ps).leases| > cap
  }

  // ----- what a selection contains

  lemma SelectMembers(q: seq<Outcome>, cap: nat, rotation: nat, p: Outcome)
    requires p in Select(q, cap, rotation)
    ensures p in q
  {
    if 0 < cap {
      SortMembers(BlockedFirst, q, p);
      if |q| > cap {
        var fixed := Fixed(q, cap);
        SortMembers(OldestFirst, Outside(q, IdsOf(fixed)), p);
        OutsideMembers(q, IdsOf(fixed), p);
        if p in fixed { assert p in Sort(BlockedFirst, q); }
      }
    }
  }

  lemma SelectAll(q: seq<Outcome>, cap: nat, rotation: nat, p: Outcome)
    requires |q| <= cap && p in q
    ensures p in Select(q, cap, rotation)
  {
    SortMembers(BlockedFirst, q, p);
  }

  ghost predicate Listed(s: Snapshot, id: string) {
    ListedAs(s.active, id, true)
  }

  ghost predicate ListedLive(s: Snapshot, id: string) {
    ListedAs(s.active, id, false)
  }

  ghost predicate ListedAs(active: seq<ActiveEntry>, id: string, pending: bool) {
    exists i :: 0 <= i < |active| && active[i].runId == id && active[i].terminalPending == pending
  }

  lemma PendingPart(live: seq<ActiveEntry>, q: seq<Outcome>, id: string)
    requires forall e :: e in live ==> !e.terminalPending
    ensures ListedAs(live + PendingEntries(q), id, true) <==> Leases(q, id)
    ensures ListedAs(live + PendingEntries(q), id, false) <==> ListedAs(live, id, false)
  {
    var active := live + PendingEntries(q);
    assert forall i :: 0 <= i < |live| ==> active[i] == live[i] && live[i] in live;
    assert forall i :: 0 <= i < |q| ==> active[|live| + i] == PendingEntries(q)[i];
    assert forall i :: |live| <= i < |active| ==> active[i] == PendingEntries(q)[i - |live|];
  }

  lemma SelectedListed(r: Registry, i: Inputs, id: string)
    ensures Listed(SnapshotOf(r, i), id) <==> Leases(Select(Leased(r, i), Slots(r, i), r.rotation), id)
    ensures ListedLive(SnapshotOf(r, i), id) <==> ListedAs(Live(r, i.ps), id, false)
  {
    PendingPart(Live(r, i.ps), Select(Leased(r, i), Slots(r, i), r.rotation), id);
  }

  /** No pending outcome goes unprotected: a run with a leasable ordinary outcome, or a policy group
      that is not positively ineligible, is listed, or the snapshot sets its overflow flag. */
  lemma PendingIsProtected(r: Registry, i: Inputs, id: string)
    requires NeedsProtection(r, i.ps, id)
    ensures Listed(SnapshotOf(r, i), id) || SnapshotOf(r, i).overflow
  {
    ProjectProtects(r, i.ps, id);
    if !SnapshotOf(r, i).overflow {
      var q := Leased(r, i);
      var k :| 0 <= k < |q| && q[k].runId == id;
      SelectAll(q, Slots(r, i), r.rotation, q[k]);
      SelectedListed(r, i, id);
    }
  }

  /** And nothing else is listed as pending. */
  lemma ListedNeedsProtection(r: Registry, i: Inputs, id: string)
    requires Listed(SnapshotOf(r, i), id)
    ensures NeedsProtection(r, i.ps, id)
  {
    SelectedListed(r, i, id);
    var q := Select(Leased(r, i), Slots(r, i), r.rotation);
    var k :| 0 <= k < |q| && q[k].runId == id;
    SelectMembers(Leased(r, i), Slots(r, i), r.rotation, q[k]);
    ProjectOnly(r, i.ps, q[k]);
  }

  lemma {:induction false} LiveSkipsPendingOnly(runs: seq<(string, Entry)>, excluded: set<string>, k: nat)
    requires Distinct(runs) && k < |runs| && runs[k].1.pendingOnly
    ensures forall e :: e in LiveEntries(runs, excluded) ==> e.runId != runs[k].0
  {
    LiveIds(runs, excluded);
  }

  lemma {:induction false} LiveIds(runs: seq<(string, Entry)>, excluded: set<string>)
    requires Distinct(runs)
    ensures forall e :: e in LiveEntries(runs, excluded) ==>
              exists k :: 0 <= k < |runs| && runs[k].0 == e.runId && !runs[k].1.pendingOnly
  {
    if runs != [] {
      var n := |runs| - 1;
      LiveIds(runs[..n], excluded);
      forall e | e in LiveEntries(runs, excluded)
        ensures exists k :: 0 <= k < |runs| && runs[k].0 == e.runId && !runs[k].1.pendingOnly
      {
        if e in LiveEntries(runs[..n], excluded) {
          var k :| 0 <= k < n && runs[..n][k].0 == e.runId && !runs[..n][k].1.pendingOnly;
          assert runs[k] == runs[..n][k];
        }
      }
    }
  }

  lemma LeaseNotLive(r: Registry, ps: seq<Outcome>, p: Outcome)
    requires Distinct(r.runs) && p in Project(r, ps).leases
    ensures forall e :: e in Live(r, ps) ==> e.runId != p.runId
  {
    ProjectOnly(r, ps, p);
    if p in Leasable(Ordinaries(ps)) {
      LeasableMembers(Ordinaries(ps), p);
      OrdinariesMembers(ps, p);
      var i :| 0 <= i < |ps| && ps[i] == p;
      assert p.runId in SourceIds(ps);
    } else {
      GroupsMembers(ps, r.runs, p.runId);
      if i :| 0 <= i < |ps| && IsPolicy(ps[i]) && ps[i].runId == p.runId {
        assert p.runId in SourceIds(ps);
      } else {
        var k :| 0 <= k < |r.runs| && r.runs[k].0 == p.runId && r.runs[k].1.pendingOnly;
        LiveSkipsPendingOnly(r.runs, SourceIds(ps), k);
      }
    }
  }

  /** No run is listed both live and pending. */
  lemma NeverBoth(r: Registry, i: Inputs, id: string)
    requires Distinct(r.runs)
    ensures !(Listed(SnapshotOf(r, i), id) && ListedLive(SnapshotOf(r, i), id))
  {
    SelectedListed(r, i, id);
    var q := Select(Leased(r, i), Slots(r, i), r.rotation);
    if Leases(q, id) {
      var k :| 0 <= k < |q| && q[k].runId == id;
      SelectMembers(Leased(r, i), Slots(r, i), r.rotation, q[k]);
      LeaseNotLive(r, i.ps, q[k]);
      var live := Live(r, i.ps);
      assert forall j :: 0 <= j < |live| ==> live[j] in live;
    }
  }

  function CountPending(active: seq<ActiveEntry>): nat {
    if active == [] then 0
    else CountPending(active[..|active| - 1]) + (if active[|active| - 1].terminalPending then 1 else 0)
  }

  lemma {:induction false} CountLive(active: seq<ActiveEntry>)
    requires forall e :: e in active ==> !e.terminalPending
    ensures CountPending(active) == 0
  {
    if active != [] {
      assert active[|active| - 1] in active;
      CountLive(active[..|active| - 1]);
    }
  }

  lemma {:induction false} CountConcat(a: seq<ActiveEntry>, b: seq<ActiveEntry>)
    requires forall i :: 0 <= i < |b| ==> b[i].terminalPending
    ensures CountPending(a + b) == CountPending(a) + |b|
  {
    if b == [] {
      assert a + b == a;
    } else {
      var n := |b| - 1;
      CountConcat(a, b[..n]);
      assert (a + b)[..|a + b| - 1] == a + b[..n];
    }
  }

  /** The pending entries never exceed the server's cap nor the room the live entries leave. */
  lemma PendingWithinCap(r: Registry, i: Inputs)
    ensures CountPending(SnapshotOf(r, i).active) <= Min(i.cap, Room(|Live(r, i.ps)|))
    ensures |SnapshotOf(r, i).active| == |Live(r, i.ps)| + CountPending(SnapshotOf(r, i).active)
  {
    var live := Live(r, i.ps);
    var q := Select(Leased(r, i), Slots(r, i), r.rotation);
    CountLive(live);
    CountConcat(live, PendingEntries(q));
  }
}
