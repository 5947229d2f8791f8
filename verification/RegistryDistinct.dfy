/** The server rejects a snapshot whole when a run id appears twice in it. Coalescing the policy
    outcomes leaves one way for that to happen: a run with ordinary outcomes in two generations,
    both of which are listed. */
module RegistryDistinct {
  import opened OrderedMap
  import opened RegistryTypes
  import opened RegistryOrder
  import opened RegistryProjection
  import opened RegistrySnapshot

  predicate OncePerRun(active: seq<ActiveEntry>) {
    forall i, j :: 0 <= i < j < |active| ==> active[i].runId != active[j].runId
  }

  // ----- counting a run's entries

  function Count(q: seq<Outcome>, id: string): nat {
    if q == [] then 0 else Count(q[..|q| - 1], id) + (if q[|q| - 1].runId == id then 1 else 0)
  }

  lemma CountNext(q: seq<Outcome>, x: Outcome, id: string)
    ensures Count(q + [x], id) == Count(q, id) + if x.runId == id then 1 else 0
  {
    assert (q + [x])[..|q + [x]| - 1] == q;
  }

  lemma {:induction false} CountMember(q: seq<Outcome>, id: string)
    ensures Count(q, id) > 0 <==> Leases(q, id)
  {
    if q != [] {
      var n := |q| - 1;
      CountMember(q[..n], id);
      assert q == q[..n] + [q[n]];
      LeasesConcat(q[..n], [q[n]], id);
    }
  }

  ghost predicate Repeats(q: seq<Outcome>, id: string) {
    exists i, j :: 0 <= i < j < |q| && q[i].runId == id && q[j].runId == id
  }

  lemma LastRepeats(q: seq<Outcome>, id: string)
    requires q != []
    ensures Repeats(q, id) <==> Repeats(q[..|q| - 1], id) || (Leases(q[..|q| - 1], id) && q[|q| - 1].runId == id)
  {
    var n := |q| - 1;
    assert forall i :: 0 <= i < n ==> q[..n][i] == q[i];
  }

  lemma {:induction false} CountRepeats(q: seq<Outcome>, id: string)
    ensures Count(q, id) > 1 <==> Repeats(q, id)
  {
    if q != [] {
      CountRepeats(q[..|q| - 1], id);
      CountMember(q[..|q| - 1], id);
      LastRepeats(q, id);
    }
  }

  lemma NoneRepeats(q: seq<Outcome>)
    ensures DistinctIds(q) <==> forall id :: !Repeats(q, id)
  {
    if !DistinctIds(q) {
      var i, j :| 0 <= i < j < |q| && q[i].runId == q[j].runId;
      assert Repeats(q, q[i].runId);
    }
  }

  lemma {:induction false} InsertCount(o: Order, x: Outcome, q: seq<Outcome>, id: string)
    ensures Count(Insert(o, x, q), id) == Count(q, id) + if x.runId == id then 1 else 0
  {
    CountNext(q, x, id);
    if q != [] && Precedes(o, x, q[|q| - 1]) {
      InsertCount(o, x, q[..|q| - 1], id);
      CountNext(Insert(o, x, q[..|q| - 1]), q[|q| - 1], id);
    }
  }

  lemma {:induction false} SortCount(o: Order, q: seq<Outcome>, id: string)
    ensures Count(Sort(o, q), id) == Count(q, id)
  {
    if q != [] {
      SortCount(o, q[..|q| - 1], id);
      InsertCount(o, q[|q| - 1], Sort(o, q[..|q| - 1]), id);
    }
  }

  /** Sorting repeats exactly the runs that were repeated before. */
  lemma SortRepeats(o: Order, q: seq<Outcome>)
    ensures DistinctIds(Sort(o, q)) <==> DistinctIds(q)
  {
    forall id ensures Repeats(Sort(o, q), id) <==> Repeats(q, id) {
      SortCount(o, q, id);
      CountRepeats(q, id);
      CountRepeats(Sort(o, q), id);
    }
    NoneRepeats(q);
    NoneRepeats(Sort(o, q));
  }

  lemma {:induction false} WithoutCount(q: seq<Outcome>, other: string, id: string)
    ensures Count(Without(q, other), id) == if id == other then 0 else Count(q, id)
  {
    if q != [] {
      var n := |q| - 1;
      WithoutCount(q[..n], other, id);
      CountNext(Without(q[..n], other), q[n], id);
      assert Without(q[..n], other) + [] == Without(q[..n], other);
    }
  }

  // ----- what folding the policy groups leaves

  /** A policy group that is not positively ineligible replaces the run's ordinary entries. */
  predicate Folded(ownership: map<string, Proof>, ids: seq<string>, id: string) {
    id in ids && !EvidenceOf(ownership, id).Ineligible?
  }

  lemma FoldCount(q: Projection, other: string, e: Evidence, sources: seq<Outcome>, runs: seq<(string, Entry)>,
      id: string)
    ensures var t := Fold(q, other, e, sources, runs).leases;
            if id == other && !e.Ineligible? then Count(t, id) <= 1 else Count(t, id) == Count(q.leases, id)
  {
    WithoutCount(q.leases, other, id);
    if e.Owner? {
      CountNext(Without(q.leases, other), PolicyLease(other, e.generation, sources, runs), id);
    }
  }

  lemma {:induction false} CoalesceCount(ps: seq<Outcome>, runs: seq<(string, Entry)>, ownership: map<string, Proof>,
                                         ids: seq<string>, id: string)
    ensures var t := Coalesce(ps, runs, ownership, ids).leases;
            if Folded(ownership, ids, id) then Count(t, id) <= 1
                else Count(t, id) == Count(Leasable(Ordinaries(ps)), id)
  {
    if ids != [] {
      var n := |ids| - 1;
      CoalesceCount(ps, runs, ownership, ids[..n], id);
      assert ids == ids[..n] + [ids[n]];
      var q := Coalesce(ps, runs, ownership, ids[..n]);
      FoldCount(q, ids[n], EvidenceOf(ownership, ids[n]), Sources(ps, ids[n]), runs, id);
    }
  }

  /** The run has leasable outcomes in two generations. */
  ghost predicate TwoGenerations(q: seq<Outcome>, id: string) {
    exists i, j :: 0 <= i < j < |q| && LeasableAt(q, i, id) && LeasableAt(q, j, id)
        && q[i].generation != q[j].generation
  }

  lemma OtherGeneration(q: seq<Outcome>, i: nat, j: nat, id: string)
    requires i < j < |q| && LeasableAt(q, i, id) && LeasableAt(q, j, id)
    ensures q[i].generation != q[j].generation
  {
    assert Key(q[..j][i]) in Keys(q[..j]);
  }

  lemma LastTwoGenerations(q: seq<Outcome>, id: string)
    requires q != []
    ensures var n := |q| - 1;
            TwoGenerations(q, id) <==> TwoGenerations(q[..n], id) || (HasLeasable(q[..n], id) && LeasableAt(q, n, id))
  {
    var n := |q| - 1;
    forall i | 0 <= i < n ensures LeasableAt(q[..n], i, id) <==> LeasableAt(q, i, id) {
      assert q[..n][..i] == q[..i];
    }
    if HasLeasable(q[..n], id) && LeasableAt(q, n, id) {
      var i :| 0 <= i < n && LeasableAt(q[..n], i, id);
      OtherGeneration(q, i, n, id);
    }
  }

  lemma {:induction false} LeasableCount(q: seq<Outcome>, id: string)
    ensures Count(Leasable(q), id) > 1 <==> TwoGenerations(q, id)
  {
    if q != [] {
      var n := |q| - 1;
      LeasableCount(q[..n], id);
      LastTwoGenerations(q, id);
      LeasableExactly(q[..n], id);
      CountMember(Leasable(q[..n]), id);
      CountNext(Leasable(q[..n]), q[n], id);
      assert Leasable(q[..n]) + [] == Leasable(q[..n]);
    }
  }

  /** The leases repeat a run exactly when it has leasable ordinary outcomes in two generations and
      no policy group folds them into one. */
  lemma LeasesRepeat(r: Registry, ps: seq<Outcome>, id: string)
    ensures Repeats(Project(r, ps).leases, id) <==>
            TwoGenerations(Ordinaries(ps), id) && !Folded(r.ownership, Groups(ps, r.runs), id)
  {
    var ids := Groups(ps, r.runs);
    CoalesceCount(ps, r.runs, Prune(r.ownership, ids), ids, id);
    LeasableCount(Ordinaries(ps), id);
    CountRepeats(Project(r, ps).leases, id);
  }

  // ----- what the selection lists

  lemma TurnIsNew(q: seq<Outcome>, cap: nat, rotation: nat)
    requires Rotates(q, cap)
    ensures Omitted(q, cap)[rotation % |Omitted(q, cap)|].runId !in IdsOf(Fixed(q, cap))
  {
    var x := Omitted(q, cap)[rotation % |Omitted(q, cap)|];
    SortMembers(OldestFirst, Outside(q, IdsOf(Fixed(q, cap))), x);
    OutsideMembers(q, IdsOf(Fixed(q, cap)), x);
  }

  /** The rotating slot never repeats a fixed one. */
  lemma SelectDistinct(q: seq<Outcome>, cap: nat, rotation: nat)
    ensures DistinctIds(Select(q, cap, rotation)) <==>
            if |q| <= cap then DistinctIds(q) else cap == 0 || DistinctIds(Fixed(q, cap))
  {
    if |q| <= cap {
      SortRepeats(BlockedFirst, q);
    } else if cap > 0 {
      var fixed := Fixed(q, cap);
      assert forall k :: 0 <= k < |fixed| ==> fixed[k].runId in IdsOf(fixed);
      if Rotates(q, cap) { TurnIsNew(q, cap, rotation); }
      assert fixed <= Select(q, cap, rotation);
      FrontDistinct(Select(q, cap, rotation), fixed);
    }
  }

  lemma FrontDistinct(q: seq<Outcome>, front: seq<Outcome>)
    requires front <= q && |q| <= |front| + 1
    requires |q| > |front| ==> forall k :: 0 <= k < |front| ==> front[k].runId != q[|front|].runId
    ensures DistinctIds(q) <==> DistinctIds(front)
  {
    assert forall k :: 0 <= k < |front| ==> front[k] == q[k];
  }

  lemma {:induction false} LiveOnce(runs: seq<(string, Entry)>, excluded: set<string>)
    requires Distinct(runs)
    ensures OncePerRun(LiveEntries(runs, excluded))
  {
    if runs != [] {
      var n := |runs| - 1;
      LiveOnce(runs[..n], excluded);
      LiveIds(runs[..n], excluded);
      var front := LiveEntries(runs[..n], excluded);
      forall i | 0 <= i < |front| ensures front[i].runId != runs[n].0 {
        assert front[i] in front;
        var k :| 0 <= k < n && runs[..n][k].0 == front[i].runId;
      }
    }
  }

  lemma JoinOnce(live: seq<ActiveEntry>, q: seq<Outcome>)
    requires OncePerRun(live)
    requires forall i, j :: 0 <= i < |live| && 0 <= j < |q| ==> live[i].runId != q[j].runId
    ensures OncePerRun(live + PendingEntries(q)) <==> DistinctIds(q)
  {
    var active := live + PendingEntries(q);
    assert forall i :: 0 <= i < |q| ==> active[|live| + i].runId == q[i].runId;
    assert forall i :: |live| <= i < |active| ==> active[i].runId == q[i - |live|].runId;
    assert forall i :: 0 <= i < |live| ==> active[i] == live[i];
  }

  lemma ActiveOnce(r: Registry, i: Inputs)
    requires Distinct(r.runs)
    ensures OncePerRun(SnapshotOf(r, i).active) <==> DistinctIds(Select(Leased(r, i), Slots(r, i), r.rotation))
  {
    var q := Select(Leased(r, i), Slots(r, i), r.rotation);
    LiveOnce(r.runs, SourceIds(i.ps));
    var live := Live(r, i.ps);
    forall a, b | 0 <= a < |live| && 0 <= b < |q| ensures live[a].runId != q[b].runId {
      SelectMembers(Leased(r, i), Slots(r, i), r.rotation, q[b]);
      LeaseNotLive(r, i.ps, q[b]);
      assert live[a] in live;
    }
    JoinOnce(live, q);
  }

  /** Every run with leasable ordinary outcomes in two generations has them folded into one lease. */
  ghost predicate AllFolded(r: Registry, ps: seq<Outcome>) {
    forall id :: TwoGenerations(Ordinaries(ps), id) ==> Folded(r.ownership, Groups(ps, r.runs), id)
  }

  /** Exactly when a snapshot lists every run at most once. When everything fits: no run outside the
      policy groups has leasable ordinary outcomes in two generations. When it overflows: there is no
      slot, or no two of the fixed slots hold the same run. */
  lemma OneEntryPerRun(r: Registry, i: Inputs)
    requires Distinct(r.runs)
    ensures OncePerRun(SnapshotOf(r, i).active) <==>
            if |Leased(r, i)| <= Slots(r, i) then AllFolded(r, i.ps)
            else Slots(r, i) == 0 || DistinctIds(Fixed(Leased(r, i), Slots(r, i)))
  {
    ActiveOnce(r, i);
    SelectDistinct(Leased(r, i), Slots(r, i), r.rotation);
    NoneRepeats(Leased(r, i));
    forall id ensures Repeats(Leased(r, i), id) <==>
                      TwoGenerations(Ordinaries(i.ps), id) && !Folded(r.ownership, Groups(i.ps, r.runs), id) {
      LeasesRepeat(r, i.ps, id);
    }
  }

  // ----- it does happen

  function Ended(generation: int): Outcome {
    Outcome("r", generation, Known(Running), false, false, 0, Ordinary, false)
  }

  lemma OneEnded()
    ensures Ordinaries([Ended(1)]) == [Ended(1)] && Leasable([Ended(1)]) == [Ended(1)] && PolicyIds([Ended(1)]) == []
  {
    assert [Ended(1)][..0] == [];
  }

  lemma TwoEnded(ps: seq<Outcome>)
    requires ps == [Ended(1), Ended(2)]
    ensures Ordinaries(ps) == ps && Leasable(ps) == ps && PolicyIds(ps) == []
  {
    OneEnded();
    assert ps[..1] == [Ended(1)];
    assert Key(ps[1]) !in Keys(ps[..1]);
  }

  lemma EndedInTwoGenerations(ps: seq<Outcome>)
    requires ps == [Ended(1), Ended(2)]
    ensures TwoGenerations(ps, "r")
  {
    assert LeasableAt(ps, 0, "r") && LeasableAt(ps, 1, "r") && ps[0].generation != ps[1].generation;
  }

  /** A run that ended twice is listed twice, without overflow, under a cap of 2; under a cap of 1 the
      snapshot overflows and lists it once. */
  lemma EndedTwiceIsListedTwice(r: Registry, cap: nat)
    requires r.runs == [] && cap > 0
    ensures var s := SnapshotOf(r, Inputs([Ended(1), Ended(2)], cap, true));
            s.overflow == (cap == 1) && (OncePerRun(s.active) <==> cap == 1)
  {
    var i := Inputs([Ended(1), Ended(2)], cap, true);
    TwoLeased(r, i);
    if cap == 1 { OnceUnderOne(r, i); } else { TwiceUnderTwo(r, i); }
  }

  lemma OnceUnderOne(r: Registry, i: Inputs)
    requires r.runs == [] && i.cap == 1 && |Leased(r, i)| == 2 && Slots(r, i) == 1
    ensures OncePerRun(SnapshotOf(r, i).active)
  {
    OneEntryPerRun(r, i);
  }

  lemma TwiceUnderTwo(r: Registry, i: Inputs)
    requires r.runs == [] && i.ps == [Ended(1), Ended(2)] && |Leased(r, i)| == 2 && Slots(r, i) >= 2
    ensures !OncePerRun(SnapshotOf(r, i).active)
  {
    OneEntryPerRun(r, i);
    TwoEnded(i.ps);
    EndedInTwoGenerations(i.ps);
    assert !Folded(r.ownership, Groups(i.ps, r.runs), "r");
  }

  lemma TwoLeased(r: Registry, i: Inputs)
    requires r.runs == [] && i.ps == [Ended(1), Ended(2)]
    ensures Groups(i.ps, r.runs) == [] && Leased(r, i) == i.ps && Slots(r, i) == Min(i.cap, MAX_WIRE_ENTRIES)
    ensures Live(r, i.ps) == [] && !Project(r, i.ps).unknown
  {
    TwoEnded(i.ps);
  }
}
