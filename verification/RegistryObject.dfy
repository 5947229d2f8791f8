/** The registry object. Each method is specified by the function on registry values it performs. */
module RegistryObject {
  import opened Options
  import opened OrderedMap
  import opened RegistryTypes
  import opened RegistryOrder
  import opened RegistryProjection
  import opened RegistrySnapshot
  import opened RegistryFence

  lemma TakeNext<T>(s: seq<T>, i: nat)
    requires i < |s|
    ensures s[..i + 1][..i] == s[..i] && s[..i + 1][i] == s[i]
  {
  }

  lemma {:induction false} WithoutConcat(a: seq<Outcome>, b: seq<Outcome>, id: string)
    ensures Without(a + b, id) == Without(a, id) + Without(b, id)
  {
    if b == [] {
      assert a + b == a;
    } else {
      var n := |b| - 1;
      WithoutConcat(a, b[..n], id);
      assert (a + b)[..|a + b| - 1] == a + b[..n];
    }
  }

  method PendingOutcomes(list: seq<Outcome>) returns (ps: seq<Outcome>)
    ensures ps == Unsettled(list)
  {
    ps := [];
    for i := 0 to |list|
      invariant ps == Unsettled(list[..i])
    {
      TakeNext(list, i);
      if !list[i].settled { ps := ps + [list[i].(runId := Lower(list[i].runId))]; }
    }
    assert list[..|list|] == list;
  }

  method LeasableOf(ps: seq<Outcome>) returns (r: seq<Outcome>)
    ensures r == Leasable(ps)
  {
    r := [];
    var tuples: set<(string, int)> := {};
    for i := 0 to |ps|
      invariant r == Leasable(ps[..i]) && tuples == Keys(ps[..i])
    {
      TakeNext(ps, i);
      var key := Key(ps[i]);
      if key !in tuples {
        tuples := tuples + {key};
        if !ps[i].notOwned { r := r + [ps[i]]; }
      }
    }
    assert ps[..|ps|] == ps;
  }

  method OrdinariesOf(ps: seq<Outcome>) returns (r: seq<Outcome>)
    ensures r == Ordinaries(ps)
  {
    r := [];
    for i := 0 to |ps|
      invariant r == Ordinaries(ps[..i])
    {
      TakeNext(ps, i);
      if !IsPolicy(ps[i]) { r := r + [ps[i]]; }
    }
    assert ps[..|ps|] == ps;
  }

  /** The policy outcomes of each run, with the runs in insertion order. */
  ghost predicate Grouped(order: seq<string>, groups: map<string, seq<Outcome>>, ps: seq<Outcome>) {
    (forall id :: id in groups <==> id in order) && forall id :: id in groups ==> groups[id] == Sources(ps, id)
  }

  lemma SourcesGrow(ps: seq<Outcome>, i: nat, id: string)
    requires i < |ps|
    ensures Sources(ps[..i + 1], id)
              == Sources(ps[..i], id) + (if IsPolicy(ps[i]) && ps[i].runId == id then [ps[i]] else [])
  {
    TakeNext(ps, i);
  }

  lemma {:induction false} NoSources(ps: seq<Outcome>, id: string)
    requires id !in PolicyIds(ps)
    ensures Sources(ps, id) == []
  {
    if ps != [] { NoSources(ps[..|ps| - 1], id); }
  }

  method GroupPolicies(ps: seq<Outcome>) returns (order: seq<string>, groups: map<string, seq<Outcome>>)
    ensures order == PolicyIds(ps) && Grouped(order, groups, ps)
  {
    order, groups := [], map[];
    for i := 0 to |ps|
      invariant order == PolicyIds(ps[..i]) && Grouped(order, groups, ps[..i])
    {
      TakeNext(ps, i);
      forall id ensures Sources(ps[..i + 1], id)
          == Sources(ps[..i], id) + (if IsPolicy(ps[i]) && ps[i].runId == id then [ps[i]] else []) {
        SourcesGrow(ps, i, id);
      }
      if IsPolicy(ps[i]) {
        var id := ps[i].runId;
        if id !in groups {
          NoSources(ps[..i], id);
          order := order + [id];
          groups := groups[id := [ps[i]]];
        } else {
          groups := groups[id := groups[id] + [ps[i]]];
        }
      }
    }
    assert ps[..|ps|] == ps;
  }

  method AddFallbacks(runs: seq<(string, Entry)>, order: seq<string>, groups: map<string, seq<Outcome>>,
      ghost ps: seq<Outcome>)
    returns (order': seq<string>, groups': map<string, seq<Outcome>>)
    requires order == PolicyIds(ps) && Grouped(order, groups, ps)
    ensures order' == Groups(ps, runs) && Grouped(order', groups', ps)
  {
    order', groups' := order, groups;
    for i := 0 to |runs|
      invariant order' == GroupIds(order, runs[..i]) && Grouped(order', groups', ps)
    {
      TakeNext(runs, i);
      if runs[i].1.pendingOnly && runs[i].0 !in groups' {
        GroupIdsMembers(order, runs[..i], runs[i].0);
        NoSources(ps, runs[i].0);
        order', groups' := order' + [runs[i].0], groups'[runs[i].0 := []];
      }
    }
    assert runs[..|runs|] == runs;
  }

  /** Splice the run's entries out, walking from the end. */
  method SpliceOut(leases: seq<Outcome>, id: string) returns (r: seq<Outcome>)
    ensures r == Without(leases, id)
  {
    r := leases;
    var i := |leases|;
    while i > 0
      invariant 0 <= i <= |leases|
      invariant r == leases[..i] + Without(leases[i..], id)
    {
      i := i - 1;
      assert leases[i..] == [leases[i]] + leases[i + 1..];
      WithoutConcat([leases[i]], leases[i + 1..], id);
      assert Without([leases[i]], id) == if leases[i].runId == id then [] else [leases[i]];
      if r[i].runId == id { r := r[..i] + r[i + 1..]; }
    }
    assert leases[0..] == leases;
  }

  /** Fold the groups into the ordinary leases, in order. */
  method CoalesceGroups(runs: seq<(string, Entry)>, ownership: map<string, Proof>, order: seq<string>,
                        groups: map<string, seq<Outcome>>, ordinary: seq<Outcome>, ghost ps: seq<Outcome>)
                            returns (p: Projection)
    requires Grouped(order, groups, ps) && ordinary == Leasable(Ordinaries(ps))
    ensures p == Coalesce(ps, runs, ownership, order)
  {
    var leases, unknown := ordinary, false;
    for i := 0 to |order|
      invariant Projection(leases, unknown) == Coalesce(ps, runs, ownership, order[..i])
    {
      TakeNext(order, i);
      var evidence := EvidenceOf(ownership, order[i]);
      if !evidence.Ineligible? {
        leases := SpliceOut(leases, order[i]);
        if evidence.Unknown? || SomeUnknown(groups[order[i]]) {
          unknown := true;
        } else {
          leases := leases + [PolicyLease(order[i], evidence.generation, groups[order[i]], runs)];
        }
      }
    }
    assert order[..|order|] == order;
    p := Projection(leases, unknown);
  }

  method LiveOf(runs: seq<(string, Entry)>, excluded: set<string>) returns (active: seq<ActiveEntry>)
    ensures active == LiveEntries(runs, excluded)
  {
    active := [];
    for k := 0 to |runs|
      invariant active == LiveEntries(runs[..k], excluded)
    {
      TakeNext(runs, k);
      var e := runs[k].1;
      if !e.pendingOnly && runs[k].0 !in excluded {
        active := active + [ActiveEntry(runs[k].0, e.generation, e.phase, false)];
      }
    }
    assert runs[..|runs|] == runs;
  }

  class ActiveRunRegistry {
    var runs: seq<(string, Entry)>
    var ownership: map<string, Proof>
    var epoch: nat
    var rotation: nat
    var minted: nat

    ghost function View(): Registry
      reads this
    {
      Registry(runs, ownership, epoch, rotation, minted)
    }

    ghost predicate Valid()
      reads this
    {
      RegistryOk(View())
    }

    constructor ()
      ensures Valid() && View() == Registry([], map[], 0, 0, 0)
    {
      runs, ownership, epoch, rotation, minted := [], map[], 0, 0, 0;
    }

    method Add(id: string, generation: int, list: seq<Outcome>) returns (token: nat)
      requires Valid()
      modifies this
      ensures Valid() && View() == Apply(old(View()), RegistryFence.Add(id, generation, Unsettled(list)))
      ensures token == old(minted)
    {
      ApplyOk(View(), RegistryFence.Add(id, generation, Unsettled(list)));
      token := minted;
      runs := Put(runs, id, Entry(Running, generation, token, false));
      var ps := PendingOutcomes(list);
      if id in ownership || HasPolicy(ps, id) { ownership := ownership[id := Proof(minted + 1, Unknown)]; }
      minted := minted + 2;
    }

    method SetPhase(id: string, phase: Phase)
      requires Valid()
      modifies this
      ensures Valid() && View() == Apply(old(View()), RegistryFence.SetPhase(id, phase))
    {
      ApplyOk(View(), RegistryFence.SetPhase(id, phase));
      var e := Find(runs, id);
      if e.Some? { runs := Put(runs, id, e.value.(phase := phase)); }
    }

    method Remove(id: string, expectedGeneration: Option<int>, expectedToken: Option<nat>)
      requires Valid()
      modifies this
      ensures Valid() && View() == Apply(old(View()), RegistryFence.Remove(id, expectedGeneration, expectedToken))
    {
      ApplyOk(View(), RegistryFence.Remove(id, expectedGeneration, expectedToken));
      var e := Find(runs, id);
      if e.None? { return; }
      if expectedGeneration.Some? && e.value.generation != expectedGeneration.value { return; }
      if expectedToken.Some? && e.value.token != expectedToken.value { return; }
      runs := Drop(runs, id);
    }

    method MarkPolicyPendingOnly(id: string, generation: int, expectedToken: Option<nat>) returns (ok: bool)
      requires Valid()
      modifies this
      ensures Valid() && View() == Apply(old(View()), MarkPendingOnly(id, generation, expectedToken))
      ensures ok <==>
              && Find(old(runs), id).Some? && Removes(old(View()), id, Some(generation), expectedToken)
              && Find(runs, id) == Some(Find(old(runs), id).value.(pendingOnly := true))
    {
      ApplyOk(View(), MarkPendingOnly(id, generation, expectedToken));
      var e := Find(runs, id);
      ok := false;
      if e.None? || e.value.generation != generation { return; }
      if expectedToken.Some? && e.value.token != expectedToken.value { return; }
      PutFinds(runs, id, e.value.(pendingOnly := true), id);
      runs := Put(runs, id, e.value.(pendingOnly := true));
      ok := true;
    }

    /** Project the outcomes, dropping the evidence of runs that are no longer a policy group. */
    method Project(ps: seq<Outcome>) returns (p: Projection)
      modifies this`ownership
      ensures ownership == Prune(old(ownership), Groups(ps, runs))
      ensures p == RegistryProjection.Project(old(View()), ps)
    {
      var ordinary := OrdinariesOf(ps);
      var leases := LeasableOf(ordinary);
      var order, groups := GroupPolicies(ps);
      order, groups := AddFallbacks(runs, order, groups, ps);
      ownership := Prune(ownership, order);
      p := CoalesceGroups(runs, ownership, order, groups, leases, ps);
    }

    method NotePolicyOwnership(id: string, evidence: Evidence, expected: Option<int>, list: seq<Outcome>)
        returns (ok: bool)
      requires Valid() && !evidence.Unknown?
      modifies this
      ensures Valid() && View() == Apply(old(View()), Note(id, evidence, expected, Unsettled(list)))
      ensures ok <==> Notes(old(View()), id, evidence, expected, Unsettled(list))
    {
      NoteOk(View(), id, evidence, expected, Unsettled(list));
      var ps := PendingOutcomes(list);
      ok := NoteFor(id, evidence, expected, ps);
    }

    method NoteFor(id: string, evidence: Evidence, expected: Option<int>, ps: seq<Outcome>) returns (ok: bool)
      requires !evidence.Unknown?
      modifies this`ownership, this`minted
      ensures View() == NoteOwnership(old(View()), id, evidence, expected, ps)
      ensures ok <==> Notes(old(View()), id, evidence, expected, ps)
    {
      ok := false;
      var _ := Project(ps);
      if expected.Some? && EvidenceOf(ownership, id) != Owner(expected.value) { return; }
      if evidence.Owner? && evidence.generation <= 0 { return; }
      var e := Find(runs, id);
      if !(e.Some? && e.value.pendingOnly) && !HasPolicy(ps, id) { return; }
      ownership := ownership[id := Proof(minted, evidence)];
      minted := minted + 1;
      ok := true;
    }

    method BeginPolicyOwnershipObservation(id: string, list: seq<Outcome>) returns (o: Option<Observation>)
      requires Valid()
      modifies this
      ensures Valid() && View() == Apply(old(View()), Begin(id, Unsettled(list)))
                && o == Observed(old(View()), id, Unsettled(list))
    {
      BeginOk(View(), id, Unsettled(list));
      var ps := PendingOutcomes(list);
      o := BeginFor(id, ps);
    }

    method BeginFor(id: string, ps: seq<Outcome>) returns (o: Option<Observation>)
      modifies this`ownership, this`minted
      ensures View() == BeginObservation(old(View()), id, ps) && o == Observed(old(View()), id, ps)
    {
      var _ := Project(ps);
      var e := Find(runs, id);
      if !(e.Some? && e.value.pendingOnly) && !HasPolicy(ps, id) { return None; }
      if id !in ownership {
        ownership := ownership[id := Proof(minted, Unknown)];
        minted := minted + 1;
      }
      o := Some(Observation(id, ownership[id].stamp, if e.Some? then Some(e.value.token) else None));
    }

    /** The answer of an observation arrived. */
    method CommitObservation(o: Observation, evidence: Evidence, list: seq<Outcome>) returns (ok: bool)
      requires Valid() && !evidence.Unknown?
      modifies this
      ensures Valid() && View() == Apply(old(View()), Commit(o, evidence, Unsettled(list)))
      ensures ok <==> Commits(old(View()), o, evidence, Unsettled(list))
    {
      var e := Find(runs, o.id);
      if o.id !in ownership || ownership[o.id].stamp != o.stamp
          || (if e.Some? then Some(e.value.token) else None) != o.token {
        return false;
      }
      ok := NotePolicyOwnership(o.id, evidence, None, list);
    }

    method ClearPolicyOwnership(id: string, generation: int) returns (ok: bool)
      requires Valid()
      modifies this
      ensures Valid() && View() == Apply(old(View()), Clear(id, generation))
      ensures ok <==> Clears(old(View()), id, generation)
    {
      ApplyOk(View(), Clear(id, generation));
      if EvidenceOf(ownership, id) != Owner(generation) { return false; }
      ownership := ownership[id := Proof(minted, Unknown)];
      minted := minted + 1;
      ok := true;
    }

    method ClaimsPausedByPendingOverflow(list: seq<Outcome>, cap: nat) returns (paused: bool)
      requires Valid()
      modifies this
      ensures Valid() && View() == Apply(old(View()), ReadGate(Unsettled(list)))
      ensures paused <==> ClaimsPaused(old(View()), Unsettled(list), cap)
    {
      ApplyOk(View(), ReadGate(Unsettled(list)));
      var ps := PendingOutcomes(list);
      var p := Project(ps);
      paused := p.unknown || |p.leases| > cap;
    }

    method SelectPendingForBuild(q: seq<Outcome>, slots: nat) returns (listed: seq<Outcome>)
      modifies this`rotation
      ensures listed == Select(q, slots, old(rotation))
      ensures rotation == old(rotation) + (if Rotates(q, slots) then 1 else 0)
    {
      if q == [] || slots == 0 { return []; }
      if |q| <= slots { return Sort(BlockedFirst, q); }
      var fixed := Sort(BlockedFirst, q)[..slots - 1];
      var omitted := Sort(OldestFirst, Outside(q, IdsOf(fixed)));
      listed := fixed;
      if |omitted| > 0 {
        listed := listed + [omitted[rotation % |omitted|]];
        rotation := rotation + 1;
      }
    }

    method Build(list: seq<Outcome>, cap: nat, covered: bool) returns (s: Snapshot)
      requires Valid()
      modifies this
      ensures Valid() && View() == Apply(old(View()), RegistryFence.Build(Inputs(Unsettled(list), cap, covered)))
      ensures s == SnapshotOf(old(View()), Inputs(Unsettled(list), cap, covered))
    {
      ApplyOk(View(), RegistryFence.Build(Inputs(Unsettled(list), cap, covered)));
      var ps := PendingOutcomes(list);
      s := BuildFor(ps, cap, covered);
    }

    method BuildFor(ps: seq<Outcome>, cap: nat, covered: bool) returns (s: Snapshot)
      modifies this`ownership, this`epoch, this`rotation
      ensures View() == AfterBuild(old(View()), Inputs(ps, cap, covered))
      ensures s == SnapshotOf(old(View()), Inputs(ps, cap, covered))
    {
      epoch := epoch + 1;
      var p := Project(ps);
      var active := LiveOf(runs, SourceIds(ps));
      var slots := Min(cap, Room(|active|));
      var listed := SelectPendingForBuild(p.leases, slots);
      s := Snapshot(epoch, active + PendingEntries(listed), !covered || p.unknown || |p.leases| > slots);
    }
  }
}
