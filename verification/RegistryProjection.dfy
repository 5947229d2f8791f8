/** Projecting the journaled outcomes and the ownership evidence into lease entries. */
module RegistryProjection {
  import opened Options
  import opened OrderedMap
  import opened RegistryTypes
  import opened RegistryOrder

  function Key(p: Outcome): (string, int) {
    (p.runId, p.generation)
  }

  function Keys(ps: seq<Outcome>): set<(string, int)> {
    set i | 0 <= i < |ps| :: Key(ps[i])
  }

  function Ordinaries(ps: seq<Outcome>): seq<Outcome> {
    if ps == [] then []
    else Ordinaries(ps[..|ps| - 1]) + (if IsPolicy(ps[|ps| - 1]) then [] else [ps[|ps| - 1]])
  }

  /** The first outcome of each (run, generation), unless the server disowns the run. */
  function Leasable(ps: seq<Outcome>): seq<Outcome> {
    if ps == [] then []
    else
      var n := |ps| - 1;
      Leasable(ps[..n]) + (if Key(ps[n]) in Keys(ps[..n]) || ps[n].notOwned then [] else [ps[n]])
  }

  /** Runs with a policy outcome, in order of first appearance. */
  function PolicyIds(ps: seq<Outcome>): seq<string> {
    if ps == [] then []
    else
      var n := |ps| - 1;
      var ids := PolicyIds(ps[..n]);
      if IsPolicy(ps[n]) && ps[n].runId !in ids then ids + [ps[n].runId] else ids
  }

  /** Then the closed executions kept as a fallback. */
  function GroupIds(ids: seq<string>, runs: seq<(string, Entry)>): seq<string> {
    if runs == [] then ids
    else
      var n := |runs| - 1;
      var r := GroupIds(ids, runs[..n]);
      if runs[n].1.pendingOnly && runs[n].0 !in r then r + [runs[n].0] else r
  }

  function Groups(ps: seq<Outcome>, runs: seq<(string, Entry)>): seq<string> {
    GroupIds(PolicyIds(ps), runs)
  }

  function Sources(ps: seq<Outcome>, id: string): (r: seq<Outcome>)
    ensures forall p :: p in r ==> p in ps && IsPolicy(p) && p.runId == id
  {
    if ps == [] then []
    else
      var n := |ps| - 1;
      Sources(ps[..n], id) + (if IsPolicy(ps[n]) && ps[n].runId == id then [ps[n]] else [])
  }

  function EvidenceOf(ownership: map<string, Proof>, id: string): Evidence {
    if id in ownership then ownership[id].evidence else Unknown
  }

  function Prune(ownership: map<string, Proof>, ids: seq<string>): map<string, Proof> {
    map k | k in ownership && k in ids :: ownership[k]
  }

  predicate SomeUnknown(sources: seq<Outcome>) {
    exists i :: 0 <= i < |sources| && sources[i].kind == UnknownKind
  }

  predicate SomeBlocked(sources: seq<Outcome>) {
    exists i :: 0 <= i < |sources| && sources[i].blocked
  }

  function Oldest(sources: seq<Outcome>): (r: int)
    requires sources != []
    ensures forall i :: 0 <= i < |sources| ==> r <= sources[i].since
    ensures exists i :: 0 <= i < |sources| && r == sources[i].since
  {
    var n := |sources| - 1;
    if n == 0 then sources[0].since
    else
      var r := Oldest(sources[..n]);
      assert forall i :: 0 <= i < n ==> sources[..n][i] == sources[i];
      if sources[n].since < r then sources[n].since else r
  }

  function FallbackPhase(runs: seq<(string, Entry)>, id: string): JournalPhase {
    var e := Find(runs, id);
    if e.Some? then Known(e.value.phase) else Unrecognised
  }

  /** One entry protects the whole run. */
  function PolicyLease(id: string, generation: int, sources: seq<Outcome>, runs: seq<(string, Entry)>): Outcome {
    Outcome(id, generation,
            if sources != [] then Sort(BlockedFirst, sources)[0].phase else FallbackPhase(runs, id),
            SomeBlocked(sources), false, if sources != [] then Oldest(sources) else 0, Ordinary, false)
  }

  function Without(leases: seq<Outcome>, id: string): seq<Outcome> {
    if leases == [] then []
    else
      var n := |leases| - 1;
      Without(leases[..n], id) + (if leases[n].runId == id then [] else [leases[n]])
  }

  datatype Projection = Projection(leases: seq<Outcome>, unknown: bool)

  /** Fold the policy groups into the ordinary leases. */
  function Coalesce(ps: seq<Outcome>, runs: seq<(string, Entry)>, ownership: map<string, Proof>,
      ids: seq<string>): Projection {
    if ids == [] then Projection(Leasable(Ordinaries(ps)), false)
    else
      var q := Coalesce(ps, runs, ownership, ids[..|ids| - 1]);
      Fold(q, ids[|ids| - 1], EvidenceOf(ownership, ids[|ids| - 1]), Sources(ps, ids[|ids| - 1]), runs)
  }

  function Fold(q: Projection, id: string, e: Evidence, sources: seq<Outcome>, runs: seq<(string, Entry)>): Projection {
    if e.Ineligible? then q
    else
      var kept := Without(q.leases, id);
      if e.Unknown? || SomeUnknown(sources) then Projection(kept, true)
      else Projection(kept + [PolicyLease(id, e.generation, sources, runs)], q.unknown)
  }

  function Project(r: Registry, ps: seq<Outcome>): Projection {
    Coalesce(ps, r.runs, Prune(r.ownership, Groups(ps, r.runs)), Groups(ps, r.runs))
  }

  // ----- membership facts

  lemma {:induction false} WithoutMembers(leases: seq<Outcome>, id: string, p: Outcome)
    ensures p in Without(leases, id) <==> p in leases && p.runId != id
  {
    if leases != [] {
      WithoutMembers(leases[..|leases| - 1], id, p);
      assert leases == leases[..|leases| - 1] + [leases[|leases| - 1]];
    }
  }

  lemma {:induction false} OrdinariesMembers(ps: seq<Outcome>, p: Outcome)
    ensures p in Ordinaries(ps) <==> p in ps && !IsPolicy(p)
  {
    if ps != [] {
      var n := |ps| - 1;
      OrdinariesMembers(ps[..n], p);
      assert ps == ps[..n] + [ps[n]];
    }
  }

  lemma {:induction false} LeasableMembers(ps: seq<Outcome>, p: Outcome)
    requires p in Leasable(ps)
    ensures p in ps && !p.notOwned
  {
    var n := |ps| - 1;
    assert ps == ps[..n] + [ps[n]];
    if p in Leasable(ps[..n]) { LeasableMembers(ps[..n], p); }
  }

  lemma {:induction false} PolicyIdsMembers(ps: seq<Outcome>, id: string)
    ensures id in PolicyIds(ps) <==> exists i :: 0 <= i < |ps| && IsPolicy(ps[i]) && ps[i].runId == id
  {
    if ps != [] {
      var n := |ps| - 1;
      PolicyIdsMembers(ps[..n], id);
      assert forall i :: 0 <= i < n ==> ps[..n][i] == ps[i];
    }
  }

  lemma {:induction false} GroupIdsMembers(ids: seq<string>, runs: seq<(string, Entry)>, id: string)
    ensures id in GroupIds(ids, runs) <==>
            id in ids || exists i :: 0 <= i < |runs| && runs[i].0 == id && runs[i].1.pendingOnly
  {
    if runs != [] {
      var n := |runs| - 1;
      GroupIdsMembers(ids, runs[..n], id);
      assert forall i :: 0 <= i < n ==> runs[..n][i] == runs[i];
    }
  }

  /** A run is a policy group exactly when it has a policy outcome or a pending-only registration. */
  lemma GroupsMembers(ps: seq<Outcome>, runs: seq<(string, Entry)>, id: string)
    ensures id in Groups(ps, runs) <==>
            || (exists i :: 0 <= i < |ps| && IsPolicy(ps[i]) && ps[i].runId == id)
            || (exists i :: 0 <= i < |runs| && runs[i].0 == id && runs[i].1.pendingOnly)
  {
    PolicyIdsMembers(ps, id);
    GroupIdsMembers(PolicyIds(ps), runs, id);
  }

  // ----- protection

  ghost predicate Leases(leases: seq<Outcome>, id: string) {
    exists i :: 0 <= i < |leases| && leases[i].runId == id
  }

  /** The outcome is the first of its (run, generation) and its run is not disowned. */
  predicate LeasableAt(ps: seq<Outcome>, i: nat, id: string) {
    i < |ps| && ps[i].runId == id && !ps[i].notOwned && Key(ps[i]) !in Keys(ps[..i])
  }

  ghost predicate HasLeasable(ps: seq<Outcome>, id: string) {
    exists i :: 0 <= i < |ps| && LeasableAt(ps, i, id)
  }

  lemma LeasesConcat(a: seq<Outcome>, b: seq<Outcome>, id: string)
    ensures Leases(a + b, id) <==> Leases(a, id) || Leases(b, id)
  {
    assert forall i :: 0 <= i < |a| ==> (a + b)[i] == a[i];
    assert forall i :: 0 <= i < |b| ==> (a + b)[|a| + i] == b[i];
  }

  lemma LastLeasable(ps: seq<Outcome>, id: string)
    requires ps != []
    ensures HasLeasable(ps, id) <==> HasLeasable(ps[..|ps| - 1], id) || LeasableAt(ps, |ps| - 1, id)
  {
    var n := |ps| - 1;
    forall i | 0 <= i < n ensures LeasableAt(ps[..n], i, id) <==> LeasableAt(ps, i, id) {
      assert ps[..n][..i] == ps[..i];
    }
  }

  lemma {:induction false} LeasableExactly(ps: seq<Outcome>, id: string)
    ensures Leases(Leasable(ps), id) <==> HasLeasable(ps, id)
  {
    if ps != [] {
      var n := |ps| - 1;
      var last := if Key(ps[n]) in Keys(ps[..n]) || ps[n].notOwned then [] else [ps[n]];
      LeasableExactly(ps[..n], id);
      LastLeasable(ps, id);
      LeasesConcat(Leasable(ps[..n]), last, id);
      assert last != [] ==> last[0] == ps[n];
    }
  }

  /** The run needs the server's protection: it has a leasable ordinary outcome, or it is a policy
      group that is not positively ineligible. */
  ghost predicate NeedsProtection(r: Registry, ps: seq<Outcome>, id: string) {
    || HasLeasable(Ordinaries(ps), id)
    || (id in Groups(ps, r.runs) && !EvidenceOf(r.ownership, id).Ineligible?)
  }

  lemma FoldKeepsOther(q: Projection, id: string, e: Evidence, sources: seq<Outcome>, runs: seq<(string, Entry)>,
      other: string)
    requires other != id && Leases(q.leases, other)
    ensures Leases(Fold(q, id, e, sources, runs).leases, other)
  {
    var i :| 0 <= i < |q.leases| && q.leases[i].runId == other;
    if !e.Ineligible? {
      var kept := Without(q.leases, id);
      WithoutMembers(q.leases, id, q.leases[i]);
      var j :| 0 <= j < |kept| && kept[j] == q.leases[i];
      assert Fold(q, id, e, sources, runs).leases[j] == kept[j];
    }
  }

  lemma FoldProtects(q: Projection, id: string, e: Evidence, sources: seq<Outcome>, runs: seq<(string, Entry)>)
    requires !e.Ineligible?
    ensures var t := Fold(q, id, e, sources, runs); t.unknown || Leases(t.leases, id)
  {
    var t := Fold(q, id, e, sources, runs);
    if !t.unknown { assert t.leases[|t.leases| - 1].runId == id; }
  }

  lemma LastMember(ids: seq<string>, id: string)
    requires ids != [] && id in ids
    ensures id in ids[..|ids| - 1] || id == ids[|ids| - 1]
  {
  }

  lemma FoldStaysProtected(q: Projection, id: string, e: Evidence, sources: seq<Outcome>, runs: seq<(string, Entry)>,
      other: string)
    requires q.unknown || Leases(q.leases, other) || (other == id && !e.Ineligible?)
    ensures var t := Fold(q, id, e, sources, runs); t.unknown || Leases(t.leases, other)
  {
    if other == id && !e.Ineligible? {
      FoldProtects(q, id, e, sources, runs);
    } else if !q.unknown && other != id {
      FoldKeepsOther(q, id, e, sources, runs, other);
    }
  }

  /** Each folded group, unless ineligible, is leased or makes the projection unknown; an ordinary
      lease only ever gives way to its own run's group. */
  lemma {:induction false} CoalesceProtects(ps: seq<Outcome>, runs: seq<(string, Entry)>, ownership: map<string, Proof>,
                                            ids: seq<string>, id: string)
    requires Leases(Leasable(Ordinaries(ps)), id) || (id in ids && !EvidenceOf(ownership, id).Ineligible?)
    ensures var t := Coalesce(ps, runs, ownership, ids); t.unknown || Leases(t.leases, id)
  {
    if ids != [] {
      var n := |ids| - 1;
      var q := Coalesce(ps, runs, ownership, ids[..n]);
      var e := EvidenceOf(ownership, ids[n]);
      if id in ids { LastMember(ids, id); }
      if ids[n] != id || e.Ineligible? { CoalesceProtects(ps, runs, ownership, ids[..n], id); }
      FoldStaysProtected(q, ids[n], e, Sources(ps, ids[n]), runs, id);
    }
  }

  /** Folding a group adds at most its own lease. */
  lemma FoldOnly(q: Projection, id: string, e: Evidence, sources: seq<Outcome>, runs: seq<(string, Entry)>, p: Outcome)
    requires p in Fold(q, id, e, sources, runs).leases
    ensures p in q.leases || (p.runId == id && e.Owner?)
  {
    WithoutMembers(q.leases, id, p);
  }

  /** Nothing else is leased. */
  lemma {:induction false} CoalesceOnly(ps: seq<Outcome>, runs: seq<(string, Entry)>, ownership: map<string, Proof>,
                                        ids: seq<string>, p: Outcome)
    requires p in Coalesce(ps, runs, ownership, ids).leases
    ensures p in Leasable(Ordinaries(ps)) || (p.runId in ids && EvidenceOf(ownership, p.runId).Owner?)
  {
    if ids != [] {
      var n := |ids| - 1;
      var q := Coalesce(ps, runs, ownership, ids[..n]);
      FoldOnly(q, ids[n], EvidenceOf(ownership, ids[n]), Sources(ps, ids[n]), runs, p);
      if p in q.leases {
        CoalesceOnly(ps, runs, ownership, ids[..n], p);
        assert p.runId in ids[..n] ==> p.runId in ids;
      }
    }
  }

  /** A run that needs protection is leased, or the projection is marked unknown. */
  lemma ProjectProtects(r: Registry, ps: seq<Outcome>, id: string)
    requires NeedsProtection(r, ps, id)
    ensures Project(r, ps).unknown || Leases(Project(r, ps).leases, id)
  {
    LeasableExactly(Ordinaries(ps), id);
    CoalesceProtects(ps, r.runs, Prune(r.ownership, Groups(ps, r.runs)), Groups(ps, r.runs), id);
  }

  /** A leased run needs protection. */
  lemma ProjectOnly(r: Registry, ps: seq<Outcome>, p: Outcome)
    requires p in Project(r, ps).leases
    ensures NeedsProtection(r, ps, p.runId)
    ensures p in Leasable(Ordinaries(ps)) || p.runId in Groups(ps, r.runs)
  {
    CoalesceOnly(ps, r.runs, Prune(r.ownership, Groups(ps, r.runs)), Groups(ps, r.runs), p);
    if p in Leasable(Ordinaries(ps)) {
      var i :| 0 <= i < |Leasable(Ordinaries(ps))| && Leasable(Ordinaries(ps))[i] == p;
      LeasableExactly(Ordinaries(ps), p.runId);
    }
  }
}
