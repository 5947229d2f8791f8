/** Consecutive builds over unchanged inputs: the last slot's turn reaches every pending run. */
module RegistryRotation {
  import opened RegistryTypes
  import opened RegistryOrder
  import opened RegistryProjection
  import opened RegistrySnapshot

  // ----- repeating a step

  function Iterate<T>(step: T -> T, x: T, n: nat): T {
    if n == 0 then x else step(Iterate(step, x, n - 1))
  }

  /** What one step leaves unchanged, any number of steps does. */
  lemma {:induction false} IterateKeeps<T(!new), U>(step: T -> T, view: T -> U, x: T, n: nat)
    requires forall t: T :: view(step(t)) == view(t)
    ensures view(Iterate(step, x, n)) == view(x)
  {
    if n > 0 { IterateKeeps(step, view, x, n - 1); }
  }

  /** A counter that each step moves when `turning`, and never otherwise. */
  lemma {:induction false} IterateCounts<T(!new)>(step: T -> T, count: T -> int, turning: T -> bool, x: T, n: nat)
    requires forall t: T :: turning(step(t)) == turning(t) && count(step(t)) == count(t) + (if turning(t) then 1 else 0)
    ensures turning(Iterate(step, x, n)) == turning(x)
    ensures count(Iterate(step, x, n)) == count(x) + (if turning(x) then n else 0)
  {
    if n > 0 { IterateCounts(step, count, turning, x, n - 1); }
  }

  // ----- repeating a build

  function BuildStep(i: Inputs): Registry -> Registry {
    (r: Registry) => AfterBuild(r, i)
  }

  function Builds(r: Registry, i: Inputs, n: nat): Registry {
    Iterate(BuildStep(i), r, n)
  }

  /** What a build lists from: the leases and how many of them fit. */
  datatype Offer = Offer(leases: seq<Outcome>, slots: nat)

  function OfferOf(i: Inputs): Registry -> Offer {
    (r: Registry) => Offer(Leased(r, i), Slots(r, i))
  }

  lemma PruneTwice(ownership: map<string, Proof>, ids: seq<string>)
    ensures Prune(Prune(ownership, ids), ids) == Prune(ownership, ids)
  {
  }

  /** A build leaves what the next build projects unchanged. */
  lemma BuildRepeats(r: Registry, i: Inputs)
    ensures Leased(AfterBuild(r, i), i) == Leased(r, i) && Slots(AfterBuild(r, i), i) == Slots(r, i)
  {
    PruneTwice(r.ownership, Groups(i.ps, r.runs));
  }

  lemma BuildsRepeat(r: Registry, i: Inputs, n: nat)
    ensures OfferOf(i)(Builds(r, i, n)) == OfferOf(i)(r)
  {
    forall t: Registry ensures OfferOf(i)(BuildStep(i)(t)) == OfferOf(i)(t) { BuildRepeats(t, i); }
    IterateKeeps(BuildStep(i), OfferOf(i), r, n);
  }

  function Turning(i: Inputs): Registry -> bool {
    (r: Registry) => Rotates(Leased(r, i), Slots(r, i))
  }

  function Cursor(): Registry -> int {
    (r: Registry) => r.rotation
  }

  lemma BuildTurns(r: Registry, i: Inputs)
    ensures Turning(i)(AfterBuild(r, i)) == Turning(i)(r)
    ensures AfterBuild(r, i).rotation == r.rotation + (if Turning(i)(r) then 1 else 0)
  {
    BuildRepeats(r, i);
  }

  lemma StepTurns(r: Registry, i: Inputs)
    ensures Turning(i)(BuildStep(i)(r)) == Turning(i)(r)
    ensures Cursor()(BuildStep(i)(r)) == Cursor()(r) + (if Turning(i)(r) then 1 else 0)
  {
    BuildTurns(r, i);
  }

  /** The cursor moves by one with every build that rotates. */
  lemma BuildsTurn(r: Registry, i: Inputs, n: nat)
    ensures Builds(r, i, n).rotation == r.rotation + (if Turning(i)(r) then n else 0)
  {
    forall t: Registry
      ensures Turning(i)(BuildStep(i)(t)) == Turning(i)(t)
      ensures Cursor()(BuildStep(i)(t)) == Cursor()(t) + (if Turning(i)(t) then 1 else 0)
    {
      StepTurns(t, i);
    }
    IterateCounts(BuildStep(i), Cursor(), Turning(i), r, n);
  }

  // ----- residues

  lemma ModOffset(q: int, m: nat, j: nat)
    requires j < m
    ensures (q * m + j) % m == j
  {
    assert (q * m + j) - j == q * m;
    ModUnique(q * m + j, m, q, j);
  }

  lemma ModUnique(x: int, m: nat, q: int, j: nat)
    requires m > 0 && j < m && x == q * m + j
    ensures x % m == j
  {
    var d := x / m - q;
    assert x == (x / m) * m + x % m;
    assert d * m == (x / m) * m - q * m;
    assert d * m == j - x % m;
    if d >= 1 { MultipleAtLeast(d, m); }
    if d <= -1 { MultipleAtLeast(-d, m); }
  }

  lemma MultipleAtLeast(d: int, m: nat)
    requires d >= 1
    ensures d * m >= m && (-d) * m <= 0 - m
  {
    assert (d - 1) * m >= 0;
  }

  /** Counting up from anywhere meets every residue within `m` steps. */
  lemma NextWithResidue(start: nat, m: nat, j: nat) returns (k: nat)
    requires j < m
    ensures k < m && (start + k) % m == j
  {
    var s := start % m;
    var q := start / m;
    assert start == q * m + s;
    if j >= s {
      k := j - s;
      ModOffset(q, m, j);
    } else {
      k := j + m - s;
      assert start + k == (q + 1) * m + j;
      ModOffset(q + 1, m, j);
    }
  }

  // ----- turns

  /** Whoever is fixed is in every selection. */
  lemma FixedSelected(fixed: seq<Outcome>, omitted: seq<Outcome>, rotation: nat, id: string)
    requires id in IdsOf(fixed)
    ensures Leases(WithTurn(fixed, omitted, rotation), id)
  {
    var k :| 0 <= k < |fixed| && fixed[k].runId == id;
    assert WithTurn(fixed, omitted, rotation)[k] == fixed[k];
  }

  lemma TurnSelected(fixed: seq<Outcome>, omitted: seq<Outcome>, rotation: nat)
    requires omitted != []
    ensures Leases(WithTurn(fixed, omitted, rotation), omitted[rotation % |omitted|].runId)
  {
    var s := WithTurn(fixed, omitted, rotation);
    assert s[|s| - 1] == omitted[rotation % |omitted|];
  }

  /** Whoever is not fixed has its turn within as many rotations as there are omitted entries. */
  lemma FixedOrTurn(fixed: seq<Outcome>, omitted: seq<Outcome>, rotation: nat, id: string) returns (k: nat)
    requires id in IdsOf(fixed) || Leases(omitted, id)
    ensures k == 0 || k < |omitted|
    ensures Leases(WithTurn(fixed, omitted, if omitted == [] then rotation else rotation + k), id)
  {
    k := 0;
    if id in IdsOf(fixed) {
      FixedSelected(fixed, omitted, if omitted == [] then rotation else rotation + k, id);
    } else {
      var j :| 0 <= j < |omitted| && omitted[j].runId == id;
      k := NextWithResidue(rotation, |omitted|, j);
      TurnSelected(fixed, omitted, rotation + k);
    }
  }

  lemma OmittedMembers(q: seq<Outcome>, cap: nat, p: Outcome)
    requires 0 < cap <= |q|
    ensures p in Omitted(q, cap) <==> p in q && p.runId !in IdsOf(Fixed(q, cap))
  {
    SortMembers(OldestFirst, Outside(q, IdsOf(Fixed(q, cap))), p);
    OutsideMembers(q, IdsOf(Fixed(q, cap)), p);
  }

  /** The fixed and the omitted entries together cover every leased run. */
  lemma FixedAndOmittedCover(q: seq<Outcome>, cap: nat, id: string)
    requires 0 < cap <= |q| && Leases(q, id)
    ensures id in IdsOf(Fixed(q, cap)) || Leases(Omitted(q, cap), id)
  {
    var n :| 0 <= n < |q| && q[n].runId == id;
    OmittedMembers(q, cap, q[n]);
    if id !in IdsOf(Fixed(q, cap)) {
      var j :| 0 <= j < |Omitted(q, cap)| && Omitted(q, cap)[j] == q[n];
    }
  }

  lemma OverflowSelects(q: seq<Outcome>, cap: nat, rotation: nat)
    requires 0 < cap < |q|
    ensures Select(q, cap, rotation) == WithTurn(Fixed(q, cap), Omitted(q, cap), rotation)
  {
  }

  /** The snapshot built after `k` earlier ones lists the run as pending. */
  ghost predicate ListedAt(r: Registry, i: Inputs, k: nat, id: string) {
    Listed(SnapshotOf(Builds(r, i, k), i), id)
  }

  lemma ListedAtSelects(r: Registry, i: Inputs, k: nat, q: seq<Outcome>, cap: nat, rotation: nat, id: string)
    requires OfferOf(i)(Builds(r, i, k)) == Offer(q, cap) && Builds(r, i, k).rotation == rotation
    ensures ListedAt(r, i, k, id) <==> Leases(Select(q, cap, rotation), id)
  {
    SelectedListed(Builds(r, i, k), i, id);
  }

  /** The build at which a run is selected, from the fixed and the omitted entries alone. */
  lemma TurnNumber(r: Registry, i: Inputs, fixed: seq<Outcome>, omitted: seq<Outcome>, id: string) returns (k: nat)
    requires Turning(i)(r) == (omitted != []) && (id in IdsOf(fixed) || Leases(omitted, id))
    ensures k == 0 || k < |omitted|
    ensures Leases(WithTurn(fixed, omitted, Builds(r, i, k).rotation), id)
  {
    k := FixedOrTurn(fixed, omitted, r.rotation, id);
    CursorAt(r, i, k, omitted != []);
  }

  lemma CursorAt(r: Registry, i: Inputs, k: nat, turning: bool)
    requires Turning(i)(r) == turning
    ensures Builds(r, i, k).rotation == if !turning then r.rotation else r.rotation + k
  {
    BuildsTurn(r, i, k);
  }

  lemma ListedAtTurn(r: Registry, i: Inputs, k: nat, q: seq<Outcome>, cap: nat, id: string)
    requires OfferOf(i)(Builds(r, i, k)) == Offer(q, cap) && 0 < cap < |q|
    requires Leases(WithTurn(Fixed(q, cap), Omitted(q, cap), Builds(r, i, k).rotation), id)
    ensures ListedAt(r, i, k, id)
  {
    OverflowSelects(q, cap, Builds(r, i, k).rotation);
    ListedAtSelects(r, i, k, q, cap, Builds(r, i, k).rotation, id);
  }

  /** With a slot to rotate through, every leased run of an overflowing set is listed within
      `max(1, omitted)` consecutive builds over unchanged inputs. */
  lemma EveryRunTakesATurn(r: Registry, i: Inputs, id: string) returns (k: nat)
    requires 0 < Slots(r, i) < |Leased(r, i)| && Leases(Leased(r, i), id)
    ensures k == 0 || k < |Omitted(Leased(r, i), Slots(r, i))|
    ensures ListedAt(r, i, k, id)
  {
    FixedAndOmittedCover(Leased(r, i), Slots(r, i), id);
    k := TurnNumber(r, i, Fixed(Leased(r, i), Slots(r, i)), Omitted(Leased(r, i), Slots(r, i)), id);
    BuildsRepeat(r, i, k);
    ListedAtTurn(r, i, k, Leased(r, i), Slots(r, i), id);
  }

  /** Without one, no number of builds lists anything, and only the overflow flag protects. */
  lemma NoSlotListsNone(r: Registry, i: Inputs, k: nat, id: string)
    requires Slots(r, i) == 0
    ensures !ListedAt(r, i, k, id)
    ensures Leased(r, i) != [] ==> SnapshotOf(r, i).overflow
  {
    BuildsRepeat(r, i, k);
    ListedAtSelects(r, i, k, Leased(r, i), 0, Builds(r, i, k).rotation, id);
  }

  lemma {:induction false} OrderedPrefix(o: Order, sorted: seq<Outcome>, n: nat, p: Outcome, x: Outcome)
    requires Ordered(o, sorted) && n <= |sorted| && p in sorted[..n] && x in sorted && x.runId !in IdsOf(sorted[..n])
    ensures !Precedes(o, x, p)
  {
    var a :| 0 <= a < n && sorted[..n][a] == p;
    var b :| 0 <= b < |sorted| && sorted[b] == x;
    assert forall k :: 0 <= k < n ==> sorted[..n][k].runId in IdsOf(sorted[..n]);
    assert b >= n;
  }

  /** The fixed slots go to the blocked and then the oldest: no omitted run precedes a fixed one. */
  lemma FixedGoFirst(q: seq<Outcome>, cap: nat, p: Outcome, x: Outcome)
    requires 0 < cap <= |q| && p in Fixed(q, cap) && x in Omitted(q, cap)
    ensures !Precedes(BlockedFirst, x, p)
  {
    OmittedMembers(q, cap, x);
    SortMembers(BlockedFirst, q, x);
    SortOrdered(BlockedFirst, q);
    OrderedPrefix(BlockedFirst, Sort(BlockedFirst, q), cap - 1, p, x);
  }

  // ----- the claim gate between builds

  /** A gate read and a build both project the pending set, and both prune. */
  datatype Look = GateRead | Build

  function Looked(r: Registry, i: Inputs, look: Look): Registry {
    if look == GateRead then Pruned(r, i.ps) else AfterBuild(r, i)
  }

  function Looks(r: Registry, i: Inputs, looks: seq<Look>): Registry {
    if looks == [] then r else Looked(Looks(r, i, looks[..|looks| - 1]), i, looks[|looks| - 1])
  }

  lemma LookRepeats(r: Registry, i: Inputs, look: Look)
    ensures var t := Looked(r, i, look); Project(t, i.ps) == Project(r, i.ps) && t.runs == r.runs
  {
    PruneTwice(r.ownership, Groups(i.ps, r.runs));
  }

  lemma {:induction false} LooksRepeat(r: Registry, i: Inputs, looks: seq<Look>)
    ensures var t := Looks(r, i, looks); Project(t, i.ps) == Project(r, i.ps) && t.runs == r.runs
  {
    if looks != [] {
      LooksRepeat(r, i, looks[..|looks| - 1]);
      LookRepeats(Looks(r, i, looks[..|looks| - 1]), i, looks[|looks| - 1]);
    }
  }

  /** No unlisted pending outcome coexists with a new claim. Over unchanged inputs, gate reads and
      builds in any order leave the gate as it is. While it is closed, every snapshot built sets the
      overflow flag; while it is open and the live entries leave room, every snapshot built lists every
      run that needs protection, and sets the flag only for an incomplete inventory. */
  lemma OpenGateListsAll(r: Registry, i: Inputs, looks: seq<Look>, id: string)
    ensures var t := Looks(r, i, looks);
            && (ClaimsPaused(t, i.ps, i.cap) <==> ClaimsPaused(r, i.ps, i.cap))
            && (ClaimsPaused(r, i.ps, i.cap) ==> SnapshotOf(t, i).overflow)
            && (!ClaimsPaused(r, i.ps, i.cap) && |Leased(r, i)| <= Room(|Live(r, i.ps)|) ==>
                  && (SnapshotOf(t, i).overflow <==> !i.covered)
                  && (NeedsProtection(r, i.ps, id) <==> Listed(SnapshotOf(t, i), id)))
  {
    var t := Looks(r, i, looks);
    LooksRepeat(r, i, looks);
    if !ClaimsPaused(r, i.ps, i.cap) && |Leased(r, i)| <= Room(|Live(r, i.ps)|) {
      AllFitListed(t, i, id);
      FitMeansProtected(r, i, id);
    }
  }

  lemma AllFitListed(t: Registry, i: Inputs, id: string)
    requires |Leased(t, i)| <= Slots(t, i)
    ensures Listed(SnapshotOf(t, i), id) <==> Leases(Leased(t, i), id)
  {
    var q := Leased(t, i);
    SelectedListed(t, i, id);
    if Leases(q, id) {
      var k :| 0 <= k < |q| && q[k].runId == id;
      SelectAll(q, Slots(t, i), t.rotation, q[k]);
    }
    var s := Select(q, Slots(t, i), t.rotation);
    if Leases(s, id) {
      var k :| 0 <= k < |s| && s[k].runId == id;
      SelectMembers(q, Slots(t, i), t.rotation, s[k]);
    }
  }

  lemma FitMeansProtected(r: Registry, i: Inputs, id: string)
    requires !Project(r, i.ps).unknown
    ensures NeedsProtection(r, i.ps, id) <==> Leases(Leased(r, i), id)
  {
    if NeedsProtection(r, i.ps, id) { ProjectProtects(r, i.ps, id); }
    if Leases(Leased(r, i), id) {
      var k :| 0 <= k < |Leased(r, i)| && Leased(r, i)[k].runId == id;
      ProjectOnly(r, i.ps, Leased(r, i)[k]);
    }
  }
}
