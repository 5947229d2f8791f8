/** The operations of the registry and the identity fence: an ownership observation made over the
    network commits only if nothing touched the run's ownership or execution in the meantime. */
module RegistryFence {
  import opened Options
  import opened OrderedMap
  import opened RegistryTypes
  import opened RegistryProjection
  import opened RegistrySnapshot

  /** What an observation captured when it began. */
  datatype Observation = Observation(id: string, stamp: nat, token: Option<nat>)

  datatype Op =
    | Add(id: string, generation: int, ps: seq<Outcome>)
    | SetPhase(id: string, phase: Phase)
    | Remove(id: string, expectedGeneration: Option<int>, expectedToken: Option<nat>)
    | MarkPendingOnly(id: string, generation: int, expectedToken: Option<nat>)
    | Note(id: string, evidence: Evidence, expected: Option<int>, ps: seq<Outcome>)
    | Begin(id: string, ps: seq<Outcome>)
    | Commit(observation: Observation, evidence: Evidence, ps: seq<Outcome>)
    | Clear(id: string, generation: int)
    | Build(inputs: Inputs)
    | ReadGate(ps: seq<Outcome>)

  predicate HasPolicy(ps: seq<Outcome>, id: string) {
    exists i :: 0 <= i < |ps| && ps[i].runId == id && IsPolicy(ps[i])
  }

  function TokenOf(r: Registry, id: string): Option<nat> {
    var e := Find(r.runs, id);
    if e.Some? then Some(e.value.token) else None
  }

  function AddRun(r: Registry, id: string, generation: int, ps: seq<Outcome>): Registry {
    r.(runs := Put(r.runs, id, Entry(Running, generation, r.minted, false)),
       ownership := if id in r.ownership || HasPolicy(ps, id)
                    then r.ownership[id := Proof(r.minted + 1, Unknown)] else r.ownership,
       minted := r.minted + 2)
  }

  predicate Removes(r: Registry, id: string, generation: Option<int>, token: Option<nat>) {
    var e := Find(r.runs, id);
    && e.Some?
    && (generation.Some? ==> e.value.generation == generation.value)
    && (token.Some? ==> e.value.token == token.value)
  }

  function UpdatePhase(r: Registry, id: string, phase: Phase): Registry {
    var e := Find(r.runs, id);
    if e.None? then r else r.(runs := Put(r.runs, id, e.value.(phase := phase)))
  }

  function MarkRun(r: Registry, id: string, generation: int, token: Option<nat>): Registry {
    if !Removes(r, id, Some(generation), token) then r
    else r.(runs := Put(r.runs, id, Find(r.runs, id).value.(pendingOnly := true)))
  }

  /** Whether evidence about the run may be kept at all. */
  predicate Observable(r: Registry, id: string, ps: seq<Outcome>) {
    (Find(r.runs, id).Some? && Find(r.runs, id).value.pendingOnly) || HasPolicy(ps, id)
  }

  predicate Notes(r: Registry, id: string, evidence: Evidence, expected: Option<int>, ps: seq<Outcome>) {
    && (expected.Some? ==> EvidenceOf(Pruned(r, ps).ownership, id) == Owner(expected.value))
    && (evidence.Ineligible? || (evidence.Owner? && evidence.generation > 0))
    && Observable(r, id, ps)
  }

  function NoteOwnership(r: Registry, id: string, evidence: Evidence, expected: Option<int>,
      ps: seq<Outcome>): Registry {
    var t := Pruned(r, ps);
    if !Notes(r, id, evidence, expected, ps) then t
    else t.(ownership := t.ownership[id := Proof(r.minted, evidence)], minted := r.minted + 1)
  }

  function BeginObservation(r: Registry, id: string, ps: seq<Outcome>): Registry {
    var t := Pruned(r, ps);
    if !Observable(r, id, ps) || id in t.ownership then t
    else t.(ownership := t.ownership[id := Proof(r.minted, Unknown)], minted := r.minted + 1)
  }

  /** The captured identities; `None` when the observation may never commit. */
  function Observed(r: Registry, id: string, ps: seq<Outcome>): Option<Observation> {
    var t := BeginObservation(r, id, ps);
    if !Observable(r, id, ps) || id !in t.ownership then None
    else Some(Observation(id, t.ownership[id].stamp, TokenOf(r, id)))
  }

  predicate Fence(r: Registry, o: Observation) {
    o.id in r.ownership && r.ownership[o.id].stamp == o.stamp && TokenOf(r, o.id) == o.token
  }

  predicate Commits(r: Registry, o: Observation, evidence: Evidence, ps: seq<Outcome>) {
    Fence(r, o) && Notes(r, o.id, evidence, None, ps)
  }

  predicate Clears(r: Registry, id: string, generation: int) {
    EvidenceOf(r.ownership, id) == Owner(generation)
  }

  function Apply(r: Registry, op: Op): Registry {
    match op
    case Add(id, generation, ps) => AddRun(r, id, generation, ps)
    case SetPhase(id, phase) => UpdatePhase(r, id, phase)
    case Remove(id, generation, token) =>
      if Removes(r, id, generation, token) then r.(runs := Drop(r.runs, id)) else r
    case MarkPendingOnly(id, generation, token) => MarkRun(r, id, generation, token)
    case Note(id, evidence, expected, ps) => NoteOwnership(r, id, evidence, expected, ps)
    case Begin(id, ps) => BeginObservation(r, id, ps)
    case Commit(o, evidence, ps) => if Fence(r, o) then NoteOwnership(r, o.id, evidence, None, ps) else r
    case Clear(id, generation) =>
      if Clears(r, id, generation)
      then r.(ownership := r.ownership[id := Proof(r.minted, Unknown)], minted := r.minted + 1) else r
    case Build(i) => AfterBuild(r, i)
    case ReadGate(ps) => Pruned(r, ps)
  }

  function Execute(r: Registry, ops: seq<Op>): Registry {
    if ops == [] then r else Apply(Execute(r, ops[..|ops| - 1]), ops[|ops| - 1])
  }

  // ----- the invariant: identities are never reused

  predicate RegistryOk(r: Registry) {
    && Distinct(r.runs)
    && (forall i :: 0 <= i < |r.runs| ==> r.runs[i].1.token < r.minted)
    && (forall id :: id in r.ownership ==> r.ownership[id].stamp < r.minted)
  }

  lemma {:induction false} PutTokens(runs: seq<(string, Entry)>, id: string, e: Entry, bound: nat)
    requires e.token < bound && forall i :: 0 <= i < |runs| ==> runs[i].1.token < bound
    ensures forall i :: 0 <= i < |Put(runs, id, e)| ==> Put(runs, id, e)[i].1.token < bound
  {
    if runs != [] && runs[0].0 != id {
      PutTokens(runs[1..], id, e, bound);
      assert Put(runs, id, e) == [runs[0]] + Put(runs[1..], id, e);
    }
  }

  lemma PutOk(r: Registry, id: string, e: Entry, bound: nat)
    requires RegistryOk(r) && e.token < bound && r.minted <= bound
    ensures Distinct(Put(r.runs, id, e))
    ensures forall i :: 0 <= i < |Put(r.runs, id, e)| ==> Put(r.runs, id, e)[i].1.token < bound
  {
    PutIds(r.runs, id, e);
    PutTokens(r.runs, id, e, bound);
  }

  lemma AddRunOk(r: Registry, id: string, generation: int, ps: seq<Outcome>)
    requires RegistryOk(r)
    ensures RegistryOk(AddRun(r, id, generation, ps))
  {
    PutOk(r, id, Entry(Running, generation, r.minted, false), r.minted + 2);
  }

  lemma UpdatePhaseOk(r: Registry, id: string, phase: Phase)
    requires RegistryOk(r)
    ensures RegistryOk(UpdatePhase(r, id, phase))
  {
    var e := Find(r.runs, id);
    if e.Some? { PutOk(r, id, e.value.(phase := phase), r.minted); }
  }

  lemma MarkRunOk(r: Registry, id: string, generation: int, token: Option<nat>)
    requires RegistryOk(r)
    ensures RegistryOk(MarkRun(r, id, generation, token))
  {
    if Removes(r, id, Some(generation), token) { PutOk(r, id, Find(r.runs, id).value.(pendingOnly := true), r.minted); }
  }

  lemma NoteOk(r: Registry, id: string, evidence: Evidence, expected: Option<int>, ps: seq<Outcome>)
    requires RegistryOk(r)
    ensures RegistryOk(NoteOwnership(r, id, evidence, expected, ps))
  {
  }

  lemma BeginOk(r: Registry, id: string, ps: seq<Outcome>)
    requires RegistryOk(r)
    ensures RegistryOk(BeginObservation(r, id, ps))
  {
  }

  lemma ApplyOk(r: Registry, op: Op)
    requires RegistryOk(r)
    ensures RegistryOk(Apply(r, op))
  {
    match op
    case Add(id, generation, ps) => AddRunOk(r, id, generation, ps);
    case SetPhase(id, phase) => UpdatePhaseOk(r, id, phase);
    case Remove(id, _, _) => DropIds(r.runs, id);
    case MarkPendingOnly(id, generation, token) => MarkRunOk(r, id, generation, token);
    case Note(id, evidence, expected, ps) => NoteOk(r, id, evidence, expected, ps);
    case Begin(id, ps) => BeginOk(r, id, ps);
    case Commit(o, evidence, ps) => NoteOk(r, o.id, evidence, None, ps);
    case _ =>
  }

  // ----- the fence

  predicate PrunedBy(r: Registry, ps: seq<Outcome>, id: string) {
    id in r.ownership && id !in Groups(ps, r.runs)
  }

  /** The operation claims the run, writes, clears or prunes its evidence, or removes it. */
  predicate Touches(r: Registry, op: Op, id: string) {
    match op
    case Add(other, _, _) => other == id
    case SetPhase(_, _) => false
    case Remove(other, generation, token) => other == id && Removes(r, id, generation, token)
    case MarkPendingOnly(_, _, _) => false
    case Note(other, evidence, expected, ps) =>
      (other == id && Notes(r, id, evidence, expected, ps)) || PrunedBy(r, ps, id)
    case Begin(_, ps) => PrunedBy(r, ps, id)
    case Commit(o, evidence, ps) =>
      Fence(r, o) && ((o.id == id && Notes(r, id, evidence, None, ps)) || PrunedBy(r, ps, id))
    case Clear(other, generation) => other == id && Clears(r, id, generation)
    case Build(i) => PrunedBy(r, i.ps, id)
    case ReadGate(ps) => PrunedBy(r, ps, id)
  }

  /** The run's evidence and registration identities, as an observation compares them. */
  predicate SameStamp(r: Registry, o: Observation) {
    o.id in r.ownership && r.ownership[o.id].stamp == o.stamp
  }

  /** An observation taken with no registration sees none as long as its evidence is current. */
  predicate Tracked(r: Registry, o: Observation) {
    && RegistryOk(r) && o.stamp < r.minted && (o.token.Some? ==> o.token.value < r.minted)
    && (SameStamp(r, o) && o.token.None? ==> Find(r.runs, o.id).None?)
  }

  lemma PutToken(r: Registry, id: string, e: Entry, other: string)
    ensures TokenOf(r.(runs := Put(r.runs, id, e)), other) == if other == id then Some(e.token) else TokenOf(r, other)
  {
    PutFinds(r.runs, id, e, other);
  }

  /** What one operation does to a run's identities: an untouched run keeps both, and whatever
      replaces one is either nothing or newly minted. */
  predicate Moved(r: Registry, t: Registry, id: string) {
    && t.minted >= r.minted
    && (id in t.ownership ==>
          t.ownership[id].stamp >= r.minted || (id in r.ownership && t.ownership[id] == r.ownership[id]))
    && (TokenOf(t, id).Some? ==> TokenOf(t, id).value >= r.minted || TokenOf(t, id) == TokenOf(r, id))
  }

  predicate Unmoved(r: Registry, t: Registry, id: string) {
    && TokenOf(t, id) == TokenOf(r, id)
    && (id in r.ownership ==> id in t.ownership && t.ownership[id] == r.ownership[id])
  }

  lemma RunsMove(r: Registry, op: Op, id: string)
    requires RegistryOk(r) && (op.Add? || op.SetPhase? || op.Remove? || op.MarkPendingOnly?)
    ensures Moved(r, Apply(r, op), id)
    ensures !Touches(r, op, id) ==> Unmoved(r, Apply(r, op), id)
  {
    match op
    case Add(other, generation, _) => PutToken(r, other, Entry(Running, generation, r.minted, false), id);
    case SetPhase(other, phase) =>
      var e := Find(r.runs, other);
      if e.Some? { PutToken(r, other, e.value.(phase := phase), id); }
    case Remove(other, _, _) => DropFinds(r.runs, other, id);
    case MarkPendingOnly(other, generation, token) =>
      if Removes(r, other, Some(generation), token) {
        PutToken(r, other, Find(r.runs, other).value.(pendingOnly := true), id);
      }
  }

  lemma EvidenceMoves(r: Registry, op: Op, id: string)
    requires RegistryOk(r) && !(op.Add? || op.SetPhase? || op.Remove? || op.MarkPendingOnly?)
    ensures Moved(r, Apply(r, op), id)
    ensures !Touches(r, op, id) ==> Unmoved(r, Apply(r, op), id)
  {
  }

  lemma OpMoves(r: Registry, op: Op, id: string)
    requires RegistryOk(r)
    ensures Moved(r, Apply(r, op), id)
    ensures !Touches(r, op, id) ==> Unmoved(r, Apply(r, op), id)
  {
    if op.Add? || op.SetPhase? || op.Remove? || op.MarkPendingOnly? {
      RunsMove(r, op, id);
    } else {
      EvidenceMoves(r, op, id);
    }
  }

  /** A touch replaces one of the two identities. */
  lemma TouchBreaks(r: Registry, op: Op, o: Observation)
    requires Tracked(r, o) && Fence(r, o) && Touches(r, op, o.id)
    ensures !Fence(Apply(r, op), o)
  {
    match op
    case Remove(id, _, _) => DropFinds(r.runs, id, id);
    case _ =>
  }

  /** A run first registered after the observation has fresh evidence too. */
  lemma TrackedStep(r: Registry, op: Op, o: Observation)
    requires Tracked(r, o)
    ensures Tracked(Apply(r, op), o)
  {
    var t := Apply(r, op);
    ApplyOk(r, op);
    OpMoves(r, op, o.id);
    if SameStamp(t, o) && o.token.None? {
      assert SameStamp(r, o);
      match op
      case Add(id, generation, _) =>
          if id != o.id { PutFinds(r.runs, id, Entry(Running, generation, r.minted, false), o.id); }
      case SetPhase(id, phase) =>
        var e := Find(r.runs, id);
        if e.Some? { PutFinds(r.runs, id, e.value.(phase := phase), o.id); }
      case Remove(id, _, _) => DropFinds(r.runs, id, o.id);
      case MarkPendingOnly(id, generation, token) =>
        if Removes(r, id, Some(generation), token) {
          PutFinds(r.runs, id, Find(r.runs, id).value.(pendingOnly := true), o.id);
        }
      case _ =>
    }
  }

  /** A broken fence stays broken: neither identity ever comes back. */
  lemma BrokenStays(r: Registry, op: Op, o: Observation)
    requires Tracked(r, o) && !Fence(r, o)
    ensures !Fence(Apply(r, op), o)
  {
    OpMoves(r, op, o.id);
    if Fence(Apply(r, op), o) {
      assert SameStamp(r, o);
      TrackedStep(r, op, o);
    }
  }

  /** No operation of the run touched the run `id`. */
  predicate Untouched(r: Registry, ops: seq<Op>, id: string) {
    ops == [] ||
    (Untouched(r, ops[..|ops| - 1], id) && !Touches(Execute(r, ops[..|ops| - 1]), ops[|ops| - 1], id))
  }

  lemma BeginTracks(r: Registry, id: string, ps: seq<Outcome>)
    requires RegistryOk(r) && Observed(r, id, ps).Some?
    ensures var t := BeginObservation(r, id, ps);
            var o := Observed(r, id, ps).value;
            Tracked(t, o) && Fence(t, o)
  {
    ApplyOk(r, Begin(id, ps));
    var e := Find(r.runs, id);
    if e.Some? {
      var i :| 0 <= i < |r.runs| && r.runs[i] == (id, e.value);
    }
  }

  lemma {:induction false} FenceSince(r: Registry, o: Observation, ops: seq<Op>)
    requires Tracked(r, o) && Fence(r, o)
    ensures Tracked(Execute(r, ops), o)
    ensures Fence(Execute(r, ops), o) <==> Untouched(r, ops, o.id)
  {
    if ops != [] {
      var n := |ops| - 1;
      var t := Execute(r, ops[..n]);
      FenceSince(r, o, ops[..n]);
      TrackedStep(t, ops[n], o);
      OpMoves(t, ops[n], o.id);
      if !Fence(t, o) {
        BrokenStays(t, ops[n], o);
      } else if Touches(t, ops[n], o.id) {
        TouchBreaks(t, ops[n], o);
      }
    }
  }

  /** Whatever happened between its begin and its answer, an observation still passes the fence if
      and only if no claim, ownership write, clear, prune or removal of its run took place, even
      when the evidence was unknown or has returned to the same value. */
  lemma ObservationFence(r: Registry, id: string, ps: seq<Outcome>, ops: seq<Op>)
    requires RegistryOk(r) && Observed(r, id, ps).Some?
    ensures var t := BeginObservation(r, id, ps);
            Fence(Execute(t, ops), Observed(r, id, ps).value) <==> Untouched(t, ops, id)
  {
    BeginTracks(r, id, ps);
    FenceSince(BeginObservation(r, id, ps), Observed(r, id, ps).value, ops);
  }

  lemma {:induction false} BrokenSince(r: Registry, o: Observation, ops: seq<Op>)
    requires Tracked(r, o) && !Fence(r, o)
    ensures Tracked(Execute(r, ops), o) && !Fence(Execute(r, ops), o)
  {
    if ops != [] {
      var n := |ops| - 1;
      BrokenSince(r, o, ops[..n]);
      TrackedStep(Execute(r, ops[..n]), ops[n], o);
      BrokenStays(Execute(r, ops[..n]), ops[n], o);
    }
  }

  /** An observation commits at most once. */
  lemma CommitsOnce(r: Registry, o: Observation, evidence: Evidence, ps: seq<Outcome>, ops: seq<Op>,
                    again: Evidence, later: seq<Outcome>)
    requires Tracked(r, o) && Commits(r, o, evidence, ps)
    ensures !Commits(Execute(Apply(r, Commit(o, evidence, ps)), ops), o, again, later)
  {
    TouchBreaks(r, Commit(o, evidence, ps), o);
    TrackedStep(r, Commit(o, evidence, ps), o);
    BrokenSince(Apply(r, Commit(o, evidence, ps)), o, ops);
  }
}
