/** What the active-run registry holds: the runs this worker executes, the ownership evidence for
    policy outcomes, and the journaled outcomes it reads from the outbox. */
module RegistryTypes {
  datatype Phase = Running | AwaitingApproval | AwaitingInput | AwaitingFollowup

  /** A journal records its phase as free text. */
  datatype JournalPhase = Known(phase: Phase) | Unrecognised

  function ToSnapshotPhase(p: JournalPhase): Phase {
    if p.Known? then p.phase else Running
  }

  datatype Kind = Ordinary | PolicyHold | UnknownKind

  /** A journaled outcome awaiting replay. `notOwned` is the blocked reason `run_not_owned`. */
  datatype Outcome = Outcome(runId: string, generation: int, phase: JournalPhase, blocked: bool, notOwned: bool,
                             since: int, kind: Kind, settled: bool)

  /** A registered run. `token` is the identity of the registration: each claim gets a new one. */
  datatype Entry = Entry(phase: Phase, generation: int, token: nat, pendingOnly: bool)

  datatype Evidence = Unknown | Ineligible | Owner(generation: int)

  /** Ownership evidence. `stamp` is the identity of the evidence object. */
  datatype Proof = Proof(stamp: nat, evidence: Evidence)

  /** `runs` is in insertion order. `minted` counts the identities handed out. */
  datatype Registry = Registry(runs: seq<(string, Entry)>, ownership: map<string, Proof>,
                               epoch: nat, rotation: nat, minted: nat)

  const MAX_WIRE_ENTRIES: nat := 256

  function LowerChar(c: char): char {
    if 'A' <= c <= 'Z' then c - 'A' + 'a' else c
  }

  function Lower(s: string): string {
    seq(|s|, i requires 0 <= i < |s| => LowerChar(s[i]))
  }

  predicate IsPolicy(p: Outcome) {
    p.kind != Ordinary
  }

  /** The unsettled outcomes under lower-case run ids. */
  function Unsettled(list: seq<Outcome>): (r: seq<Outcome>)
    ensures |r| <= |list|
  {
    if list == [] then []
    else
      var n := |list| - 1;
      Unsettled(list[..n]) + (if list[n].settled then [] else [list[n].(runId := Lower(list[n].runId))])
  }
}
