/** The watcher's history: what it spent, journaled, read from the clock, wrote and saw; and the
    discipline every history keeps. */
module WatchLog {
  import opened Options
  import opened WatchEvidence

  datatype Workflow = KindSmoke | Release | Brew

  /** A write: a rerun of a publication workflow, or one of the two recovery posts. */
  datatype Kind = Rerun(workflow: Workflow) | SmokePost | AssertPost

  /** `Journaled` is a reservation the journal has accepted; `Clock` a reading since the start;
      `Seen` the attempt a recovery snapshot accepted, and `Found` its content; `Inspected` a reading
      of a publication run, and `Dumped` its rows. */
  datatype Event =
    | Spent(kind: Kind)
    | Journaled(kind: Kind)
    | Clock(elapsed: int)
    | Write(kind: Kind, run: nat, attempt: nat, confirmed: bool)
    | Seen(workflow: Workflow, run: nat, attempt: nat)
    | Found(workflow: Workflow, snapshot: Snapshot)
    | Inspected(workflow: Workflow, snapshot: Snapshot)
    | Dumped(workflow: Workflow, rows: seq<Row>)

  const TIME_LIMIT: int := 7200

  datatype Mode = Mode(journal: bool, recovering: bool, rules: Rules)

  // ----- readings of a history, from its end

  function Last(log: seq<Event>): Event
    requires log != []
  {
    log[|log| - 1]
  }

  function Front(log: seq<Event>): (r: seq<Event>)
    requires log != []
    ensures |r| < |log|
  {
    log[..|log| - 1]
  }

  lemma Appended(log: seq<Event>, e: Event)
    ensures Front(log + [e]) == log && Last(log + [e]) == e
  {
  }

  function Count(log: seq<Event>, kind: Kind, written: bool): nat {
    if log == [] then 0
    else
      Count(Front(log), kind, written)
      + (if (written && Last(log).Write? && Last(log).kind == kind) || (!written && Last(log) == Spent(kind)) then 1
          else 0)
  }

  function LastSeen(log: seq<Event>, w: Workflow): Option<(nat, nat)> {
    if log == [] then None
    else if Last(log).Seen? && Last(log).workflow == w then Some((Last(log).run, Last(log).attempt))
    else LastSeen(Front(log), w)
  }

  function LastReading(log: seq<Event>): Option<int> {
    if log == [] then None else if Last(log).Clock? then Some(Last(log).elapsed) else LastReading(Front(log))
  }

  predicate AllConfirmed(log: seq<Event>) {
    log == [] || (AllConfirmed(Front(log)) && (Last(log).Write? ==> Last(log).confirmed))
  }

  /** The attempt follows one the watcher asked to rerun, with a confirmed request. */
  predicate Requested(log: seq<Event>, kind: Kind, run: nat, attempt: nat) {
    log != [] &&
    ((Last(log).Write? && Last(log).kind == kind && Last(log).confirmed && Last(log).run == run
        && attempt == Last(log).attempt + 1)
     || Requested(Front(log), kind, run, attempt))
  }

  /** An event that is neither a reading of the clock nor a write moves neither. */
  lemma Unmoved(log: seq<Event>, e: Event)
    requires !e.Clock? && !e.Write?
    ensures Monotone(log + [e]) == Monotone(log) && LastReading(log + [e]) == LastReading(log)
    ensures AllConfirmed(log + [e]) == AllConfirmed(log)
  {
    Appended(log, e);
  }

  // ----- the evidence a history holds

  /** The recovery readings in order, and the latest reading and rows of each publication workflow. */
  datatype Basis = Basis(smoke: seq<Snapshot>, release: seq<Snapshot>, inspected: map<Workflow, Snapshot>,
                         dumps: map<Workflow, seq<Row>>)

  function Learn(b: Basis, e: Event): Basis {
    match e
    case Found(w, s) =>
      if w == KindSmoke then b.(smoke := b.smoke + [s]) else if w == Release then b.(release := b.release + [s]) else b
    case Inspected(w, s) => b.(inspected := b.inspected[w := s])
    case Dumped(w, rows) => b.(dumps := b.dumps[w := rows])
    case _ => b
  }

  function BasisOf(log: seq<Event>): Basis {
    if log == [] then Basis([], [], map[], map[]) else Learn(BasisOf(Front(log)), Last(log))
  }

  lemma BasisGrows(log: seq<Event>, e: Event)
    ensures BasisOf(log + [e]) == Learn(BasisOf(log), e)
  {
    Appended(log, e);
  }

  function LastOf(readings: seq<Snapshot>): Option<Snapshot> {
    if readings == [] then None else Some(readings[|readings| - 1])
  }

  /** The latest smoke reading is green. */
  predicate SmokeIsGreen(m: Mode, log: seq<Event>) {
    LastOf(BasisOf(log).smoke).Some? && m.rules.smokeGreen(LastOf(BasisOf(log).smoke).value)
  }

  predicate IsAttempt(s: Snapshot, run: nat, attempt: nat) {
    s.run.id == run && s.run.attempt == attempt
  }

  /** The last two smoke readings show the same retryable job of this attempt. */
  predicate SmokeWarrant(u: Rules, readings: seq<Snapshot>, run: nat, attempt: nat) {
    var n := |readings|;
    && n >= 2 && IsAttempt(readings[n - 1], run, attempt) && IsAttempt(readings[n - 2], run, attempt)
    && u.smokeRetry(readings[n - 1]).Some? && u.smokeRetry(readings[n - 2]).Some?
    && u.smokeRetry(readings[n - 1]).value.id == u.smokeRetry(readings[n - 2]).value.id
  }

  /** The last two release readings show the same lone assertion failure of this attempt. */
  predicate SameAssertion(u: Rules, release: seq<Snapshot>, run: nat, attempt: nat) {
    var k := |release|;
    && k >= 2 && IsAttempt(release[k - 1], run, attempt) && IsAttempt(release[k - 2], run, attempt)
    && u.assertRetry(release[k - 1]).Some? && u.assertRetry(release[k - 2]).Some?
    && u.assertRetry(release[k - 1]).value.id == u.assertRetry(release[k - 2]).value.id
  }

  /** That, and the last two smoke readings are green. */
  predicate AssertWarrant(u: Rules, smoke: seq<Snapshot>, release: seq<Snapshot>, run: nat, attempt: nat) {
    var n := |smoke|;
    && n >= 2 && u.smokeGreen(smoke[n - 1]) && u.smokeGreen(smoke[n - 2])
    && SameAssertion(u, release, run, attempt)
  }

  /** The latest rows are a failure that is no gate, and with a journal the latest reading of this
      attempt still shows the same failed jobs. */
  predicate RerunWarrant(m: Mode, b: Basis, w: Workflow, run: nat, attempt: nat) {
    && w in b.dumps && Classify(b.dumps[w]) == Fail && !Gate(FailedRows(b.dumps[w]))
    && (m.journal ==>
          && w in b.inspected && IsAttempt(b.inspected[w], run, attempt)
          && b.inspected[w].run.completed && TerminalJobs(b.inspected[w].jobs)
          && SameFailures(b.inspected[w].jobs, FailedRows(b.dumps[w])))
  }

  predicate Warranted(m: Mode, b: Basis, kind: Kind, run: nat, attempt: nat) {
    match kind
    case SmokePost => SmokeWarrant(m.rules, b.smoke, run, attempt)
    case AssertPost => AssertWarrant(m.rules, b.smoke, b.release, run, attempt)
    case Rerun(w) => RerunWarrant(m, b, w, run, attempt)
  }

  // ----- the discipline

  /** The ledger entry, then with a journal its record, stand at the end of the history. */
  predicate Reserved(m: Mode, kind: Kind, log: seq<Event>) {
    if m.journal then log != [] && Last(log) == Journaled(kind) && Front(log) != [] && Last(Front(log)) == Spent(kind)
    else log != [] && Last(log) == Spent(kind)
  }

  /** What stands right before a write: its reservation, and in recovery mode a clock reading under
      the limit after it. */
  predicate Prepared(m: Mode, kind: Kind, log: seq<Event>) {
    if m.recovering
    then log != [] && Last(log).Clock? && Last(log).elapsed < TIME_LIMIT && Reserved(m, kind, Front(log))
    else Reserved(m, kind, log)
  }

  /** The attempt is the first one seen, the one seen last, or one the watcher requested. */
  predicate Tolerable(log: seq<Event>, run: nat, attempt: nat) {
    LastSeen(log, KindSmoke).None? || LastSeen(log, KindSmoke).value == (run, attempt)
        || Requested(log, SmokePost, run, attempt)
  }

  /** The write is prepared, warranted by the evidence, and follows only confirmed writes. */
  predicate MayWrite(m: Mode, log: seq<Event>, kind: Kind, run: nat, attempt: nat) {
    Prepared(m, kind, log) && AllConfirmed(log) && Warranted(m, BasisOf(log), kind, run, attempt)
  }

  /** Every write was allowed when it was sent, and every smoke attempt was tolerable. */
  predicate Disciplined(m: Mode, log: seq<Event>) {
    log == [] ||
    (Disciplined(m, Front(log)) &&
     (Last(log).Write? ==> MayWrite(m, Front(log), Last(log).kind, Last(log).run, Last(log).attempt)) &&
     (Last(log).Seen? && Last(log).workflow == KindSmoke ==> Tolerable(Front(log), Last(log).run, Last(log).attempt)))
  }

  /** The clock never runs backwards. */
  predicate Monotone(log: seq<Event>) {
    log == [] ||
    (Monotone(Front(log)) && (Last(log).Clock? && LastReading(Front(log)).Some? ==>
        LastReading(Front(log)).value <= Last(log).elapsed))
  }

  // ----- the watcher's fields against its history

  /** The names of the two recovery requests. */
  datatype Name = KindInfra | TagSmokeAssertion

  function KindOf(n: Name): Kind {
    if n == KindInfra then SmokePost else AssertPost
  }

  function WorkflowOf(n: Name): Workflow {
    if n == KindInfra then KindSmoke else Release
  }

  datatype Request = Request(workflow: Workflow, run: nat, attempt: nat, role: string)

  /** What is left of each budget. */
  datatype Ledger = Ledger(release: int, brew: int, smoke: int, assertion: int)

  function Left(l: Ledger, kind: Kind): int {
    match kind
    case Rerun(w) => if w == Release then l.release else if w == Brew then l.brew else 0
    case SmokePost => l.smoke
    case AssertPost => l.assertion
  }

  function Spend(l: Ledger, kind: Kind): Ledger {
    match kind
    case Rerun(w) =>
      if w == Release then l.(release := l.release - 1) else if w == Brew then l.(brew := l.brew - 1) else l
    case SmokePost => l.(smoke := l.smoke - 1)
    case AssertPost => l.(assertion := l.assertion - 1)
  }

  function Budget(maxReruns: int, kind: Kind): int {
    match kind
    case Rerun(w) => if w == KindSmoke then 0 else maxReruns
    case SmokePost => 2
    case AssertPost => 1
  }

  /** What the history spent of a budget is what is missing from it; it never goes below zero. */
  predicate Balanced(log: seq<Event>, maxReruns: int, l: Ledger, kind: Kind) {
    && Count(log, kind, false) == Budget(maxReruns, kind) - Left(l, kind)
    && (Left(l, kind) >= 0 || Left(l, kind) == Budget(maxReruns, kind))
  }

  predicate LedgerOk(log: seq<Event>, maxReruns: int, l: Ledger) {
    && Balanced(log, maxReruns, l, Rerun(Release)) && Balanced(log, maxReruns, l, Rerun(Brew))
          && Balanced(log, maxReruns, l, Rerun(KindSmoke))
    && Balanced(log, maxReruns, l, SmokePost) && Balanced(log, maxReruns, l, AssertPost)
  }

  predicate RequestOk(log: seq<Event>, requests: map<Name, Request>, n: Name) {
    n in requests ==>
      requests[n].workflow == WorkflowOf(n) && Requested(log, KindOf(n), requests[n].run, requests[n].attempt + 1)
  }

  predicate SeenOk(log: seq<Event>, seen: map<Workflow, (nat, nat)>) {
    LastSeen(log, KindSmoke) == if KindSmoke in seen then Some(seen[KindSmoke]) else None
  }

  /** Everything the watcher keeps about its history. */
  predicate HistoryOk(m: Mode, maxReruns: int, log: seq<Event>, l: Ledger, requests: map<Name, Request>,
      seen: map<Workflow, (nat, nat)>) {
    && Disciplined(m, log) && LedgerOk(log, maxReruns, l)
    && RequestOk(log, requests, KindInfra) && RequestOk(log, requests, TagSmokeAssertion) && SeenOk(log, seen)
  }

  lemma LedgerKept(log: seq<Event>, maxReruns: int, l: Ledger, e: Event)
    requires LedgerOk(log, maxReruns, l) && !e.Spent?
    ensures LedgerOk(log + [e], maxReruns, l)
  {
    Appended(log, e);
  }

  /** An event that spends nothing keeps the history in order. */
  lemma HistoryGrows(m: Mode, maxReruns: int, log: seq<Event>, l: Ledger, requests: map<Name, Request>,
                     seen: map<Workflow, (nat, nat)>, e: Event)
    requires HistoryOk(m, maxReruns, log, l, requests, seen) && !e.Spent?
    requires e.Write? ==> MayWrite(m, log, e.kind, e.run, e.attempt)
    requires e.Seen? && e.workflow == KindSmoke ==> Tolerable(log, e.run, e.attempt)
    ensures HistoryOk(m, maxReruns, log + [e], l, requests, if e.Seen? then seen[e.workflow := (e.run, e.attempt)]
              else seen)
  {
    Appended(log, e);
    LedgerKept(log, maxReruns, l, e);
  }

  lemma LedgerSpends(log: seq<Event>, maxReruns: int, l: Ledger, kind: Kind)
    requires LedgerOk(log, maxReruns, l) && Left(l, kind) > 0
    ensures LedgerOk(log + [Spent(kind)], maxReruns, Spend(l, kind))
  {
    Appended(log, Spent(kind));
  }

  lemma HistorySpends(m: Mode, maxReruns: int, log: seq<Event>, l: Ledger, requests: map<Name, Request>,
                      seen: map<Workflow, (nat, nat)>, kind: Kind)
    requires HistoryOk(m, maxReruns, log, l, requests, seen) && Left(l, kind) > 0
    ensures HistoryOk(m, maxReruns, log + [Spent(kind)], Spend(l, kind), requests, seen)
  {
    Appended(log, Spent(kind));
    LedgerSpends(log, maxReruns, l, kind);
  }

  lemma HistoryRequests(m: Mode, maxReruns: int, log: seq<Event>, l: Ledger, requests: map<Name, Request>,
                        seen: map<Workflow, (nat, nat)>, n: Name, q: Request)
    requires HistoryOk(m, maxReruns, log, l, requests, seen)
    requires q.workflow == WorkflowOf(n) && Requested(log, KindOf(n), q.run, q.attempt + 1)
    ensures HistoryOk(m, maxReruns, log, l, requests[n := q], seen)
  {
  }

  // ----- what the discipline means

  lemma {:induction false} DisciplinedPrefix(m: Mode, log: seq<Event>, n: nat)
    requires Disciplined(m, log) && n <= |log|
    ensures Disciplined(m, log[..n])
    decreases |log|
  {
    if n < |log| {
      DisciplinedPrefix(m, Front(log), n);
      assert Front(log)[..n] == log[..n];
    } else {
      assert log[..n] == log;
    }
  }

  lemma {:induction false} ConfirmedAt(log: seq<Event>, i: nat)
    requires AllConfirmed(log) && i < |log| && log[i].Write?
    ensures log[i].confirmed
    decreases |log|
  {
    if i < |log| - 1 { ConfirmedAt(Front(log), i); }
  }

  lemma AllowedAt(m: Mode, log: seq<Event>, i: nat)
    requires Disciplined(m, log) && i < |log| && log[i].Write?
    ensures MayWrite(m, log[..i], log[i].kind, log[i].run, log[i].attempt)
  {
    DisciplinedPrefix(m, log, i + 1);
    assert Front(log[..i + 1]) == log[..i] && Last(log[..i + 1]) == log[i];
  }

  /** Wherever a write stands, it was prepared, its evidence stood before it, and every write before
      it was confirmed. */
  lemma WriteAt(m: Mode, log: seq<Event>, i: nat)
    requires Disciplined(m, log) && i < |log| && log[i].Write?
    ensures Prepared(m, log[i].kind, log[..i])
    ensures Warranted(m, BasisOf(log[..i]), log[i].kind, log[i].run, log[i].attempt)
    ensures forall j :: 0 <= j < i && log[j].Write? ==> log[j].confirmed
  {
    AllowedAt(m, log, i);
    forall j | 0 <= j < i && log[j].Write? ensures log[j].confirmed { ConfirmedAt(log[..i], j); }
  }

  lemma {:induction false} ReadingBound(log: seq<Event>, i: nat)
    requires Monotone(log) && i < |log| && log[i].Clock?
    ensures LastReading(log).Some? && log[i].elapsed <= LastReading(log).value
    decreases |log|
  {
    if i < |log| - 1 { ReadingBound(Front(log), i); }
  }

  lemma {:induction false} MonotonePrefix(log: seq<Event>, n: nat)
    requires Monotone(log) && n <= |log|
    ensures Monotone(log[..n])
    decreases |log|
  {
    if n < |log| {
      MonotonePrefix(Front(log), n);
      assert Front(log)[..n] == log[..n];
    } else {
      assert log[..n] == log;
    }
  }

  /** In recovery mode every clock reading before a write is under the limit: nothing is written once
      a reading has reached it. */
  lemma ReadingsBeforeWrite(m: Mode, log: seq<Event>, i: nat, j: nat)
    requires Disciplined(m, log) && m.recovering && Monotone(log)
    requires i < j < |log| && log[i].Clock? && log[j].Write?
    ensures log[i].elapsed < TIME_LIMIT
  {
    WriteAt(m, log, j);
    MonotonePrefix(log, j);
    ReadingBound(log[..j], i);
  }

  /** Every write has its own ledger entry. */
  predicate Unused(log: seq<Event>, kind: Kind) {
    log != [] && (Last(log) == Spent(kind)
        || ((Last(log) == Journaled(kind) || Last(log).Clock?) && Unused(Front(log), kind)))
  }

  lemma PreparedIsUnused(m: Mode, kind: Kind, log: seq<Event>)
    requires Prepared(m, kind, log)
    ensures Unused(log, kind)
  {
  }

  lemma {:induction false} WritesAreSpent(m: Mode, log: seq<Event>, kind: Kind)
    requires Disciplined(m, log)
    ensures Count(log, kind, true) <= Count(log, kind, false)
    ensures Unused(log, kind) ==> Count(log, kind, true) < Count(log, kind, false)
    decreases |log|
  {
    if log != [] {
      WritesAreSpent(m, Front(log), kind);
      if Last(log).Write? && Last(log).kind == kind { PreparedIsUnused(m, kind, Front(log)); }
    }
  }

  /** Every write of a kind was paid for, so it stays within its budget. */
  lemma WithinBudget(m: Mode, log: seq<Event>, maxReruns: int, l: Ledger, kind: Kind)
    requires Disciplined(m, log) && LedgerOk(log, maxReruns, l)
    ensures Count(log, kind, true) <= if Budget(maxReruns, kind) > 0 then Budget(maxReruns, kind) else 0
  {
    WritesAreSpent(m, log, kind);
    assert Balanced(log, maxReruns, l, kind);
  }

  /** The budgets of a whole run: the reruns asked for each publication workflow, two smoke posts and
      one assertion post. */
  lemma WritesWithinBudgets(m: Mode, log: seq<Event>, maxReruns: int, l: Ledger)
    requires Disciplined(m, log) && LedgerOk(log, maxReruns, l)
    ensures var most := if maxReruns > 0 then maxReruns else 0;
            && Count(log, Rerun(Release), true) <= most && Count(log, Rerun(Brew), true) <= most
            && Count(log, Rerun(KindSmoke), true) == 0
            && Count(log, SmokePost, true) <= 2 && Count(log, AssertPost, true) <= 1
  {
    WithinBudget(m, log, maxReruns, l, Rerun(Release));
    WithinBudget(m, log, maxReruns, l, Rerun(Brew));
    WithinBudget(m, log, maxReruns, l, Rerun(KindSmoke));
    WithinBudget(m, log, maxReruns, l, SmokePost);
    WithinBudget(m, log, maxReruns, l, AssertPost);
  }

  /** Each smoke attempt seen is the first, a repetition, or one requested before. */
  lemma SmokeAttemptAt(m: Mode, log: seq<Event>, i: nat)
    requires Disciplined(m, log) && i < |log| && log[i].Seen? && log[i].workflow == KindSmoke
    ensures Tolerable(log[..i], log[i].run, log[i].attempt)
  {
    DisciplinedPrefix(m, log, i + 1);
    assert Front(log[..i + 1]) == log[..i] && Last(log[..i + 1]) == log[i];
  }

  // ----- where the evidence stands

  /** The history holds a reading of the workflow at `j` and none after it. */
  predicate LatestFound(log: seq<Event>, w: Workflow, j: nat, s: Snapshot) {
    j < |log| && log[j] == Found(w, s) && forall k :: j < k < |log| ==> !(log[k].Found? && log[k].workflow == w)
  }

  function Readings(b: Basis, w: Workflow): seq<Snapshot> {
    if w == KindSmoke then b.smoke else b.release
  }

  /** The last reading in the evidence is the latest in the history, and before it stands the rest. */
  lemma {:induction false} LatestReading(log: seq<Event>, w: Workflow) returns (j: nat)
    requires w != Brew && Readings(BasisOf(log), w) != []
    ensures var rs := Readings(BasisOf(log), w);
            LatestFound(log, w, j, rs[|rs| - 1]) && Readings(BasisOf(log[..j]), w) == rs[..|rs| - 1]
    decreases |log|
  {
    var e := Last(log);
    if e.Found? && e.workflow == w {
      j := |log| - 1;
      assert log[..j] == Front(log);
    } else {
      j := LatestReading(Front(log), w);
      assert Front(log)[..j] == log[..j];
    }
  }

  /** A smoke post follows two readings of the same retryable attempt, the later one the latest. */
  lemma SmokePostAt(m: Mode, log: seq<Event>, i: nat) returns (j: nat, k: nat, s: Snapshot, t: Snapshot)
    requires Disciplined(m, log) && i < |log| && log[i].Write? && log[i].kind == SmokePost
    ensures j < k && LatestFound(log[..i], KindSmoke, k, t) && LatestFound(log[..k], KindSmoke, j, s)
    ensures IsAttempt(s, log[i].run, log[i].attempt) && IsAttempt(t, log[i].run, log[i].attempt)
    ensures m.rules.smokeRetry(s).Some? && m.rules.smokeRetry(t).Some?
              && m.rules.smokeRetry(s).value.id == m.rules.smokeRetry(t).value.id
  {
    AllowedAt(m, log, i);
    var rs := BasisOf(log[..i]).smoke;
    s, t := rs[|rs| - 2], rs[|rs| - 1];
    k := LatestReading(log[..i], KindSmoke);
    assert log[..i][..k] == log[..k];
    j := LatestReading(log[..k], KindSmoke);
  }

  /** With the watcher's own rules, what a smoke post retries had failed in allowlisted steps only. */
  lemma PostedSmokeWasInfra(m: Mode, log: seq<Event>, i: nat) returns (k: nat, t: Snapshot, job: Job)
    requires Disciplined(m, log) && m.rules == RULES && i < |log| && log[i].Write? && log[i].kind == SmokePost
    ensures LatestFound(log[..i], KindSmoke, k, t) && IsAttempt(t, log[i].run, log[i].attempt)
    ensures job in t.jobs && job.name == "kind-smoke" && FailedWithin(job, SMOKE_INFRA_STEPS, true)
  {
    var j, s;
    j, k, s, t := SmokePostAt(m, log, i);
    job := SmokeRetryJob(t).value;
  }

  /** The latest smoke reading before an assertion post is green, and the latest release reading shows
      the lone assertion failure of the attempt posted for. */
  lemma AssertPostAt(m: Mode, log: seq<Event>, i: nat) returns (j: nat, k: nat, s: Snapshot, t: Snapshot)
    requires Disciplined(m, log) && i < |log| && log[i].Write? && log[i].kind == AssertPost
    ensures LatestFound(log[..i], KindSmoke, j, s) && m.rules.smokeGreen(s)
    ensures LatestFound(log[..i], Release, k, t) && m.rules.assertRetry(t).Some?
              && IsAttempt(t, log[i].run, log[i].attempt)
  {
    AllowedAt(m, log, i);
    var b := BasisOf(log[..i]);
    s, t := b.smoke[|b.smoke| - 1], b.release[|b.release| - 1];
    j := LatestReading(log[..i], KindSmoke);
    k := LatestReading(log[..i], Release);
  }
}
