/** What the release watcher reads about workflow runs, and which failures it may retry. */
module WatchEvidence {
  import opened Options

  datatype Conclusion =
    | Unset | Success | Skipped | Neutral | Failure | TimedOut | Cancelled | ActionRequired | StartupFailure | Other

  datatype Step = Step(name: string, completed: bool, conclusion: Conclusion)

  datatype Job = Job(id: nat, name: string, url: string, completed: bool, conclusion: Conclusion, steps: seq<Step>)

  datatype RunInfo = RunInfo(id: nat, attempt: nat, completed: bool, conclusion: Conclusion)

  datatype Snapshot = Snapshot(run: RunInfo, jobs: seq<Job>)

  /** A row of the publication dump. */
  datatype Row = Row(completed: bool, conclusion: Conclusion, name: string, url: string)

  predicate Fails(c: Conclusion) {
    c == Failure || c == Cancelled || c == TimedOut || c == ActionRequired || c == StartupFailure
  }

  datatype Verdict = Pending | Green | Fail

  function FailedRows(rows: seq<Row>): seq<Row> {
    if rows == [] then []
    else
      var last := rows[|rows| - 1];
      FailedRows(rows[..|rows| - 1]) + (if last.completed && Fails(last.conclusion) then [last] else [])
  }

  predicate AllCompleted(rows: seq<Row>) {
    forall i :: 0 <= i < |rows| ==> rows[i].completed
  }

  function Classify(rows: seq<Row>): Verdict {
    if !AllCompleted(rows) then Pending else if FailedRows(rows) != [] then Fail else Green
  }

  lemma {:induction false} FailedRowsMembers(rows: seq<Row>, r: Row)
    ensures r in FailedRows(rows) <==> r in rows && r.completed && Fails(r.conclusion)
  {
    if rows != [] {
      FailedRowsMembers(rows[..|rows| - 1], r);
      assert rows == rows[..|rows| - 1] + [rows[|rows| - 1]];
    }
  }

  /** Pending while a row is; then a failure if any row failed, and green if none did. */
  lemma ClassifyExactly(rows: seq<Row>)
    ensures Classify(rows) == Pending <==> exists r :: r in rows && !r.completed
    ensures Classify(rows) == Fail <==> AllCompleted(rows) && exists r :: r in rows && Fails(r.conclusion)
    ensures Classify(rows) == Green <==> forall r :: r in rows ==> r.completed && !Fails(r.conclusion)
  {
    forall r ensures r in FailedRows(rows)
        <==> r in rows && r.completed && Fails(r.conclusion) { FailedRowsMembers(rows, r); }
    if FailedRows(rows) != [] { assert FailedRows(rows)[0] in FailedRows(rows); }
  }

  /** A failed publication gate: any `assert` job or the preparation. */
  predicate GateName(name: string) {
    "assert" <= name || name == "prep"
  }

  predicate Gate(failures: seq<Row>) {
    exists i :: 0 <= i < |failures| && GateName(failures[i].name)
  }

  predicate TerminalJobs(jobs: seq<Job>) {
    jobs != [] && forall i :: 0 <= i < |jobs| ==> jobs[i].completed && jobs[i].conclusion != Unset
  }

  predicate Broken(c: Conclusion) {
    c == Failure || c == TimedOut
  }

  predicate IsHex(c: char) {
    '0' <= c <= '9' || 'a' <= c <= 'f'
  }

  const CHECKOUT := "Run actions/checkout@"

  predicate IsCheckout(name: string) {
    |name| == |CHECKOUT| + 40 && CHECKOUT <= name && forall i :: |CHECKOUT| <= i < |name| ==> IsHex(name[i])
  }

  const SMOKE_INFRA_STEPS := {"Set up job", "Create KinD cluster", "Load images into kind", "Setup Helm"}
  const GATE_STEPS := {"Gate on the kind-smoke result"}
  const ASSERT_SMOKE_STEPS := {"Set up job", "Require the real tagged KinD smoke job"}
  const RELEASE_SUCCESS_ROLES := {"prep", "assert-version", "assert-changelog", "assert-ci-coverage",
    "assert-release-metadata", "assert-worker-pin", "assert-agent-version", "publish-api", "publish-web",
    "publish-controller", "publish-agent (base, amd64)", "publish-agent (base, arm64)", "publish-agent (jvm, amd64)",
    "publish-agent (jvm, arm64)", "publish-agent-index (base)", "publish-agent-index (jvm)"}
  const RELEASE_SKIPPED_ROLES := {"publish-chart", "publish-release"}

  /** Every step is settled, at least one failed, and each failure is on the allowlist. */
  predicate FailedWithin(job: Job, allowed: set<string>, allowCheckout: bool) {
    && (exists i :: 0 <= i < |job.steps| && Broken(job.steps[i].conclusion))
    && forall i :: 0 <= i < |job.steps| ==>
         && job.steps[i].completed
         && (job.steps[i].conclusion in {Success, Skipped} || Broken(job.steps[i].conclusion))
         && (Broken(job.steps[i].conclusion) ==>
               job.steps[i].name in allowed || (allowCheckout && IsCheckout(job.steps[i].name)))
  }

  function Named(jobs: seq<Job>, name: string): (r: Option<Job>)
    ensures r.None? <==> forall i :: 0 <= i < |jobs| ==> jobs[i].name != name
    ensures r.Some? ==> r.value in jobs && r.value.name == name
  {
    if jobs == [] then None
    else if jobs[0].name == name then Some(jobs[0])
    else
      var r := Named(jobs[1..], name);
      assert forall i :: 0 < i < |jobs| ==> jobs[i] == jobs[1..][i - 1];
      r
  }

  predicate DistinctNames(jobs: seq<Job>) {
    forall i, j :: 0 <= i < j < |jobs| ==> jobs[i].name != jobs[j].name
  }

  /** The smoke run has exactly its known roles, settled and not cancelled. */
  predicate SmokeRoles(jobs: seq<Job>) {
    && DistinctNames(jobs)
    && (forall i :: 0 <= i < |jobs| ==>
          jobs[i].name in {"changes", "kind-smoke", "kind-smoke-gate"} && jobs[i].completed
          && jobs[i].conclusion != Unset && jobs[i].conclusion != Cancelled)
    && Named(jobs, "kind-smoke").Some? && Named(jobs, "kind-smoke-gate").Some?
    && (Named(jobs, "changes").Some? ==> Named(jobs, "changes").value.conclusion == Skipped)
  }

  /** The one smoke job that may be retried. */
  function SmokeRetryJob(s: Snapshot): Option<Job> {
    if !s.run.completed || !Broken(s.run.conclusion) || !SmokeRoles(s.jobs) then None
    else
      var smoke, aggregate := Named(s.jobs, "kind-smoke").value, Named(s.jobs, "kind-smoke-gate").value;
      if Broken(smoke.conclusion) && aggregate.conclusion == Failure
         && FailedWithin(smoke, SMOKE_INFRA_STEPS, true) && FailedWithin(aggregate, GATE_STEPS, false)
      then Some(smoke) else None
  }

  predicate SmokeSuccess(s: Snapshot) {
    && s.run.completed && s.run.conclusion == Success && SmokeRoles(s.jobs)
    && Named(s.jobs, "kind-smoke").value.conclusion == Success
    && Named(s.jobs, "kind-smoke-gate").value.conclusion == Success
  }

  function Unsuccessful(jobs: seq<Job>): seq<Job> {
    if jobs == [] then []
    else
      var last := jobs[|jobs| - 1];
      Unsuccessful(jobs[..|jobs| - 1]) + (if last.conclusion in {Success, Skipped, Neutral} then [] else [last])
  }

  /** The release has exactly its roles: prerequisites green, downstream skipped, the assertion alone failed. */
  function AssertionCandidate(s: Snapshot): Option<Job> {
    var failures := Unsuccessful(s.jobs);
    if !s.run.completed || !Broken(s.run.conclusion) || !TerminalJobs(s.jobs) then None
    else if |failures| != 1 || failures[0].name != "assert-tag-smoke" || !Broken(failures[0].conclusion)
            || !FailedWithin(failures[0], ASSERT_SMOKE_STEPS, true) then None
    else if !DistinctNames(s.jobs)
            || (set i | 0 <= i < |s.jobs| :: s.jobs[i].name) != RELEASE_SUCCESS_ROLES + RELEASE_SKIPPED_ROLES
                + {"assert-tag-smoke"} then None
    else if exists i :: 0 <= i < |s.jobs| && s.jobs[i].name in RELEASE_SUCCESS_ROLES && s.jobs[i].conclusion != Success
        then None
    else if exists i :: 0 <= i < |s.jobs| && s.jobs[i].name in RELEASE_SKIPPED_ROLES && s.jobs[i].conclusion != Skipped
        then None
    else Some(failures[0])
  }

  /** What the watcher takes as evidence: a retryable smoke job, a green smoke run, a lone failed
      assertion. */
  datatype Rules = Rules(smokeRetry: Snapshot -> Option<Job>, smokeGreen: Snapshot -> bool,
                         assertRetry: Snapshot -> Option<Job>)

  const RULES := Rules(SmokeRetryJob, SmokeSuccess, AssertionCandidate)

  // ----- an unchanged publication failure

  function FailedJobs(jobs: seq<Job>): seq<(string, string)> {
    if jobs == [] then []
    else
      var last := jobs[|jobs| - 1];
      FailedJobs(jobs[..|jobs| - 1])
          + (if last.completed && Fails(last.conclusion) then [(last.name, last.url)] else [])
  }

  function Labels(rows: seq<Row>): seq<(string, string)> {
    seq(|rows|, i requires 0 <= i < |rows| => (rows[i].name, rows[i].url))
  }

  /** The jobs failed now are the rows that were read as failed. */
  predicate SameFailures(jobs: seq<Job>, failures: seq<Row>) {
    multiset(FailedJobs(jobs)) == multiset(Labels(failures))
  }
}
