/** The release watcher against arbitrary answers: it polls the publication workflows, reruns what
    failed within its budgets, and in recovery mode retries the tagged smoke run. */
module Watcher {
  import opened Options
  import opened WatchEvidence
  import opened WatchLog

  /** What selecting and reading a workflow's run for recovery gives. */
  datatype Reading = NoRun | Unreadable | Read(run: nat, attempt: nat, snapshot: Snapshot)

  datatype Check = Holds | Changed | CannotTell

  /** Every answer from outside, by the turn it is asked in. */
  datatype Env = Env(
    clock: nat -> int,
    recovery: (nat, Workflow) -> Reading,
    inspect: (nat, Workflow) -> Option<Snapshot>,
    resolve: (nat, Workflow) -> Option<nat>,
    dump: nat -> Option<seq<Row>>,
    identity: nat -> Check,
    contract: nat -> Check,
    journal: nat -> bool,
    confirm: nat -> bool)

  /** The clock does not run backwards up to a turn. */
  ghost predicate Steady(env: Env, turn: nat) {
    turn == 0 || (Steady(env, turn - 1) && env.clock(turn - 1) <= env.clock(turn))
  }

  ghost predicate Forward(env: Env) {
    forall i: nat, j: nat :: i <= j ==> env.clock(i) <= env.clock(j)
  }

  lemma {:induction false} ForwardClock(env: Env, turn: nat)
    requires Forward(env)
    ensures Steady(env, turn)
  {
    if turn > 0 { ForwardClock(env, turn - 1); }
  }

  /** The workflow's run was found in one turn and its rows were green in the next. */
  predicate GreenAt(env: Env, turn: nat, w: Workflow) {
    && env.resolve(turn, w).Some? && env.dump(turn + 1).Some?
    && env.dump(turn + 1).value != [] && Classify(env.dump(turn + 1).value) == Verdict.Green
  }

  /** A call's result: a value, a recovery refusal, an unreadable identity, or any other error. */
  datatype Result<+T> = Ok(value: T) | Refused | Unavailable | Error

  datatype Mark = Green | Waiting

  datatype Sent = Blocked | Confirmed | Unconfirmed

  /** How one publication workflow leaves the loop body: on to the next, or out with an exit code. */
  datatype Next = Continue(green: bool) | Exit(code: ExitCode)

  type ExitCode = n: nat | n <= 3

  predicate Ambiguous(jobs: seq<Job>, role: string) {
    exists i, j :: 0 <= i < j < |jobs| && jobs[i].name == role && jobs[j].name == role
  }

  datatype Progress = UnderWay | Ended | WasCancelled | Intervened

  /** Where a recovery request stands. It ends only with the requested attempt, once the retried job
      has settled. */
  function ProgressOf(name: Name, q: Request, s: Snapshot): (p: Progress)
    ensures p.UnderWay? || p.Ended? ==> s.run.id == q.run && q.attempt <= s.run.attempt <= q.attempt + 1
    ensures p.Ended? ==>
              && s.run.attempt == q.attempt + 1 && Named(s.jobs, q.role).Some?
              && TerminalJobs([Named(s.jobs, q.role).value])
  {
    var target := Named(s.jobs, q.role);
    if s.run.id != q.run || (s.run.attempt != q.attempt && s.run.attempt != q.attempt + 1) then Intervened
    else if s.run.conclusion == Cancelled || exists i :: 0 <= i < |s.jobs| && s.jobs[i].conclusion == Cancelled
        then WasCancelled
    else if s.run.attempt == q.attempt then UnderWay
    else if s.jobs == [] || (target.None? && (!s.run.completed || s.run.conclusion == Unset)) then UnderWay
    else if target.None? || Ambiguous(s.jobs, q.role) then Intervened
    else if name == KindInfra && (!s.run.completed || s.run.conclusion == Unset || !TerminalJobs(s.jobs)) then UnderWay
    else if name != KindInfra && !TerminalJobs([target.value]) then UnderWay
    else Ended
  }

  class ReleaseWatcher {
    const mode: Mode
    const maxReruns: int
    const maxTicks: nat
    const env: Env
    var turn: nat
    var ledger: Ledger
    var requested: map<Workflow, (nat, nat)>
    var requests: map<Name, Request>
    var seen: map<Workflow, (nat, nat)>
    var uncertain: bool
    var ghErrors: nat
    ghost var log: seq<Event>

    ghost predicate ClockOk()
      reads this
    {
      Monotone(log) && (LastReading(log).Some? ==> LastReading(log).value <= env.clock(turn) - env.clock(0))
    }

    ghost predicate Valid()
      reads this
    {
      && (mode.recovering ==> mode.journal) && KindSmoke !in requested && turn > 0
      && (uncertain ==> !AllConfirmed(log))
      && HistoryOk(mode, maxReruns, log, ledger, requests, seen)
      && (Steady(env, turn) ==> ClockOk())
    }

    constructor (journal: bool, recovering: bool, maxReruns: int, maxTicks: nat, env: Env)
      requires recovering ==> journal
      ensures Valid() && log == [] && mode == Mode(journal, recovering, RULES)
      ensures this.maxReruns == maxReruns && this.env == env
    {
      this.mode, this.maxReruns, this.maxTicks, this.env := Mode(journal, recovering, RULES), maxReruns, maxTicks, env;
      turn, uncertain, ghErrors := 1, false, 0;
      ledger := Ledger(maxReruns, maxReruns, 2, 1);
      requested, requests, seen := map[], map[], map[];
      log := [];
    }

    /** Take the next turn with the outside world. */
    method Ask() returns (t: nat)
      requires Valid()
      modifies this`turn
      ensures Valid() && t == old(turn) && turn == t + 1
    {
      t := turn;
      turn := turn + 1;
    }

    method Elapsed() returns (elapsed: int)
      requires Valid()
      modifies this`turn, this`log
      ensures Valid() && log == old(log) + [Clock(elapsed)] && BasisOf(log) == BasisOf(old(log))
      ensures LastReading(log) == Some(elapsed) && AllConfirmed(log) == AllConfirmed(old(log)) && turn == old(turn) + 1
    {
      BasisGrows(log, Clock(env.clock(turn) - env.clock(0)));
      elapsed := env.clock(turn) - env.clock(0);
      HistoryGrows(mode, maxReruns, log, ledger, requests, seen, Clock(elapsed));
      Appended(log, Clock(elapsed));
      turn := turn + 1;
      log := log + [Clock(elapsed)];
    }

    /** Write a journal decision or observation; a failed write is an error. */
    method Journal() returns (ok: bool)
      requires Valid()
      modifies this`turn
      ensures Valid() && turn == old(turn) + 1
    {
      var t := Ask();
      ok := env.journal(t);
    }

    /** Refuses after an uncertain write and when the identity changed; allows a write only on a last
        reading under the limit. */
    method CanWrite() returns (r: Result<bool>)
      requires Valid()
      modifies this`turn, this`log
      ensures Valid() && !r.Error? && AllConfirmed(log) == AllConfirmed(old(log)) && BasisOf(log) == BasisOf(old(log))
      ensures uncertain ==> r.Refused? && log == old(log)
      ensures r.Refused? && !uncertain ==> env.identity(old(turn) + 1) == Changed
      ensures r == Ok(true) ==> env.identity(old(turn) + 1) == Holds
      ensures r.Ok? ==> LastReading(log).Some? && r.value == (LastReading(log).value < TIME_LIMIT)
    {
      if uncertain { return Refused; }
      var first := Elapsed();
      if first >= TIME_LIMIT { return Ok(false); }
      var t := Ask();
      if env.identity(t) == Changed { return Refused; }
      if env.identity(t) == CannotTell { return Unavailable; }
      var second := Elapsed();
      r := Ok(second < TIME_LIMIT);
    }

    predicate Expected(w: Workflow, run: nat, attempt: nat)
      reads this
    {
      || (KindInfra in requests && requests[KindInfra].workflow == w && run == requests[KindInfra].run
          && attempt == requests[KindInfra].attempt + 1)
      || (TagSmokeAssertion in requests && requests[TagSmokeAssertion].workflow == w
          && run == requests[TagSmokeAssertion].run && attempt == requests[TagSmokeAssertion].attempt + 1)
      || (w in requested && run == requested[w].0 && attempt == requested[w].1 + 1)
    }

    /** Accept an attempt of a workflow as the current one. */
    method See(w: Workflow, run: nat, attempt: nat)
      requires Valid() && AllConfirmed(log)
      requires w == KindSmoke ==> Tolerable(log, run, attempt)
      modifies this`seen, this`log
      ensures Valid() && AllConfirmed(log) && log == old(log) + [Seen(w, run, attempt)]
                && BasisOf(log) == BasisOf(old(log))
      ensures seen == old(seen)[w := (run, attempt)]
    {
      BasisGrows(log, Seen(w, run, attempt));
      HistoryGrows(mode, maxReruns, log, ledger, requests, seen, Seen(w, run, attempt));
      Unmoved(log, Seen(w, run, attempt));
      log := log + [Seen(w, run, attempt)];
      seen := seen[w := (run, attempt)];
    }

    /** Take a reading into the evidence. */
    method Note(e: Event)
      requires Valid() && AllConfirmed(log) && (e.Found? || e.Inspected? || e.Dumped?)
      modifies this`log
      ensures Valid() && AllConfirmed(log) && BasisOf(log) == Learn(BasisOf(old(log)), e)
    {
      HistoryGrows(mode, maxReruns, log, ledger, requests, seen, e);
      Unmoved(log, e);
      BasisGrows(log, e);
      log := log + [e];
    }

    /** Select and read a workflow's current attempt; an attempt nobody here asked for is refused. */
    method RecoverySnapshot(w: Workflow) returns (r: Result<Option<Snapshot>>)
      requires Valid() && AllConfirmed(log)
      modifies this`turn, this`log, this`seen
      ensures Valid() && AllConfirmed(log) && !r.Unavailable?
      ensures r.Ok? && r.value.None? ==> BasisOf(log) == BasisOf(old(log)) && seen == old(seen)
      ensures r.Ok? && r.value.Some? ==>
                var s := r.value.value;
                && BasisOf(log) == Learn(BasisOf(old(log)), Found(w, s))
                && seen == old(seen)[w := (s.run.id, s.run.attempt)]
                && (w in old(seen) && old(seen)[w] != (s.run.id, s.run.attempt) ==>
                      old(Expected(w, s.run.id, s.run.attempt)))
    {
      var t := Ask();
      var reading := env.recovery(t, w);
      match reading
      case Unreadable => return Error;
      case NoRun => return Ok(None);
      case Read(id, attempt, s) =>
        if s.run.id != id || s.run.attempt != attempt { return Refused; }
        if w in seen && seen[w] != (id, attempt) && !Expected(w, id, attempt) { return Refused; }
        var ok := Accept(w, s);
        r := if ok then Ok(Some(s)) else Error;
    }

    /** Take the reading of an accepted attempt as evidence and journal it. */
    method Accept(w: Workflow, s: Snapshot) returns (ok: bool)
      requires Valid() && AllConfirmed(log)
      requires w == KindSmoke ==> Tolerable(log, s.run.id, s.run.attempt)
      modifies this`turn, this`log, this`seen
      ensures Valid() && AllConfirmed(log) && BasisOf(log) == Learn(BasisOf(old(log)), Found(w, s))
      ensures seen == old(seen)[w := (s.run.id, s.run.attempt)]
    {
      See(w, s.run.id, s.run.attempt);
      Note(Found(w, s));
      ok := Journal();
    }

    /** Follow a recovery request to its end: true while it is still under way. It ends only with the
        requested attempt, once the retried job has settled. */
    method TrackRecovery(name: Name, s: Snapshot) returns (r: Result<bool>)
      requires Valid() && AllConfirmed(log)
      modifies this`turn, this`log, this`seen, this`requests
      ensures Valid() && AllConfirmed(log) && !r.Unavailable? && BasisOf(log) == BasisOf(old(log))
      ensures requests == old(requests) || (r == Ok(false) && requests == old(requests) - {name})
      ensures turn >= old(turn)
      ensures r.Ok? ==> (r.value <==> name in requests)
      ensures r.Ok? && name in old(requests) ==>
                s.run.id == old(requests)[name].run
                    && old(requests)[name].attempt <= s.run.attempt <= old(requests)[name].attempt + 1
      ensures r == Ok(false) && name in old(requests) ==>
                && s.run.attempt == old(requests)[name].attempt + 1
                && Named(s.jobs, old(requests)[name].role).Some?
                      && TerminalJobs([Named(s.jobs, old(requests)[name].role).value])
    {
      if name !in requests { return Ok(false); }
      match ProgressOf(name, requests[name], s)
      case Intervened => r := Refused;
      case WasCancelled =>
        var ok := Journal();
        r := if ok then Refused else Error;
      case UnderWay => r := Ok(true);
      case Ended =>
        var ok := Conclude(name, s);
        r := if ok then Ok(false) else Error;
    }

    /** Journal the end of a request and forget it; false if the journal failed. */
    method Conclude(name: Name, s: Snapshot) returns (ok: bool)
      requires Valid() && AllConfirmed(log) && name in requests
      requires s.run.id == requests[name].run && s.run.attempt == requests[name].attempt + 1
      modifies this`turn, this`log, this`seen, this`requests
      ensures Valid() && AllConfirmed(log) && BasisOf(log) == BasisOf(old(log))
      ensures requests == (if ok then old(requests) - {name} else old(requests)) && turn >= old(turn)
    {
      ok := Journal();
      if ok {
        See(requests[name].workflow, s.run.id, s.run.attempt);
        requests := requests - {name};
      }
    }

    /** Take one unit of a budget. */
    method TakeUnit(kind: Kind)
      requires Valid() && AllConfirmed(log) && Left(ledger, kind) > 0
      modifies this`log, this`ledger
      ensures Valid() && AllConfirmed(log) && log == old(log) + [Spent(kind)] && BasisOf(log) == BasisOf(old(log))
    {
      ghost var spent, rest := log + [Spent(kind)], Spend(ledger, kind);
      assert HistoryOk(mode, maxReruns, spent, rest, requests, seen) by {
        HistorySpends(mode, maxReruns, log, ledger, requests, seen, kind);
      }
      BasisGrows(log, Spent(kind));
      Unmoved(log, Spent(kind));
      log := spent;
      ledger := Spend(ledger, kind);
    }

    /** Have the journal record the reservation; false if it failed. */
    method JournalReservation(kind: Kind) returns (ok: bool)
      requires Valid() && AllConfirmed(log)
      modifies this`turn, this`log
      ensures Valid() && AllConfirmed(log) && (ok ==> log == old(log) + [Journaled(kind)])
      ensures BasisOf(log) == BasisOf(old(log))
    {
      BasisGrows(log, Journaled(kind));
      ok := Journal();
      if ok {
        HistoryGrows(mode, maxReruns, log, ledger, requests, seen, Journaled(kind));
        Unmoved(log, Journaled(kind));
        log := log + [Journaled(kind)];
      }
    }

    /** Spend from the ledger first, then journal it; false if the journal failed. Never refunded. */
    method Reserve(kind: Kind) returns (ok: bool)
      requires Valid() && AllConfirmed(log) && Left(ledger, kind) > 0
      modifies this`turn, this`log, this`ledger
      ensures Valid() && AllConfirmed(log) && (ok ==> Reserved(mode, kind, log)) && BasisOf(log) == BasisOf(old(log))
    {
      ghost var before := log;
      TakeUnit(kind);
      Appended(before, Spent(kind));
      ok := true;
      if mode.journal {
        ok := JournalReservation(kind);
        Appended(before + [Spent(kind)], Journaled(kind));
      }
    }

    /** Send the write. */
    method Send(kind: Kind, run: nat, attempt: nat) returns (confirmed: bool)
      requires Valid() && MayWrite(mode, log, kind, run, attempt)
      modifies this`turn, this`log
      ensures Valid() && log == old(log) + [Write(kind, run, attempt, confirmed)] && BasisOf(log) == BasisOf(old(log))
      ensures confirmed ==> AllConfirmed(log) && Requested(log, kind, run, attempt + 1)
    {
      var t := Ask();
      confirmed := env.confirm(t);
      BasisGrows(log, Write(kind, run, attempt, confirmed));
      HistoryGrows(mode, maxReruns, log, ledger, requests, seen, Write(kind, run, attempt, confirmed));
      Appended(log, Write(kind, run, attempt, confirmed));
      log := log + [Write(kind, run, attempt, confirmed)];
    }

    /** Send a reserved write, unless the clock has reached the limit meanwhile. */
    method Dispatch(kind: Kind, run: nat, attempt: nat) returns (r: Result<Sent>)
      requires Valid() && AllConfirmed(log) && Reserved(mode, kind, log)
                && Warranted(mode, BasisOf(log), kind, run, attempt)
      modifies this`turn, this`log
      ensures Valid() && !r.Unavailable? && !r.Refused? && BasisOf(log) == BasisOf(old(log))
      ensures r.Ok? ==> (r.value == Unconfirmed <==> !AllConfirmed(log))
      ensures r.Ok? && r.value == Confirmed ==> Requested(log, kind, run, attempt + 1)
    {
      if mode.recovering {
        ghost var before := log;
        var elapsed := Elapsed();
        if elapsed >= TIME_LIMIT {
          var ok := Journal();
          return if ok then Ok(Blocked) else Error;
        }
        Appended(before, Clock(elapsed));
      }
      var confirmed := Send(kind, run, attempt);
      if mode.journal {
        var ok := Journal();
        if !ok { return Error; }
      }
      r := Ok(if confirmed then Confirmed else Unconfirmed);
    }

    /** Reserve and post a recovery rerun of one job: true if the request was confirmed. */
    method RecoveryPost(name: Name, run: RunInfo, target: Job) returns (r: Result<bool>)
      requires Valid() && AllConfirmed(log) && mode.recovering
      requires Warranted(mode, BasisOf(log), KindOf(name), run.id, run.attempt)
      modifies this`turn, this`log, this`ledger, this`requests, this`uncertain
      ensures Valid() && (r.Ok? ==> AllConfirmed(log)) && !r.Unavailable? && BasisOf(log) == BasisOf(old(log))
      ensures r == Ok(false) ==> requests == old(requests)
      ensures r == Ok(true) ==>
                requests == old(requests)[name := Request(WorkflowOf(name), run.id, run.attempt, target.name)]
    {
      var kind := KindOf(name);
      if Left(ledger, kind) <= 0 { return Refused; }
      var allowed := CanWrite();
      if !allowed.Ok? { return if allowed.Refused? then Refused else Error; }
      if !allowed.value { return Ok(false); }
      var sent := ReserveAndSend(kind, run.id, run.attempt);
      if !sent.Ok? { return Error; }
      if sent.value == Blocked { return Ok(false); }
      if sent.value == Unconfirmed {
        uncertain := true;
        return Refused;
      }
      Remember(name, Request(WorkflowOf(name), run.id, run.attempt, target.name));
      r := Ok(true);
    }

    method ReserveAndSend(kind: Kind, run: nat, attempt: nat) returns (r: Result<Sent>)
      requires Valid() && AllConfirmed(log) && Left(ledger, kind) > 0
                && Warranted(mode, BasisOf(log), kind, run, attempt)
      modifies this`turn, this`log, this`ledger
      ensures Valid() && !r.Unavailable? && !r.Refused? && BasisOf(log) == BasisOf(old(log))
      ensures r.Ok? ==> (r.value == Unconfirmed <==> !AllConfirmed(log))
      ensures r.Ok? && r.value == Confirmed ==> Requested(log, kind, run, attempt + 1)
    {
      var reserved := Reserve(kind);
      if !reserved { return Error; }
      r := Dispatch(kind, run, attempt);
    }

    method Remember(name: Name, request: Request)
      requires Valid() && request.workflow == WorkflowOf(name)
                && Requested(log, KindOf(name), request.run, request.attempt + 1)
      modifies this`requests
      ensures Valid() && requests == old(requests)[name := request]
    {
      HistoryRequests(mode, maxReruns, log, ledger, requests, seen, name, request);
      requests := requests[name := request];
    }

    /** One recovery step on the tagged smoke run. */
    method RecoveryTick() returns (r: Result<Mark>)
      requires Valid() && (uncertain || AllConfirmed(log)) && mode.recovering
      modifies this
      ensures Valid() && (r.Ok? ==> AllConfirmed(log)) && !r.Unavailable?
      ensures r == Ok(Mark.Green) ==> SmokeIsGreen(mode, log)
    {
      if uncertain { return Refused; }
      var observed := RecoverySnapshot(KindSmoke);
      if observed.Refused? { return Refused; }
      if !observed.Ok? {
        var _ := Journal();
        return Ok(Waiting);
      }
      if observed.value.None? { return Ok(Waiting); }
      var s := observed.value.value;
      var tracked := TrackRecovery(KindInfra, s);
      if !tracked.Ok? { return if tracked.Refused? then Refused else Error; }
      if tracked.value || !s.run.completed || s.run.conclusion == Unset || !TerminalJobs(s.jobs) { return Ok(Waiting); }
      if mode.rules.smokeGreen(s) { return Ok(Mark.Green); }
      var target := mode.rules.smokeRetry(s);
      if target.None? { return Refused; }
      r := RetrySmoke(s, target.value);
    }

    /** The release must be safe and the workflow definition unchanged. */
    method RetrySmoke(s: Snapshot, target: Job) returns (r: Result<Mark>)
      requires Valid() && AllConfirmed(log) && mode.recovering && mode.rules.smokeRetry(s) == Some(target)
      requires LastOf(BasisOf(log).smoke) == Some(s)
      modifies this
      ensures Valid() && (r.Ok? ==> AllConfirmed(log) && r.value == Waiting) && !r.Unavailable?
    {
      var release := RecoverySnapshot(Release);
      if !release.Ok? { return if release.Refused? then Refused else Error; }
      if release.value.Some? && !ReleaseSafe(release.value.value.jobs) { return Refused; }
      var contract := RequireContract();
      if !contract.Ok? { return if contract.Refused? then Refused else Error; }
      r := RetrySmokeAgain(s, target);
    }

    /** Read the current evidence once more, and post only if it is the same. */
    method RetrySmokeAgain(s: Snapshot, target: Job) returns (r: Result<Mark>)
      requires Valid() && AllConfirmed(log) && mode.recovering && mode.rules.smokeRetry(s) == Some(target)
      requires LastOf(BasisOf(log).smoke) == Some(s)
      modifies this
      ensures Valid() && (r.Ok? ==> AllConfirmed(log) && r.value == Waiting) && !r.Unavailable?
    {
      var latest := RecoverySnapshot(KindSmoke);
      if !latest.Ok? { return if latest.Refused? then Refused else Error; }
      if latest.value.None? || latest.value.value.run.id != s.run.id
          || latest.value.value.run.attempt != s.run.attempt { return Refused; }
      var current := mode.rules.smokeRetry(latest.value.value);
      if current.None? || current.value.id != target.id { return Refused; }
      var posted := RecoveryPost(KindInfra, latest.value.value.run, current.value);
      r := if posted.Ok? then Ok(Waiting) else if posted.Refused? then Refused else Error;
    }

    /** Only the tag-smoke assertion may have failed, and then alone. */
    predicate ReleaseSafe(jobs: seq<Job>) {
      && (forall i :: 0 <= i < |jobs| && jobs[i].completed && Fails(jobs[i].conclusion) && GateName(jobs[i].name) ==>
            jobs[i].name == "assert-tag-smoke")
      && ((exists i :: 0 <= i < |jobs| && jobs[i].completed && Fails(jobs[i].conclusion)
            && jobs[i].name == "assert-tag-smoke") ==>
          forall i, j :: 0 <= i < j < |jobs| ==>
              !(jobs[i].completed && Fails(jobs[i].conclusion) && jobs[j].completed && Fails(jobs[j].conclusion)))
    }

    method RequireContract() returns (r: Result<bool>)
      requires Valid() && AllConfirmed(log)
      modifies this`turn
      ensures Valid() && !r.Unavailable?
    {
      var t := Ask();
      r := match env.contract(t) case Holds => Ok(true) case Changed => Refused case CannotTell => Error;
    }

    /** A confirmed retry of the run's tag-smoke assertion is on record. */
    ghost predicate Retried(run: nat)
      reads this
    {
      TagSmokeAssertion in requests && requests[TagSmokeAssertion].run == run
          && Requested(log, AssertPost, run, requests[TagSmokeAssertion].attempt + 1)
    }

    /** Retry the tag-smoke assertion once the smoke run is green. */
    method RecoverAssertion(runId: nat) returns (r: Result<bool>)
      requires Valid() && AllConfirmed(log) && mode.recovering
      modifies this
      ensures Valid() && (r.Ok? ==> AllConfirmed(log)) && !r.Unavailable?
      ensures r == Ok(true) ==> Retried(runId) && SmokeIsGreen(mode, log)
    {
      var observed := RecoverySnapshot(Release);
      if !observed.Ok? { return if observed.Refused? then Refused else Error; }
      if observed.value.None? || observed.value.value.run.id != runId { return Refused; }
      var s := observed.value.value;
      var tracked := TrackRecovery(TagSmokeAssertion, s);
      if !tracked.Ok? { return if tracked.Refused? then Refused else Error; }
      if tracked.value { return Ok(false); }
      var target := mode.rules.assertRetry(s);
      if target.None? { return Refused; }
      var contract := RequireContract();
      if !contract.Ok? { return if contract.Refused? then Refused else Error; }
      contract := RequireContract();
      if !contract.Ok? { return if contract.Refused? then Refused else Error; }
      r := RetryAssertion(s, target.value);
    }

    /** Only on a green smoke run and the same failure read again. */
    method RetryAssertion(s: Snapshot, target: Job) returns (r: Result<bool>)
      requires Valid() && AllConfirmed(log) && mode.recovering && mode.rules.assertRetry(s) == Some(target)
      requires LastOf(BasisOf(log).release) == Some(s)
      modifies this
      ensures Valid() && (r.Ok? ==> AllConfirmed(log)) && !r.Unavailable?
      ensures r == Ok(true) ==> Retried(s.run.id) && SmokeIsGreen(mode, log)
    {
      var smoke := RecoverySnapshot(KindSmoke);
      if !smoke.Ok? { return if smoke.Refused? then Refused else Error; }
      if smoke.value.None? || !mode.rules.smokeGreen(smoke.value.value) { return Ok(false); }
      var current := RecoverySnapshot(Release);
      if !current.Ok? { return if current.Refused? then Refused else Error; }
      if current.value.None? || current.value.value.run.id != s.run.id
          || current.value.value.run.attempt != s.run.attempt { return Refused; }
      var again := mode.rules.assertRetry(current.value.value);
      if again.None? || again.value.id != target.id { return Refused; }
      r := RetryAssertionAgain(current.value.value, again.value);
    }

    /** And the smoke run still green at the end. */
    method RetryAssertionAgain(t: Snapshot, target: Job) returns (r: Result<bool>)
      requires Valid() && AllConfirmed(log) && mode.recovering
      requires SmokeIsGreen(mode, log) && SameAssertion(mode.rules, BasisOf(log).release, t.run.id, t.run.attempt)
      modifies this
      ensures Valid() && (r.Ok? ==> AllConfirmed(log)) && !r.Unavailable?
      ensures r == Ok(true) ==> Retried(t.run.id) && SmokeIsGreen(mode, log)
    {
      var latest := RecoverySnapshot(KindSmoke);
      if !latest.Ok? { return if latest.Refused? then Refused else Error; }
      if latest.value.None? || !mode.rules.smokeGreen(latest.value.value) { return Ok(false); }
      r := RecoveryPost(TagSmokeAssertion, t.run, target);
    }

    /** Read a publication run into the journal and settle a rerun that has finished. A reading of
        another run is an error. */
    method Observe(w: Workflow, runId: nat) returns (r: Result<Option<Snapshot>>)
      requires Valid() && AllConfirmed(log) && w != KindSmoke
      modifies this`turn, this`log, this`seen, this`requested
      ensures Valid() && AllConfirmed(log) && !r.Unavailable? && turn >= old(turn)
      ensures BasisOf(log).dumps == BasisOf(old(log)).dumps && BasisOf(log).smoke == BasisOf(old(log)).smoke
      ensures r.Ok? && mode.journal ==>
                r.value.Some? && r.value.value.run.id == runId
                    && BasisOf(log) == Learn(BasisOf(old(log)), Inspected(w, r.value.value))
      ensures requested == old(requested)
              || (r.Ok? && r.value.Some? && w in old(requested)
                  && requested == old(requested) - {w} && Finished(r.value.value, old(requested)[w]))
    {
      if !mode.journal { return Ok(None); }
      var inspected := Inspect(w, runId);
      if !inspected.Ok? { return Error; }
      var s := inspected.value;
      if mode.recovering && w in requested && Intrudes(s, requested[w]) { return Refused; }
      if mode.recovering && w !in seen { See(w, s.run.id, s.run.attempt); }
      var ok := Settle(w, s);
      r := if ok then Ok(Some(s)) else Error;
    }

    /** Read a publication run and journal it. */
    method Inspect(w: Workflow, runId: nat) returns (r: Result<Snapshot>)
      requires Valid() && AllConfirmed(log)
      modifies this`turn, this`log
      ensures Valid() && AllConfirmed(log) && !r.Unavailable? && !r.Refused?
      ensures BasisOf(log) == if r.Ok? then Learn(BasisOf(old(log)), Inspected(w, r.value)) else BasisOf(old(log))
      ensures turn >= old(turn) && (r.Ok? ==> r.value.run.id == runId)
    {
      var t := Ask();
      var s := env.inspect(t, w);
      if s.None? || s.value.run.id != runId { return Error; }
      var ok := Journal();
      if !ok { return Error; }
      Note(Inspected(w, s.value));
      r := Ok(s.value);
    }

    /** A completed run that is neither the requested attempt nor the next one. */
    predicate Intrudes(s: Snapshot, request: (nat, nat)) {
      s.run.completed && (s.run.id != request.0 || (s.run.attempt != request.1 && s.run.attempt != request.1 + 1))
    }

    /** Forget a rerun whose later attempt has finished; false if the journal failed. */
    method Settle(w: Workflow, s: Snapshot) returns (ok: bool)
      requires Valid() && AllConfirmed(log) && w != KindSmoke
      modifies this`turn, this`log, this`seen, this`requested
      ensures Valid() && AllConfirmed(log) && BasisOf(log) == BasisOf(old(log)) && turn >= old(turn)
      ensures requested == if ok && w in old(requested) && Finished(s, old(requested)[w]) then old(requested) - {w}
                else old(requested)
    {
      ok := true;
      if w in requested && Finished(s, requested[w]) {
        ok := Journal();
        if !ok { return; }
        requested := requested - {w};
        if mode.recovering { See(w, s.run.id, s.run.attempt); }
      }
    }

    /** A later attempt of the requested run has settled. */
    predicate Finished(s: Snapshot, request: (nat, nat)) {
      s.run.id == request.0 && s.run.attempt > request.1 && s.run.completed && s.run.conclusion != Unset
          && TerminalJobs(s.jobs)
    }

    /** Rerun a failed publication workflow, if everything still allows it. */
    method RerunPublication(w: Workflow, runId: nat, failures: seq<Row>) returns (n: Result<Next>)
      requires Valid() && AllConfirmed(log) && (w == Release || w == Brew) && Left(ledger, Rerun(w)) > 0
      requires w in BasisOf(log).dumps && Classify(BasisOf(log).dumps[w]) == Fail
      requires failures == FailedRows(BasisOf(log).dumps[w]) && !Gate(failures)
      modifies this`turn, this`log, this`seen, this`requested, this`ledger
      ensures Valid() && !n.Unavailable? && (n.Ok? && n.value.Continue? ==> AllConfirmed(log))
      ensures n.Ok? ==> n.value == Continue(false) || n.value == Exit(1)
    {
      var attempt := 0;
      if mode.journal {
        var observed := Observe(w, runId);
        if !observed.Ok? { return if observed.Refused? then Refused else Error; }
        var s := observed.value.value;
        if !s.run.completed || !TerminalJobs(s.jobs) || !SameFailures(s.jobs, failures) { return Error; }
        attempt := s.run.attempt;
      }
      if mode.recovering {
        var allowed := CanWrite();
        if allowed.Refused? { return Refused; }
        if allowed.Unavailable? || !allowed.value { return Ok(Continue(false)); }
      }
      n := SendRerun(w, runId, attempt);
    }

    method SendRerun(w: Workflow, runId: nat, attempt: nat) returns (n: Result<Next>)
      requires Valid() && AllConfirmed(log) && w != KindSmoke && Left(ledger, Rerun(w)) > 0
      requires Warranted(mode, BasisOf(log), Rerun(w), runId, attempt)
      modifies this`turn, this`log, this`requested, this`ledger
      ensures Valid() && !n.Unavailable? && (n.Ok? && n.value.Continue? ==> AllConfirmed(log))
      ensures n.Ok? ==> n.value == Continue(false) || n.value == Exit(1)
    {
      var sent := ReserveAndSend(Rerun(w), runId, attempt);
      if !sent.Ok? { return Error; }
      if sent.value == Unconfirmed { return Ok(Exit(1)); }
      if mode.journal && sent.value == Confirmed { requested := requested[w := (runId, attempt)]; }
      n := Ok(Continue(false));
    }

    /** One publication workflow in one tick. It counts as green only on green rows, and then nothing
        was read or written but its own run. */
    method PollWorkflow(w: Workflow, smoke: Mark) returns (n: Result<Next>)
      requires Valid() && AllConfirmed(log) && (w == Release || w == Brew)
      modifies this
      ensures Valid() && !n.Unavailable? && (n.Ok? && n.value.Continue? ==> AllConfirmed(log))
      ensures n == Ok(Continue(true)) ==>
                GreenAt(env, old(turn), w) && turn > old(turn) + 1 && ledger == old(ledger)
                    && BasisOf(log).smoke == BasisOf(old(log)).smoke
      ensures GreenAt(env, old(turn), w) && n.Ok? ==> n == Ok(Continue(true))
      ensures n.Ok? && n.value.Exit? ==> n.value == Exit(1) || (n.value == Exit(3) && ghErrors >= 3)
    {
      var t := Ask();
      var run := env.resolve(t, w);
      if run.None? { return Ok(Continue(false)); }
      t := Ask();
      var rows := env.dump(t);
      if rows.None? {
        ghErrors := ghErrors + 1;
        return if ghErrors >= 3 then Ok(Exit(3)) else Ok(Continue(false));
      }
      ghErrors := 0;
      var seenAll := ObserveAndTrack(w, run.value);
      if !seenAll.Ok? { return if seenAll.Refused? then Refused else Error; }
      if rows.value == [] { return Ok(Continue(false)); }
      if Classify(rows.value) == Verdict.Green { return Ok(Continue(true)); }
      if Classify(rows.value) == Pending { return Ok(Continue(false)); }
      n := React(w, run.value, smoke);
    }

    /** Journal the publication run and follow the assertion's retry; an unreadable run is let pass. */
    method ObserveAndTrack(w: Workflow, run: nat) returns (r: Result<bool>)
      requires Valid() && AllConfirmed(log) && (w == Release || w == Brew)
      modifies this`turn, this`log, this`seen, this`requested, this`requests
      ensures Valid() && AllConfirmed(log) && !r.Unavailable? && turn >= old(turn)
      ensures BasisOf(log).smoke == BasisOf(old(log)).smoke
    {
      var observed := Observe(w, run);
      if observed.Refused? { return Refused; }
      if mode.recovering && w == Release && observed.Ok? && observed.value.Some? {
        r := TrackRecovery(TagSmokeAssertion, observed.value.value);
        return;
      }
      r := Ok(false);
    }

    /** A failure is read again before anything is done about it. */
    method React(w: Workflow, run: nat, smoke: Mark) returns (n: Result<Next>)
      requires Valid() && AllConfirmed(log) && (w == Release || w == Brew)
      modifies this
      ensures Valid() && !n.Unavailable? && (n.Ok? && n.value.Continue? ==> AllConfirmed(log))
      ensures n.Ok? ==> n.value == Continue(false) || n.value == Exit(1)
    {
      var t := Ask();
      var rows := env.dump(t);
      if rows.None? || Classify(rows.value) != Fail { return Ok(Continue(false)); }
      Note(Dumped(w, rows.value));
      var failures := FailedRows(rows.value);
      if mode.recovering && w == Release && |failures| == 1 && failures[0].name == "assert-tag-smoke" {
        if smoke == Mark.Green {
          var recovered := RecoverAssertion(run);
          if !recovered.Ok? { return if recovered.Refused? then Refused else Error; }
        }
        return Ok(Continue(false));
      }
      if Gate(failures) || Left(ledger, Rerun(w)) <= 0 {
        var last := Observe(w, run);
        return if last.Refused? then Refused else Ok(Exit(1));
      }
      n := RerunPublication(w, run, failures);
    }

    /** Both publication workflows were green when last read, and in recovery mode the smoke run. */
    ghost predicate AllGreen()
      reads this
    {
      && (mode.recovering ==> SmokeIsGreen(mode, log))
      && exists t: nat, u: nat :: t + 1 < u && u + 1 < turn && GreenAt(env, t, Release) && GreenAt(env, u, Brew)
    }

    /** The tick loop: 0 all green, 1 stopped, 2 still pending, 3 evidence unavailable. */
    method Poll() returns (code: nat)
      requires Valid() && AllConfirmed(log)
      modifies this
      ensures Valid() && code <= 3 && (code == 0 ==> AllGreen())
    {
      var tick := 0;
      while tick < maxTicks
        invariant Valid() && AllConfirmed(log)
        decreases maxTicks - tick
      {
        var smoke := Mark.Green;
        if mode.recovering {
          var state := RecoveryTick();
          if !state.Ok? { return if state.Refused? then 1 else 3; }
          smoke := state.value;
        }
        ghost var first := turn;
        var release := PollWorkflow(Release, smoke);
        if !release.Ok? { return if release.Refused? then 1 else 3; }
        if release.value.Exit? { return release.value.code; }
        ghost var second := turn;
        var brew := PollWorkflow(Brew, smoke);
        if !brew.Ok? { return if brew.Refused? then 1 else 3; }
        if brew.value.Exit? { return brew.value.code; }
        if smoke == Mark.Green && release.value.green && brew.value.green {
          assert GreenAt(env, first, Release) && GreenAt(env, second, Brew);
          return 0;
        }
        tick := tick + 1;
      }
      code := 2;
    }

    /** A whole run, whatever the answers: the writes stay within their budgets, each was reserved
        first and follows only confirmed writes, success means that all was green, and on a clock that
        never runs backwards nothing is written in recovery mode once a reading has reached the limit. */
    method Run() returns (code: nat)
      requires Valid() && log == []
      modifies this
      ensures code <= 3 && Disciplined(mode, log) && (code == 0 ==> AllGreen())
      ensures var most := if maxReruns > 0 then maxReruns else 0;
              && Count(log, Rerun(Release), true) <= most && Count(log, Rerun(Brew), true) <= most
              && Count(log, SmokePost, true) <= 2 && Count(log, AssertPost, true) <= 1
      ensures Forward(env) ==> Monotone(log)
      ensures Forward(env) && mode.recovering ==>
                forall i, j :: 0 <= i < j < |log| && log[i].Clock? && log[j].Write? ==> log[i].elapsed < TIME_LIMIT
    {
      code := Poll();
      WritesWithinBudgets(mode, log, maxReruns, ledger);
      if Forward(env) {
        ForwardClock(env, turn);
        if mode.recovering { NothingWrittenLate(mode, log); }
      }
    }
  }

  lemma NothingWrittenLate(m: Mode, log: seq<Event>)
    requires Disciplined(m, log) && m.recovering && Monotone(log)
    ensures forall i, j :: 0 <= i < j < |log| && log[i].Clock? && log[j].Write? ==> log[i].elapsed < TIME_LIMIT
  {
    forall i, j | 0 <= i < j < |log| && log[i].Clock? && log[j].Write? ensures log[i].elapsed < TIME_LIMIT {
      ReadingsBeforeWrite(m, log, i, j);
    }
  }
}
