/** The Azure DevOps and GitHub runners: which run statuses reach meshStack when status
    updates are retried, rejected, or lost after they arrived. Times are milliseconds. */
module Pollers {
  import opened Snapshots
  import opened MeshStackRetry

  // ----- one status update -----

  const ATTEMPT_TIMEOUT := 30_000

  /** A call as the client sees it: after half a minute it breaks off, whatever meshStack does. */
  function CutOff(call: Attempt): Attempt {
    if call.duration > ATTEMPT_TIMEOUT then Attempt(ATTEMPT_TIMEOUT, Failing(IoError), call.applied) else call
  }

  /** The attempts of the n-th update of a run. */
  function Attempts(calls: nat -> nat -> Attempt, n: nat): nat -> Attempt {
    (k: nat) => CutOff(calls(n)(k))
  }

  /** What meshStack applies of one update that took `tries` attempts. */
  function Arrivals(status: Status, attempts: nat -> Attempt, tries: nat): seq<Status> {
    if tries == 0 then []
    else Arrivals(status, attempts, tries - 1) + if attempts(tries - 1).applied then [status] else []
  }

  lemma {:induction false} ArrivalsAreCopies(status: Status, attempts: nat -> Attempt, tries: nat)
    ensures forall s :: s in Arrivals(status, attempts, tries) ==> s == status
    ensures Arrivals(status, attempts, tries) != [] <==> exists k :: 0 <= k < tries && attempts(k).applied
  {
    if tries > 0 {
      ArrivalsAreCopies(status, attempts, tries - 1);
      if attempts(tries - 1).applied {
        assert Arrivals(status, attempts, tries) != [];
      }
    }
  }

  /** meshStack applies an attempt and yet rejects it for good. */
  predicate AppliedButRejected(a: Attempt) {
    a.applied && a.answer.Failing? && !IsTransient(a.answer.failure)
  }

  /** A failure is raised as it is although the update arrived, exactly when its first attempt
      was applied and rejected for good: a first attempt that breaks off is always retried. */
  lemma RaisedAfterArrivalIff(status: Status, calls: nat -> nat -> Attempt, n: nat, start: nat, tries: nat)
    requires Tries(Attempts(calls, n), start, tries)
    ensures
      (Classify(Attempts(calls, n)(tries - 1).answer, tries > 1, true).Raised? && Arrivals(status, Attempts(calls, n), tries) != [])
      <==> AppliedButRejected(Attempts(calls, n)(0))
  {
    var attempts := Attempts(calls, n);
    ArrivalsAreCopies(status, attempts, tries);
    assert attempts(0) == CutOff(calls(n)(0));
    if tries > 1 {
      assert !IsLast(attempts, start, 0);
    }
  }

  /** Without a timeout there would be a second way: hanging until the retry gives up. */
  lemma RaisedAfterArrivalWithoutTimeoutIff(status: Status, attempts: nat -> Attempt, start: nat, tries: nat)
    requires Tries(attempts, start, tries)
    ensures
      (Classify(attempts(tries - 1).answer, tries > 1, true).Raised? && Arrivals(status, attempts, tries) != [])
      <==>
      AppliedButRejected(attempts(0)) ||
      (attempts(0).applied && attempts(0).answer.Failing? && attempts(0).duration >= GIVE_UP_AFTER - INITIAL_DELAY)
  {
    ArrivalsAreCopies(status, attempts, tries);
    if tries > 1 {
      assert !IsLast(attempts, start, 0);
    }
  }

  /** Such an update exists: meshStack commits it and answers 500. */
  lemma AnUpdateCanArriveAndBeRaised(status: Status, calls: nat -> nat -> Attempt, n: nat, start: nat)
    requires calls(n)(0) == Attempt(200, Failing(Rejected(500)), true)
    ensures Tries(Attempts(calls, n), start, 1)
    ensures Classify(Attempts(calls, n)(0).answer, false, true) == Raised(Rejected(500))
    ensures Arrivals(status, Attempts(calls, n), 1) == [status]
  {
    assert Attempts(calls, n)(0) == calls(n)(0);
    assert Arrivals(status, Attempts(calls, n), 0) == [];
  }

  /** What meshStack answers it has applied, and what it rejects for good at once it has not. */
  ghost predicate Trusted(calls: nat -> nat -> Attempt) {
    && (forall n: nat :: !AppliedButRejected(Attempts(calls, n)(0)))
    && (forall n: nat, k: nat :: calls(n)(k).answer.Answered? ==> calls(n)(k).applied)
  }

  lemma {:induction false} EndIsLater(attempts: nat -> Attempt, start: nat, k: nat)
    ensures End(attempts, start, k) >= start
  {
    if k > 0 {
      EndIsLater(attempts, start, k - 1);
    }
  }

  // ----- the updates of a run -----

  /** An update: the status it carries, when it began, its attempts, and how it ended. */
  datatype Update = Update(status: Status, start: nat, tries: nat, result: Result)

  function EndOf(calls: nat -> nat -> Attempt, log: seq<Update>, n: nat): nat
    requires n < |log| && log[n].tries > 0
  {
    End(Attempts(calls, n), log[n].start, log[n].tries - 1)
  }

  /** The n-th update is the n-th series of attempts, and ended before the next began. */
  ghost predicate Happened(calls: nat -> nat -> Attempt, log: seq<Update>, n: nat, now: nat)
    requires n < |log|
  {
    var u, attempts := log[n], Attempts(calls, n);
    && Tries(attempts, u.start, u.tries)
    && u.result == Classify(attempts(u.tries - 1).answer, u.tries > 1, true)
    && EndOf(calls, log, n) <= if n + 1 < |log| then log[n + 1].start else now
  }

  ghost predicate Recorded(calls: nat -> nat -> Attempt, log: seq<Update>, now: nat) {
    forall n :: 0 <= n < |log| ==> Happened(calls, log, n, now)
  }

  /** What meshStack has applied, in order. */
  ghost function AppliedBy(calls: nat -> nat -> Attempt, log: seq<Update>): seq<Status> {
    if log == [] then [] else
    var n := |log| - 1;
    AppliedBy(calls, log[..n]) + Arrivals(log[n].status, Attempts(calls, n), log[n].tries)
  }

  /** The time spent in updates. */
  ghost function BusyWith(calls: nat -> nat -> Attempt, log: seq<Update>): nat {
    if log == [] then 0 else
    var n := |log| - 1;
    BusyWith(calls, log[..n]) + if log[n].tries > 0 && EndOf(calls, log, n) > log[n].start then EndOf(calls, log, n) - log[n].start else 0
  }

  lemma OneMoreUpdate(calls: nat -> nat -> Attempt, log: seq<Update>, now: nat, u: Update, end: nat)
    requires Recorded(calls, log, now) && u.start == now
    requires var attempts := Attempts(calls, |log|);
      && Tries(attempts, now, u.tries) && end == End(attempts, now, u.tries - 1)
      && u.result == Classify(attempts(u.tries - 1).answer, u.tries > 1, true)
    ensures end >= now && Recorded(calls, log + [u], end)
    ensures BusyWith(calls, log + [u]) == BusyWith(calls, log) + (end - now)
  {
    EndIsLater(Attempts(calls, |log|), now, u.tries - 1);
    var longer := log + [u];
    assert longer[..|log|] == log;
    forall n | 0 <= n < |longer|
      ensures Happened(calls, longer, n, end)
    {
      assert n < |log| ==> Happened(calls, log, n, now) && EndOf(calls, longer, n) == EndOf(calls, log, n);
    }
  }

  lemma StaysRecorded(calls: nat -> nat -> Attempt, log: seq<Update>, now: nat, later: nat)
    requires Recorded(calls, log, now) && now <= later
    ensures Recorded(calls, log, later)
  {
    forall n | 0 <= n < |log|
      ensures Happened(calls, log, n, later)
    {
      assert Happened(calls, log, n, now);
    }
  }

  class RunClient {
    const calls: nat -> nat -> Attempt  // for every update of the run, its calls to meshStack
    var now: nat
    var updates: nat
    var log: seq<Update>                // all updates, in order

    constructor (calls: nat -> nat -> Attempt, now: nat)
      ensures this.calls == calls && this.now == now && log == [] && Valid()
    {
      this.calls, this.now, updates, log := calls, now, 0, [];
    }

    /** The log is the record of the calls, update by update and attempt by attempt. */
    ghost predicate Valid()
      reads this
    {
      updates == |log| && Recorded(calls, log, now)
    }

    ghost function Applied(): seq<Status>
      reads this`log
    {
      AppliedBy(calls, log)
    }

    ghost function Busy(): nat
      reads this`log
    {
      BusyWith(calls, log)
    }

    method Wait(d: nat)
      requires Valid()
      modifies this`now
      ensures Valid() && now == old(now) + d
    {
      StaysRecorded(calls, log, now, now + d);
      now := now + d;
    }

    /** One update, retried. Valid says how often, how it ends, and with Applied what arrives. */
    method UpdateBlockRun(status: Status) returns (result: Result)
      requires Valid()
      modifies this
      ensures Valid() && |log| == |old(log)| + 1
      ensures log == old(log) + [Update(status, old(now), log[|old(log)|].tries, result)]
      ensures log[|old(log)|].tries > 0 && now == EndOf(calls, log, |old(log)|) >= old(now)
      ensures Busy() == old(Busy()) + (now - old(now))
    {
      var tries, end;
      result, tries, end := Call(Attempts(calls, updates), now, true);
      OneMoreUpdate(calls, log, now, Update(status, now, tries, result), end);
      updates, log, now := updates + 1, log + [Update(status, now, tries, result)], end;
    }
  }

  // ----- what meshStack must never see -----

  /** No terminal status is contradicted by another. */
  ghost predicate Consistent(applied: seq<Status>) {
    forall i, j :: 0 <= i < |applied| && 0 <= j < |applied| && Terminal(applied[i]) && Terminal(applied[j]) ==>
      applied[i] == applied[j]
  }

  ghost predicate Open(applied: seq<Status>) {
    forall s :: s in applied ==> !Terminal(s)
  }

  ghost predicate NoneTerminal(log: seq<Update>) {
    forall i :: 0 <= i < |log| ==> !Terminal(log[i].status)
  }

  ghost predicate SomeApplied(calls: nat -> nat -> Attempt, log: seq<Update>, n: nat)
    requires n < |log|
  {
    exists k :: 0 <= k < log[n].tries && Attempts(calls, n)(k).applied
  }

  /** The first attempt of a SUCCEEDED is applied and rejected for good, and of the FAILED that
      follows some attempt is applied. */
  ghost predicate Contradicted(calls: nat -> nat -> Attempt, log: seq<Update>) {
    exists i :: 0 <= i < |log| - 1
      && log[i].status == Succeeded && AppliedButRejected(Attempts(calls, i)(0))
      && log[i + 1].status == Failed && SomeApplied(calls, log, i + 1)
  }

  /** What holds when a run has ended: it contradicts itself exactly on those attempts, not at all
      if they can be trusted, and if it ends in a plain exception it has applied no end. */
  ghost predicate Safe(calls: nat -> nat -> Attempt, log: seq<Update>, ended: Result) {
    && (Consistent(AppliedBy(calls, log)) <==> !Contradicted(calls, log))
    && (Trusted(calls) ==> Consistent(AppliedBy(calls, log)))
    && (Trusted(calls) && ended.Raised? ==> Open(AppliedBy(calls, log)))
    && (Trusted(calls) && ended == Returned && log != [] && Terminal(log[|log| - 1].status) ==>
          AppliedBy(calls, log) != [] && Terminal(AppliedBy(calls, log)[|AppliedBy(calls, log)| - 1]))
  }

  /** Only IN_PROGRESS has been sent since. */
  ghost predicate Polling(before: seq<Update>, log: seq<Update>) {
    before <= log && forall i :: |before| <= i < |log| ==> log[i].status == InProgress
  }

  /** The final status, and FAILED after it exactly if it was raised. */
  ghost predicate Concludes(before: seq<Update>, log: seq<Update>, final: Status, ended: Result) {
    && |before| < |log| <= |before| + 2 && before <= log
    && log[|before|].status == final
    && (|log| == |before| + 2 <==> log[|before|].result.Raised?)
    && (|log| == |before| + 2 ==> log[|before| + 1].status == Failed)
    && ended == log[|log| - 1].result
  }

  /** Polling up to the final status with number `at`, and nothing after its conclusion. */
  ghost predicate EndsWith(before: seq<Update>, log: seq<Update>, at: nat, final: Status, ended: Result) {
    |before| <= at < |log| && Polling(before, log[..at]) && Concludes(log[..at], log, final, ended)
  }

  lemma EndsWithGrows(before: seq<Update>, log: seq<Update>, at: nat, final: Status, ended: Result)
    requires EndsWith(before, log, at, final, ended)
    ensures |before| < |log| && log[..|before|] == before && ended == log[|log| - 1].result
  {
    assert log[..at][..|before|] == log[..|before|];
  }

  lemma {:induction false} AppliedComesFrom(calls: nat -> nat -> Attempt, log: seq<Update>, s: Status)
    requires s in AppliedBy(calls, log)
    ensures exists i :: 0 <= i < |log| && log[i].status == s
  {
    var n := |log| - 1;
    ArrivalsAreCopies(log[n].status, Attempts(calls, n), log[n].tries);
    if s in AppliedBy(calls, log[..n]) {
      AppliedComesFrom(calls, log[..n], s);
      var i :| 0 <= i < n && log[..n][i].status == s;
      assert log[i].status == s;
    } else {
      assert log[n].status == s;
    }
  }

  lemma NoneTerminalIsOpen(calls: nat -> nat -> Attempt, log: seq<Update>)
    requires NoneTerminal(log)
    ensures Open(AppliedBy(calls, log))
  {
    forall s | s in AppliedBy(calls, log)
      ensures !Terminal(s)
    {
      AppliedComesFrom(calls, log, s);
    }
  }

  /** If every end that was sent was raised, none was applied. */
  lemma {:induction false} RaisedLeavesNothing(calls: nat -> nat -> Attempt, log: seq<Update>, now: nat)
    requires Recorded(calls, log, now) && Trusted(calls)
    requires forall i :: 0 <= i < |log| && Terminal(log[i].status) ==> log[i].result.Raised?
    ensures Open(AppliedBy(calls, log))
  {
    if log != [] {
      var n := |log| - 1;
      assert Happened(calls, log, n, now);
      ShorterIsRecorded(calls, log, n, now);
      RaisedLeavesNothing(calls, log[..n], log[n].start);
      ArrivalsAreCopies(log[n].status, Attempts(calls, n), log[n].tries);
      RaisedAfterArrivalIff(log[n].status, calls, n, log[n].start, log[n].tries);
    }
  }

  lemma ShorterIsRecorded(calls: nat -> nat -> Attempt, log: seq<Update>, n: nat, now: nat)
    requires Recorded(calls, log, now) && n < |log|
    ensures Recorded(calls, log[..n], log[n].start)
  {
    forall i | 0 <= i < n
      ensures Happened(calls, log[..n], i, log[n].start)
    {
      assert Happened(calls, log, i, now) && EndOf(calls, log[..n], i) == EndOf(calls, log, i);
    }
  }

  /** An update that returned has been applied. */
  lemma ReturnedIsApplied(calls: nat -> nat -> Attempt, log: seq<Update>, now: nat)
    requires Recorded(calls, log, now) && Trusted(calls) && log != [] && log[|log| - 1].result == Returned
    ensures var applied := AppliedBy(calls, log); applied != [] && applied[|applied| - 1] == log[|log| - 1].status
  {
    var n := |log| - 1;
    var u, attempts := log[n], Attempts(calls, n);
    assert Happened(calls, log, n, now);
    assert attempts(u.tries - 1) == CutOff(calls(n)(u.tries - 1)) && attempts(u.tries - 1).applied;
    ArrivalsAreCopies(u.status, attempts, u.tries);
    var arrivals := Arrivals(u.status, attempts, u.tries);
    assert arrivals[|arrivals| - 1] in arrivals;
  }

  /** Two statuses in a row are applied side by side. */
  lemma AppliedInTwo(calls: nat -> nat -> Attempt, log: seq<Update>, at: nat)
    requires at < |log| <= at + 2
    ensures AppliedBy(calls, log) == AppliedBy(calls, log[..at]) + Arrivals(log[at].status, Attempts(calls, at), log[at].tries)
      + if |log| == at + 2 then Arrivals(log[at + 1].status, Attempts(calls, at + 1), log[at + 1].tries) else []
  {
    if |log| == at + 2 {
      assert log[..at + 1][..at] == log[..at];
    }
  }

  lemma SidesAreConsistentIff(open: seq<Status>, finals: seq<Status>, failures: seq<Status>, final: Status)
    requires Open(open) && (final == Succeeded || final == Failed)
    requires (forall s :: s in finals ==> s == final) && forall s :: s in failures ==> s == Failed
    ensures Consistent(open + finals + failures) <==> !(final == Succeeded && finals != [] && failures != [])
  {
    var all := open + finals + failures;
    if final == Succeeded && finals != [] && failures != [] {
      assert all[|open|] == finals[0] && finals[0] in finals && all[|open| + |finals|] == failures[0] && failures[0] in failures;
    } else {
      var end := if final == Succeeded && finals != [] then Succeeded else Failed;
      forall i | 0 <= i < |all| && Terminal(all[i])
        ensures all[i] == end
      {
        assert all[i] in open || all[i] in finals || all[i] in failures;
      }
    }
  }

  /** The condition under which a concluded run contradicts itself, on its attempts. */
  lemma ContradictionIff(calls: nat -> nat -> Attempt, log: seq<Update>, at: nat, final: Status, ended: Result, now: nat)
    requires Recorded(calls, log, now) && (final == Succeeded || final == Failed)
    requires at < |log| && NoneTerminal(log[..at]) && Concludes(log[..at], log, final, ended)
    ensures Consistent(AppliedBy(calls, log)) <==>
      !(final == Succeeded && |log| == at + 2 && AppliedButRejected(Attempts(calls, at)(0)) && SomeApplied(calls, log, at + 1))
  {
    hide Tries, Classify, Attempts, Consistent, AppliedBy, Arrivals, AppliedButRejected, EndOf;
    NoneTerminalIsOpen(calls, log[..at]);
    AppliedInTwo(calls, log, at);
    var open, finals := AppliedBy(calls, log[..at]), Arrivals(final, Attempts(calls, at), log[at].tries);
    ArrivalsAreCopies(final, Attempts(calls, at), log[at].tries);
    assert Happened(calls, log, at, now);
    RaisedAfterArrivalIff(final, calls, at, log[at].start, log[at].tries);
    if |log| == at + 2 {
      var failures := Arrivals(Failed, Attempts(calls, at + 1), log[at + 1].tries);
      ArrivalsAreCopies(Failed, Attempts(calls, at + 1), log[at + 1].tries);
      SidesAreConsistentIff(open, finals, failures, final);
    } else {
      SidesAreConsistentIff(open, finals, [], final);
      assert open + finals + [] == open + finals;
    }
  }

  lemma ContradictedIff(calls: nat -> nat -> Attempt, log: seq<Update>, at: nat, final: Status, ended: Result)
    requires (final == Succeeded || final == Failed) && at < |log| && NoneTerminal(log[..at]) && Concludes(log[..at], log, final, ended)
    ensures Contradicted(calls, log) <==>
      final == Succeeded && |log| == at + 2 && AppliedButRejected(Attempts(calls, at)(0)) && SomeApplied(calls, log, at + 1)
  {
    hide Attempts, AppliedButRejected;
    assert forall i :: 0 <= i < at ==> log[i] == log[..at][i];
  }

  lemma ConcludedIsSafe(calls: nat -> nat -> Attempt, log: seq<Update>, at: nat, final: Status, ended: Result, now: nat)
    requires Recorded(calls, log, now) && (final == Succeeded || final == Failed)
    requires at < |log| && NoneTerminal(log[..at]) && Concludes(log[..at], log, final, ended)
    ensures Safe(calls, log, ended)
  {
    ContradictionIff(calls, log, at, final, ended, now);
    ContradictedIff(calls, log, at, final, ended);
    if Trusted(calls) {
      if ended.Raised? {
        assert forall i :: 0 <= i < at ==> log[i] == log[..at][i];
        RaisedLeavesNothing(calls, log, now);
      } else if ended == Returned {
        ReturnedIsApplied(calls, log, now);
      }
    }
  }

  /** A run that sent only IN_PROGRESS and FAILED, and no end before its last update. */
  ghost predicate OnlyFails(log: seq<Update>) {
    && log != [] && NoneTerminal(log[..|log| - 1])
    && (log[|log| - 1].status == InProgress || log[|log| - 1].status == Failed)
  }

  lemma FailureIsConsistent(calls: nat -> nat -> Attempt, log: seq<Update>)
    requires OnlyFails(log)
    ensures Consistent(AppliedBy(calls, log)) && Succeeded !in AppliedBy(calls, log)
  {
    hide Consistent;
    var n := |log| - 1;
    NoneTerminalIsOpen(calls, log[..n]);
    ArrivalsAreCopies(log[n].status, Attempts(calls, n), log[n].tries);
    var open, last := AppliedBy(calls, log[..n]), Arrivals(log[n].status, Attempts(calls, n), log[n].tries);
    if log[n].status == InProgress {
      SidesAreConsistentIff(open + last, [], [], Failed);
      assert open + last + [] + [] == open + last;
    } else {
      SidesAreConsistentIff(open, [], last, Failed);
      assert open + [] + last == open + last;
    }
  }

  lemma FailureIsSafe(calls: nat -> nat -> Attempt, log: seq<Update>, ended: Result, now: nat)
    requires Recorded(calls, log, now) && OnlyFails(log) && ended == log[|log| - 1].result
    ensures Safe(calls, log, ended) && Succeeded !in AppliedBy(calls, log)
  {
    hide AppliedBy, Consistent, Attempts;
    FailureIsConsistent(calls, log);
    assert forall i :: 0 <= i < |log| - 1 ==> log[i] == log[..|log| - 1][i];
    if Trusted(calls) {
      if ended.Raised? {
        RaisedLeavesNothing(calls, log, now);
      } else if ended == Returned {
        ReturnedIsApplied(calls, log, now);
      }
    }
  }

  // ----- the end of a poll -----

  /** The catch clauses around both polling loops: an unknown outcome ends the run, any other
      failure is reported as FAILED. */
  method Conclude(client: RunClient, final: Status) returns (ended: Result)
    requires client.Valid() && (final == Succeeded || final == Failed) && NoneTerminal(client.log)
    modifies client
    ensures client.Valid() && Concludes(old(client.log), client.log, final, ended)
    ensures client.now - old(client.now) == client.Busy() - old(client.Busy()) >= 0
    ensures Safe(client.calls, client.log, ended)
    ensures Succeeded in client.Applied() ==> final == Succeeded
  {
    hide Recorded, EndOf, Safe;
    ghost var before := client.log;
    ended := client.UpdateBlockRun(final);
    if ended.Raised? {
      ended := client.UpdateBlockRun(Failed);
    }
    assert client.log[..|before|] == before;
    ConcludedIsSafe(client.calls, client.log, |before|, final, ended, client.now);
    if Succeeded in client.Applied() {
      AppliedComesFrom(client.calls, client.log, Succeeded);
    }
  }

  const MAX_POLLING := 1_800_000
  const POLLING_INTERVAL := 10_000
  const MAX_ROUNDS := MAX_POLLING / POLLING_INTERVAL + 1

  /** A pipeline run or a workflow run. */
  datatype RemoteRun = RemoteRun(state: int, completed: bool, succeeded: bool)

  /** One round of polling: how long the calls take, what the run is answered to be if it is
      answered, whether its timeline or its jobs could be read, and whether these hold news. */
  datatype Poll = Poll(took: nat, run: Option<RemoteRun>, details: bool, news: bool)

  function StatusOf(run: RemoteRun): Status {
    if run.succeeded then Succeeded else Failed
  }

  /** The last answer of the first `rounds` rounds. */
  function RunAfter(first: RemoteRun, polls: nat -> Poll, rounds: nat): RemoteRun {
    if rounds == 0 then first
    else match polls(rounds - 1).run
      case None => RunAfter(first, polls, rounds - 1)
      case Some(run) => run
  }

  /** Which answer that is. */
  lemma {:induction false} TheLastAnswerCounts(first: RemoteRun, polls: nat -> Poll, rounds: nat, k: nat, run: RemoteRun)
    ensures k < rounds && polls(k).run == Some(run) && (forall j :: k < j < rounds ==> polls(j).run == None) ==>
      RunAfter(first, polls, rounds) == run
    ensures (forall j :: 0 <= j < rounds ==> polls(j).run == None) ==> RunAfter(first, polls, rounds) == first
  {
    if rounds > 0 {
      TheLastAnswerCounts(first, polls, rounds - 1, k, run);
    }
  }

  /** How many of the first `rounds` rounds are of one kind. */
  function Count(rounds: nat, kind: nat -> bool): nat {
    if rounds == 0 then 0 else Count(rounds - 1, kind) + if kind(rounds - 1) then 1 else 0
  }

  lemma {:induction false} CountIsTheNumber(rounds: nat, kind: nat -> bool)
    ensures Count(rounds, kind) == |set k: nat | k < rounds && kind(k)|
  {
    var all := set k: nat | k < rounds && kind(k);
    if rounds == 0 {
      assert all == {};
    } else {
      CountIsTheNumber(rounds - 1, kind);
      var fewer := set k: nat | k < rounds - 1 && kind(k);
      assert all == if kind(rounds - 1) then fewer + {rounds - 1} else fewer;
    }
  }

  /** News of the jobs of a workflow are in the rounds whose jobs could be read and had changed. */
  lemma NewsAre(polls: nat -> Poll, rounds: nat)
    ensures Count(rounds, WithNews(polls)) ==
      |set k: nat | k < rounds && polls(k).run.Some? && polls(k).details && polls(k).news|
  {
    CountIsTheNumber(rounds, WithNews(polls));
    assert (set k: nat | k < rounds && polls(k).run.Some? && polls(k).details && polls(k).news)
        == set k: nat | k < rounds && WithNews(polls)(k);
  }

  function Answers(polls: nat -> Poll): nat -> bool {
    (k: nat) => polls(k).run.Some?
  }

  function WithDetails(polls: nat -> Poll): nat -> bool {
    (k: nat) => polls(k).run.Some? && polls(k).details
  }

  function WithNews(polls: nat -> Poll): nat -> bool {
    (k: nat) => polls(k).run.Some? && polls(k).details && polls(k).news
  }

  /** The state last seen in the first `rounds` rounds. */
  function StateSeen(polls: nat -> Poll, rounds: nat): Option<int> {
    if rounds == 0 then None
    else match polls(rounds - 1).run
      case None => StateSeen(polls, rounds - 1)
      case Some(run) => Some(run.state)
  }

  /** The rounds with details, or with another state than was last seen. */
  function WithAnotherState(polls: nat -> Poll): nat -> bool {
    (k: nat) => polls(k).run.Some? && (polls(k).details || StateSeen(polls, k) != Some(polls(k).run.value.state))
  }

  ghost predicate AllReturned(before: seq<Update>, log: seq<Update>) {
    forall i :: |before| <= i < |log| ==> log[i].result == Returned
  }

  /** How much is sent while a pipeline is polled: an update for every answered round with details,
      none for a round without answer, one at least if there is an answer; and exactly the rounds
      with details or another state if no update fails. */
  ghost predicate PipelineReported(before: seq<Update>, log: seq<Update>, polls: nat -> Poll, rounds: nat) {
    && |before| + Count(rounds, WithDetails(polls)) <= |log| <= |before| + Count(rounds, Answers(polls))
    && (Count(rounds, Answers(polls)) > 0 ==> |log| > |before|)
    && (AllReturned(before, log) ==> |log| == |before| + Count(rounds, WithAnotherState(polls)))
  }

  /** With the state last reported. */
  ghost predicate Reporting(before: seq<Update>, log: seq<Update>, polls: nat -> Poll, rounds: nat, reported: Option<int>) {
    && PipelineReported(before, log, polls, rounds)
    && (AllReturned(before, log) ==> reported == StateSeen(polls, rounds))
    && (|log| == |before| ==> reported == None)
  }

  lemma NothingReported(before: seq<Update>, polls: nat -> Poll)
    ensures Reporting(before, before, polls, 0, None)
  {
  }

  lemma ReportingIsReported(before: seq<Update>, log: seq<Update>, polls: nat -> Poll, rounds: nat, reported: Option<int>)
    requires Reporting(before, log, polls, rounds, reported)
    ensures PipelineReported(before, log, polls, rounds)
  {
  }

  lemma OneMoreRound(before: seq<Update>, log: seq<Update>, longer: seq<Update>, polls: nat -> Poll, rounds: nat,
                     reported: Option<int>, now: Option<int>)
    requires Reporting(before, log, polls, rounds, reported)
    requires polls(rounds).run == None ==> longer == log && now == reported
    requires polls(rounds).run.Some? ==>
      var state := Some(polls(rounds).run.value.state);
      if polls(rounds).details || reported != state
      then |longer| == |log| + 1 && log <= longer && now == if longer[|log|].result == Returned then state else reported
      else longer == log && now == state
    ensures Reporting(before, longer, polls, rounds + 1, now)
  {
    if AllReturned(before, longer) {
      assert AllReturned(before, log);
    }
  }

  function Polled(polls: nat -> Poll, rounds: nat): nat {
    if rounds == 0 then 0 else Polled(polls, rounds - 1) + POLLING_INTERVAL + polls(rounds - 1).took
  }

  /** Polling went on for `rounds` rounds, and not beyond the first answer that the run has
      completed. */
  ghost predicate Followed(first: RemoteRun, polls: nat -> Poll, rounds: nat, final: RemoteRun) {
    && final == RunAfter(first, polls, rounds)
    && forall k :: 0 <= k < rounds ==> !RunAfter(first, polls, k).completed
  }

  function FinalStatus(run: RemoteRun): Status {
    if run.completed then StatusOf(run) else Failed
  }

  // ----- Azure DevOps -----

  /** Polls until the pipeline has completed, or for more than half an hour; then sends the
      status of the pipeline, or FAILED. All the time goes into polling and updates. */
  method PollPipelineCompletion(client: RunClient, pipelineRun: RemoteRun, polls: nat -> Poll)
    returns (ended: Result, finalRun: RemoteRun, rounds: nat, ghost at: nat)
    requires client.Valid() && NoneTerminal(client.log)
    modifies client
    ensures client.Valid() && EndsWith(old(client.log), client.log, at, FinalStatus(finalRun), ended)
    ensures PipelineReported(old(client.log), client.log[..at], polls, rounds)
    ensures client.log[at].status == Succeeded <==> finalRun.completed && finalRun.succeeded
    ensures Followed(pipelineRun, polls, rounds, finalRun) && rounds <= MAX_ROUNDS
    ensures finalRun.completed || client.now > old(client.now) + MAX_POLLING
    ensures client.now - old(client.now) == Polled(polls, rounds) + (client.Busy() - old(client.Busy()))
    ensures Safe(client.calls, client.log, ended)
    ensures Succeeded in client.Applied() ==> finalRun.completed && finalRun.succeeded
  {
    hide Recorded, EndOf, Safe, AppliedBy, BusyWith, Reporting;
    var triggerTime := client.now;
    finalRun := pipelineRun;
    var lastReportedState := None;
    rounds := 0;
    NothingReported(client.log, polls);
    while !finalRun.completed
      invariant client.Valid() && NoneTerminal(client.log) && Polling(old(client.log), client.log)
      invariant Reporting(old(client.log), client.log, polls, rounds, lastReportedState)
      invariant client.now - triggerTime == Polled(polls, rounds) + (client.Busy() - old(client.Busy())) && client.Busy() >= old(client.Busy())
      invariant Polled(polls, rounds) >= rounds * POLLING_INTERVAL && rounds <= MAX_ROUNDS
      invariant Followed(pipelineRun, polls, rounds, finalRun)
      decreases triggerTime + MAX_POLLING - client.now
    {
      if client.now > triggerTime + MAX_POLLING {
        break;
      }
      var poll := polls(rounds);
      client.Wait(POLLING_INTERVAL);
      client.Wait(poll.took);
      rounds := rounds + 1;
      ghost var log, reported := client.log, lastReportedState;
      if poll.run.None? {
        OneMoreRound(old(client.log), log, client.log, polls, rounds - 1, reported, lastReportedState);
        continue;
      }
      finalRun := poll.run.value;
      var result := Returned;
      if poll.details || lastReportedState != Some(finalRun.state) {
        result := client.UpdateBlockRun(InProgress);
      }
      if result == Returned {
        lastReportedState := Some(finalRun.state);
      }
      OneMoreRound(old(client.log), log, client.log, polls, rounds - 1, reported, lastReportedState);
    }
    ReportingIsReported(old(client.log), client.log, polls, rounds, lastReportedState);
    hide PipelineReported;
    ghost var polled := client.log;
    at := |polled|;
    ended := Conclude(client, FinalStatus(finalRun));
    assert client.log[..at] == polled;
  }

  lemma NothingPolled(polls: nat -> Poll)
    ensures Polled(polls, 0) == 0
  {
  }

  /** What an Azure DevOps run meets on its way to the pipeline. */
  datatype AzureRun = AzureRun(
    implementation: bool, client: bool, triggered: Option<RemoteRun>, async: bool, polls: nat -> Poll)

  predicate AzureTriggers(run: AzureRun) {
    run.implementation && run.client && run.triggered.Some?
  }

  /** `finalRun` is the pipeline as it was last seen, if it was polled at all; `ended` is how
      the processing ends, in a return or in an exception. */
  method ProcessAzureBlock(client: RunClient, run: AzureRun)
    returns (ended: Result, finalRun: Option<RemoteRun>, rounds: nat, ghost at: nat)
    requires client.Valid() && client.log == []
    modifies client
    ensures client.Valid() && client.log != [] && client.log[0].status == if AzureTriggers(run) then InProgress else Failed
    ensures client.log[0].status == InProgress <==> run.implementation && run.client && run.triggered.Some?
    ensures finalRun.Some? <==> AzureTriggers(run) && !run.async && client.log[0].result == Returned
    ensures finalRun.None? ==> |client.log| == 1 && ended == client.log[0].result
    ensures finalRun.Some? ==> Followed(run.triggered.value, run.polls, rounds, finalRun.value)
    ensures finalRun.Some? ==> finalRun.value.completed || client.now > old(client.now) + MAX_POLLING
    ensures finalRun.Some? ==> EndsWith(client.log[..1], client.log, at, FinalStatus(finalRun.value), ended)
    ensures finalRun.Some? ==> PipelineReported(client.log[..1], client.log[..at], run.polls, rounds)
    ensures finalRun.Some? ==> (client.log[at].status == Succeeded <==> finalRun.value.completed && finalRun.value.succeeded)
    ensures ended == client.log[|client.log| - 1].result
    ensures finalRun.None? ==> rounds == 0
    ensures client.now - old(client.now) == Polled(run.polls, rounds) + (client.Busy() - old(client.Busy()))
    ensures Safe(client.calls, client.log, ended)
    ensures Succeeded in client.Applied() ==> finalRun.Some? && finalRun.value.completed && finalRun.value.succeeded
  {
    hide Recorded, EndOf, Safe, AppliedBy, BusyWith, Followed, Polled, PipelineReported;
    NothingPolled(run.polls);
    finalRun, rounds, at := None, 0, 0;
    if !AzureTriggers(run) {
      ended := client.UpdateBlockRun(Failed);
      FailureIsSafe(client.calls, client.log, ended, client.now);
      return;
    }
    ended := client.UpdateBlockRun(InProgress);
    FailureIsSafe(client.calls, client.log, ended, client.now);
    if ended != Returned || run.async {
      return;
    }
    ghost var triggered := client.log;
    var final;
    ended, final, rounds, at := PollPipelineCompletion(client, run.triggered.value, run.polls);
    finalRun := Some(final);
    EndsWithGrows(triggered, client.log, at, FinalStatus(final), ended);
  }

  // ----- GitHub -----

  /** One attempt to find the workflow run. */
  datatype Search = Search(took: nat, run: Option<RemoteRun>)

  datatype Trigger = Triggered | UnsupportedInput | TriggerError | TriggerThrows

  datatype GithubRun = GithubRun(
    prepared: bool,  // implementation, client, tokens, installation and workflow name are there
    trigger: Trigger,
    triggering: nat, // how long triggering takes
    async: bool,
    find: nat -> Search,
    polls: nat -> Poll,
    finalJobs: Option<bool>)

  const MAX_FIND_WORKFLOW_ATTEMPTS := 12

  /** An attempt in vain is followed by a pause. */
  function SearchTime(search: Search): nat {
    search.took + if search.run.None? then POLLING_INTERVAL else 0
  }

  function Searched(find: nat -> Search, attempts: nat): nat {
    if attempts == 0 then 0
    else Searched(find, attempts - 1) + SearchTime(find(attempts - 1))
  }

  /** The first run found within the attempts there are. */
  ghost predicate Found(find: nat -> Search, attempts: nat, run: Option<RemoteRun>) {
    && attempts <= MAX_FIND_WORKFLOW_ATTEMPTS
    && (run.Some? ==> attempts > 0 && run == find(attempts - 1).run && forall k :: 0 <= k < attempts - 1 ==> find(k).run == None)
    && (run.None? ==> attempts == MAX_FIND_WORKFLOW_ATTEMPTS && forall k :: 0 <= k < attempts ==> find(k).run == None)
  }

  method WaitForSearch(client: RunClient, search: Search)
    requires client.Valid()
    modifies client`now
    ensures client.Valid() && client.now == old(client.now) + SearchTime(search)
  {
    client.Wait(search.took);
    if search.run.None? {
      client.Wait(POLLING_INTERVAL);
    }
  }

  method FindWorkflowRun(client: RunClient, find: nat -> Search) returns (run: Option<RemoteRun>, attempts: nat)
    requires client.Valid()
    modifies client`now
    ensures client.Valid() && Found(find, attempts, run) && attempts > 0 && client.now == old(client.now) + Searched(find, attempts)
  {
    hide SearchTime, Recorded, EndOf;
    run, attempts := None, 0;
    while run.None? && attempts < MAX_FIND_WORKFLOW_ATTEMPTS
      invariant client.Valid() && attempts <= MAX_FIND_WORKFLOW_ATTEMPTS && client.now == old(client.now) + Searched(find, attempts)
      invariant run.Some? ==> attempts > 0 && run == find(attempts - 1).run
      invariant forall k :: 0 <= k < attempts - (if run.Some? then 1 else 0) ==> find(k).run == None
    {
      var search := find(attempts);
      attempts := attempts + 1;
      WaitForSearch(client, search);
      run := search.run;
    }
  }

  /** Polls until the workflow run has completed or the time is over. */
  method FollowWorkflow(client: RunClient, workflowRun: RemoteRun, polls: nat -> Poll, triggerTime: nat)
    returns (currentRun: RemoteRun, rounds: nat)
    requires client.Valid() && triggerTime <= client.now && NoneTerminal(client.log)
    modifies client
    ensures client.Valid() && NoneTerminal(client.log) && Polling(old(client.log), client.log)
    ensures |client.log| == |old(client.log)| + Count(rounds, WithNews(polls))
    ensures Followed(workflowRun, polls, rounds, currentRun) && rounds <= MAX_ROUNDS
    ensures currentRun.completed || client.now > triggerTime + MAX_POLLING
    ensures client.now - old(client.now) == Polled(polls, rounds) + (client.Busy() - old(client.Busy())) && client.Busy() >= old(client.Busy())
  {
    hide Recorded, EndOf, BusyWith;
    currentRun, rounds := workflowRun, 0;
    while !currentRun.completed
      invariant client.Valid() && NoneTerminal(client.log) && Polling(old(client.log), client.log)
      invariant |client.log| == |old(client.log)| + Count(rounds, WithNews(polls))
      invariant client.now - old(client.now) == Polled(polls, rounds) + (client.Busy() - old(client.Busy())) && client.Busy() >= old(client.Busy())
      invariant Polled(polls, rounds) >= rounds * POLLING_INTERVAL && rounds <= MAX_ROUNDS
      invariant Followed(workflowRun, polls, rounds, currentRun)
      decreases triggerTime + MAX_POLLING - client.now
    {
      if client.now > triggerTime + MAX_POLLING {
        return;
      }
      var poll := polls(rounds);
      client.Wait(POLLING_INTERVAL);
      client.Wait(poll.took);
      rounds := rounds + 1;
      if poll.run.None? {
        continue;
      }
      currentRun := poll.run.value;
      if poll.details && poll.news {
        var _ := client.UpdateBlockRun(InProgress);
      }
    }
  }

  /** The jobs of a completed run are read once more. */
  function AtTheEnd(run: GithubRun, finalRun: RemoteRun): nat {
    if finalRun.completed && run.finalJobs == Some(true) then 1 else 0
  }

  /** As for the pipeline, once the workflow run is found; FAILED if it is not. */
  method PollWorkflowCompletion(client: RunClient, run: GithubRun, triggerTime: nat)
    returns (ended: Result, finalRun: Option<RemoteRun>, ghost found: Option<RemoteRun>, attempts: nat, rounds: nat, ghost at: nat)
    requires client.Valid() && triggerTime <= client.now && NoneTerminal(client.log)
    modifies client
    ensures client.Valid()
    ensures EndsWith(old(client.log), client.log, at, if finalRun.Some? then FinalStatus(finalRun.value) else Failed, ended)
    ensures finalRun.None? ==> at == |old(client.log)|
    ensures finalRun.Some? ==> at == |old(client.log)| + Count(rounds, WithNews(run.polls)) + AtTheEnd(run, finalRun.value)
    ensures client.log[at].status == Succeeded <==> finalRun.Some? && finalRun.value.completed && finalRun.value.succeeded
    ensures Found(run.find, attempts, found) && attempts > 0 && (finalRun.Some? <==> found.Some?) && rounds <= MAX_ROUNDS
    ensures found.Some? ==> Followed(found.value, run.polls, rounds, finalRun.value)
    ensures found.Some? ==> finalRun.value.completed || client.now > triggerTime + MAX_POLLING
    ensures client.now - old(client.now) ==
      Searched(run.find, attempts) + Polled(run.polls, rounds) + (client.Busy() - old(client.Busy()))
    ensures Safe(client.calls, client.log, ended)
    ensures Succeeded in client.Applied() ==> finalRun.Some? && finalRun.value.completed && finalRun.value.succeeded
  {
    hide Recorded, EndOf, Safe, AppliedBy, BusyWith, Found, Followed, Searched;
    var workflowRun;
    workflowRun, attempts := FindWorkflowRun(client, run.find);
    finalRun, found, rounds, at := workflowRun, workflowRun, 0, |client.log|;
    if workflowRun.None? {
      ended := Conclude(client, Failed);
      assert client.log[..at] == old(client.log);
      return;
    }
    var currentRun;
    currentRun, rounds := FollowWorkflow(client, workflowRun.value, run.polls, triggerTime);
    finalRun := Some(currentRun);
    if currentRun.completed && run.finalJobs == Some(true) {
      var _ := client.UpdateBlockRun(InProgress);
    }
    ghost var polled := client.log;
    at := |polled|;
    ended := Conclude(client, FinalStatus(currentRun));
    assert client.log[..at] == polled;
  }

  predicate GithubTriggers(run: GithubRun) {
    run.prepared && run.trigger.Triggered?
  }

  /** The first status of a triggered run; if it is raised, the run has failed. */
  method ReportTrigger(client: RunClient) returns (ended: Result)
    requires client.Valid() && client.log == []
    modifies client
    ensures client.Valid() && client.now - old(client.now) == client.Busy() - old(client.Busy()) >= 0
    ensures client.log != [] && client.log[0].status == InProgress && ended == client.log[|client.log| - 1].result
    ensures |client.log| == if client.log[0].result.Raised? then 2 else 1
    ensures |client.log| == 2 ==> client.log[1].status == Failed
    ensures Safe(client.calls, client.log, ended) && Succeeded !in client.Applied()
  {
    hide Recorded, EndOf, Safe, AppliedBy, BusyWith;
    ended := client.UpdateBlockRun(InProgress);
    if ended.Raised? {
      ended := client.UpdateBlockRun(Failed);
    }
    FailureIsSafe(client.calls, client.log, ended, client.now);
  }

  function TriggerTime(run: GithubRun): nat {
    if run.prepared then run.triggering else 0
  }

  lemma NothingSearched(find: nat -> Search)
    ensures Searched(find, 0) == 0
  {
  }

  predicate FailedInside(run: GithubRun) {
    run.prepared && !run.trigger.TriggerThrows?
  }

  /** Everything before the poll. A first status that is raised inside the try block is followed
      by FAILED. */
  method TriggerWorkflow(client: RunClient, run: GithubRun) returns (ended: Result)
    requires client.Valid() && client.log == []
    modifies client
    ensures client.Valid() && client.log != [] && client.log[0].status == if GithubTriggers(run) then InProgress else Failed
    ensures |client.log| <= 2 && ended == client.log[|client.log| - 1].result
    ensures |client.log| == 2 <==> client.log[0].result.Raised? && FailedInside(run)
    ensures |client.log| == 2 ==> client.log[1].status == Failed
    ensures client.now - old(client.now) == TriggerTime(run) + (client.Busy() - old(client.Busy())) && client.Busy() >= old(client.Busy())
    ensures Safe(client.calls, client.log, ended) && Succeeded !in client.Applied()
  {
    hide Recorded, EndOf, Safe, AppliedBy, BusyWith;
    if !run.prepared {
      ended := client.UpdateBlockRun(Failed);
      FailureIsSafe(client.calls, client.log, ended, client.now);
      return;
    }
    client.Wait(run.triggering);
    match run.trigger {
      case Triggered =>
        ended := ReportTrigger(client);
      case UnsupportedInput | TriggerError =>
        // Sent inside the try block, so a failure of this report is reported once more.
        ended := Conclude(client, Failed);
      case TriggerThrows =>
        ended := client.UpdateBlockRun(Failed);
        FailureIsSafe(client.calls, client.log, ended, client.now);
    }
  }

  predicate GithubPolls(run: GithubRun, first: Update) {
    GithubTriggers(run) && !run.async && first.result == Returned
  }

  /** As for Azure DevOps, with failures inside and outside the try block. */
  method ProcessGithubBlock(client: RunClient, run: GithubRun)
    returns (ended: Result, finalRun: Option<RemoteRun>, ghost found: Option<RemoteRun>, attempts: nat, rounds: nat, ghost at: nat)
    requires client.Valid() && client.log == []
    modifies client
    ensures client.Valid() && client.log != [] && client.log[0].status == if GithubTriggers(run) then InProgress else Failed
    ensures ended == client.log[|client.log| - 1].result
    ensures client.log[0].status == InProgress <==> run.prepared && run.trigger == Triggered
    ensures attempts > 0 <==> client.log[0].status == InProgress && client.log[0].result == Returned && !run.async
    ensures GithubPolls(run, client.log[0]) ==> Found(run.find, attempts, found) && (finalRun.Some? <==> found.Some?)
    ensures GithubPolls(run, client.log[0]) ==>
      EndsWith(client.log[..1], client.log, at, if finalRun.Some? then FinalStatus(finalRun.value) else Failed, ended)
    ensures !GithubPolls(run, client.log[0]) ==> finalRun.None? && attempts == rounds == 0 && |client.log| <= 2
    ensures !GithubPolls(run, client.log[0]) ==> (|client.log| == 2 <==> client.log[0].result.Raised? && FailedInside(run))
    ensures !GithubPolls(run, client.log[0]) && |client.log| == 2 ==> client.log[1].status == Failed
    ensures finalRun.Some? ==> Followed(found.value, run.polls, rounds, finalRun.value)
    ensures finalRun.Some? ==> at == 1 + Count(rounds, WithNews(run.polls)) + AtTheEnd(run, finalRun.value)
    ensures GithubPolls(run, client.log[0]) ==>
      (client.log[at].status == Succeeded <==> finalRun.Some? && finalRun.value.completed && finalRun.value.succeeded)
    ensures finalRun.Some? ==> finalRun.value.completed || client.now > old(client.now) + MAX_POLLING
    ensures client.now - old(client.now) == TriggerTime(run) +
      Searched(run.find, attempts) + Polled(run.polls, rounds) + (client.Busy() - old(client.Busy()))
    ensures Safe(client.calls, client.log, ended)
    ensures Succeeded in client.Applied() ==> finalRun.Some? && finalRun.value.completed && finalRun.value.succeeded
  {
    hide Recorded, EndOf, Safe, AppliedBy, BusyWith, Found, Followed, Polled, Searched, EndsWith, FailedInside, TriggerTime;
    NothingSearched(run.find);
    NothingPolled(run.polls);
    finalRun, found, attempts, rounds, at := None, None, 0, 0, 0;
    var triggerTime := client.now;
    ended := TriggerWorkflow(client, run);
    if !GithubPolls(run, client.log[0]) {
      return;
    }
    ghost var triggered := client.log;
    ended, finalRun, found, attempts, rounds, at := PollWorkflowCompletion(client, run, triggerTime);
    EndsWithGrows(triggered, client.log, at, if finalRun.Some? then FinalStatus(finalRun.value) else Failed, ended);
  }

  // ----- the pods of a job -----

  const BACKOFF_LIMIT := 1

  /** How a single-shot runner exits: the job controller starts another pod after a 1. */
  function ExitCode(ended: Result): int {
    if ended.Raised? then 1 else 0
  }

  lemma NothingThenConsistent(first: seq<Status>, second: seq<Status>)
    requires Open(first) && Consistent(second)
    ensures Consistent(first + second)
  {
    forall k | 0 <= k < |first|
      ensures !Terminal((first + second)[k])
    {
      assert first[k] in first;
    }
  }

  /** The job of an Azure DevOps run: a pod for the run, and after a plain exception a second one
      that triggers the pipeline again. If attempts can be trusted, the two never contradict each
      other. */
  method RunAzureJob(first: RunClient, second: RunClient, run: AzureRun, again: AzureRun) returns (pods: nat)
    requires first != second && first.Valid() && first.log == [] && second.Valid() && second.log == []
    modifies first, second
    ensures first.Valid() && second.Valid() && 1 <= pods <= 1 + BACKOFF_LIMIT
    ensures first.log != [] && (pods == 2 <==> first.log[|first.log| - 1].result.Raised?)
    ensures pods == 2 <==> second.log != []
    ensures Trusted(first.calls) && pods == 2 ==> Open(first.Applied())
    ensures Trusted(first.calls) && Trusted(second.calls) ==> Consistent(first.Applied() + second.Applied())
  {
    hide Recorded, AppliedBy, Trusted;
    var ended, final, rounds;
    ghost var at;
    ended, final, rounds, at := ProcessAzureBlock(first, run);
    pods := 1;
    if ExitCode(ended) == 1 {
      ended, final, rounds, at := ProcessAzureBlock(second, again);
      pods := 2;
      if Trusted(first.calls) && Trusted(second.calls) {
        NothingThenConsistent(first.Applied(), second.Applied());
      }
    } else {
      NothingApplied(second.calls);
      assert first.Applied() + [] == first.Applied();
    }
  }

  lemma NothingApplied(calls: nat -> nat -> Attempt)
    ensures AppliedBy(calls, []) == []
  {
  }

  /** The same for the job of a GitHub run. */
  method RunGithubJob(first: RunClient, second: RunClient, run: GithubRun, again: GithubRun) returns (pods: nat)
    requires first != second && first.Valid() && first.log == [] && second.Valid() && second.log == []
    modifies first, second
    ensures first.Valid() && second.Valid() && 1 <= pods <= 1 + BACKOFF_LIMIT
    ensures first.log != [] && (pods == 2 <==> first.log[|first.log| - 1].result.Raised?)
    ensures pods == 2 <==> second.log != []
    ensures Trusted(first.calls) && pods == 2 ==> Open(first.Applied())
    ensures Trusted(first.calls) && Trusted(second.calls) ==> Consistent(first.Applied() + second.Applied())
  {
    hide Recorded, AppliedBy, Trusted, Found, Followed;
    var ended, final, attempts, rounds;
    ghost var found, at;
    ended, final, found, attempts, rounds, at := ProcessGithubBlock(first, run);
    pods := 1;
    if ExitCode(ended) == 1 {
      ended, final, found, attempts, rounds, at := ProcessGithubBlock(second, again);
      pods := 2;
      if Trusted(first.calls) && Trusted(second.calls) {
        NothingThenConsistent(first.Applied(), second.Applied());
      }
    } else {
      NothingApplied(second.calls);
      assert first.Applied() + [] == first.Applied();
    }
  }

  // ----- a run that contradicts itself -----

  /** The second update is committed and answered with 500; every other is answered. */
  function CommittedAndRejected(n: nat): nat -> Attempt {
    (k: nat) => if n == 1 && k == 0 then Attempt(200, Failing(Rejected(500)), true) else Attempt(200, Answered, true)
  }

  /** An update whose first attempt is answered or rejected for good has no second. */
  lemma DecidedAtOnce(calls: nat -> nat -> Attempt, log: seq<Update>, n: nat, now: nat)
    requires Recorded(calls, log, now) && n < |log| && calls(n)(0).duration <= ATTEMPT_TIMEOUT
    requires calls(n)(0).answer.Answered? || !IsTransient(calls(n)(0).answer.failure)
    ensures log[n].tries == 1 && log[n].result == Classify(calls(n)(0).answer, false, true)
  {
    assert Happened(calls, log, n, now) && Attempts(calls, n)(0) == calls(n)(0);
    assert IsLast(Attempts(calls, n), log[n].start, 0);
  }

  /** A pipeline that has succeeded when it is first seen: SUCCEEDED is applied, and FAILED after it. */
  method AContradictedSuccess() returns (client: RunClient)
    ensures client.Valid() && client.log != [] && Contradicted(client.calls, client.log) && !Consistent(client.Applied())
  {
    var calls := (n: nat) => CommittedAndRejected(n);
    client := new RunClient(calls, 0);
    var run := AzureRun(true, true, Some(RemoteRun(0, true, true)), false, _ => Poll(0, None, false, false));
    var ended, final, rounds;
    ghost var at;
    ended, final, rounds, at := ProcessAzureBlock(client, run);
    DecidedAtOnce(calls, client.log, 0, client.now);
    assert RunAfter(run.triggered.value, run.polls, 0).completed;
    assert rounds == 0 && final == Some(run.triggered.value);
    DecidedAtOnce(calls, client.log, 1, client.now);
    DecidedAtOnce(calls, client.log, 2, client.now);
    assert Attempts(calls, 1)(0) == calls(1)(0) && Attempts(calls, 2)(0) == calls(2)(0);
  }
}
