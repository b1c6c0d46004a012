/** The retry around every request of the Kotlin runners to meshStack. Times are milliseconds. */
module MeshStackRetry {

  datatype Failure = Rejected(statusCode: int) | IoError | OtherError

  datatype Answer = Answered | Failing(failure: Failure)

  /** The n-th attempt of one request: how long it takes, how it ends for the runner, and
      whether meshStack applied it all the same. */
  datatype Attempt = Attempt(duration: nat, answer: Answer, applied: bool)

  datatype Result = Returned | Raised(failure: Failure) | OutcomeUnknown

  const INITIAL_DELAY := 1_000
  const MAX_DELAY := 30_000
  const GIVE_UP_AFTER := 600_000

  predicate IsTransient(f: Failure) {
    match f
    case Rejected(code) => code == 423 || code == 502 || code == 503 || code == 504
    case IoError => true
    case OtherError => false
  }

  // ----- the schedule -----

  function Pow2(k: nat): nat {
    if k == 0 then 1 else 2 * Pow2(k - 1)
  }

  /** The pause after attempt k, counted from 0: doubled each time, up to half a minute. */
  function Delay(k: nat): (d: nat)
    ensures INITIAL_DELAY <= d <= MAX_DELAY
  {
    Pow2IsPositive(k);
    if INITIAL_DELAY * Pow2(k) < MAX_DELAY then INITIAL_DELAY * Pow2(k) else MAX_DELAY
  }

  lemma Pow2IsPositive(k: nat)
    ensures Pow2(k) >= 1
  {
  }

  /** When attempt k begins and ends if all before it were retried. */
  function Begin(attempts: nat -> Attempt, start: nat, k: nat): nat
    decreases k, 0
  {
    if k == 0 then start else End(attempts, start, k - 1) + Delay(k - 1)
  }

  function End(attempts: nat -> Attempt, start: nat, k: nat): nat
    decreases k, 1
  {
    Begin(attempts, start, k) + attempts(k).duration
  }

  /** Attempt k is the last: it succeeds, fails for good, or leaves no time for another pause. */
  predicate IsLast(attempts: nat -> Attempt, start: nat, k: nat) {
    || attempts(k).answer.Answered?
    || !IsTransient(attempts(k).answer.failure)
    || start + GIVE_UP_AFTER - End(attempts, start, k) <= Delay(k)
  }

  ghost predicate Tries(attempts: nat -> Attempt, start: nat, tries: nat) {
    && tries > 0 && IsLast(attempts, start, tries - 1)
    && forall k :: 0 <= k < tries - 1 ==> !IsLast(attempts, start, k)
  }

  lemma TriesAreUnique(attempts: nat -> Attempt, start: nat, a: nat, b: nat)
    requires Tries(attempts, start, a) && Tries(attempts, start, b)
    ensures a == b
  {
  }

  function Classify(last: Answer, retried: bool, outcomeUnknownAfterRetry: bool): Result {
    match last
    case Answered => Returned
    case Failing(f) => if outcomeUnknownAfterRetry && retried then OutcomeUnknown else Raised(f)
  }

  method Call(attempts: nat -> Attempt, start: nat, outcomeUnknownAfterRetry: bool)
    returns (result: Result, tries: nat, end: nat)
    ensures Tries(attempts, start, tries)
    ensures result == Classify(attempts(tries - 1).answer, tries > 1, outcomeUnknownAfterRetry)
    ensures end == End(attempts, start, tries - 1)
  {
    var deadline := start + GIVE_UP_AFTER;
    var delay := INITIAL_DELAY;
    var retried := false;
    var now := start;
    tries := 0;
    while true
      invariant now == Begin(attempts, start, tries) && delay == Delay(tries)
      invariant retried == (tries > 0)
      invariant forall k :: 0 <= k < tries ==> !IsLast(attempts, start, k)
      decreases deadline - now
    {
      var attempt := attempts(tries);
      tries := tries + 1;
      now := now + attempt.duration;
      match attempt.answer {
        case Answered =>
          return Returned, tries, now;
        case Failing(failure) =>
          var givingUp := deadline - now <= delay;
          if !IsTransient(failure) || givingUp {
            result := if outcomeUnknownAfterRetry && retried then OutcomeUnknown else Raised(failure);
            return result, tries, now;
          }
          now := now + delay;
          retried := true;
          delay := if delay * 2 < MAX_DELAY then delay * 2 else MAX_DELAY;
      }
    }
  }

  // ----- what the schedule promises -----

  /** The least time attempt k can begin after the first: 1, 3, 7, 15, 31, then 30 s more each. */
  function Waited(k: nat): int {
    if k <= 5 then INITIAL_DELAY * (Pow2(k) - 1) else 31_000 + MAX_DELAY * (k - 5)
  }

  lemma WaitedAddsUp(k: nat)
    ensures Waited(k + 1) == Waited(k) + Delay(k)
  {
    assert Pow2(1) == 2 && Pow2(2) == 4 && Pow2(3) == 8 && Pow2(4) == 16 && Pow2(5) == 32;
    if k > 5 {
      Pow2Grows(5, k);
    }
  }

  lemma {:induction false} Pow2Grows(j: nat, k: nat)
    requires j <= k
    ensures Pow2(j) <= Pow2(k)
  {
    if j < k {
      Pow2Grows(j, k - 1);
    }
  }

  lemma {:induction false} BeginsNoEarlier(attempts: nat -> Attempt, start: nat, k: nat)
    ensures start + Waited(k) <= Begin(attempts, start, k)
    ensures (forall j :: 0 <= j < k ==> attempts(j).duration == 0) ==> start + Waited(k) == Begin(attempts, start, k)
  {
    if k > 0 {
      BeginsNoEarlier(attempts, start, k - 1);
      WaitedAddsUp(k - 1);
    }
  }

  lemma BeginsBeforeTheDeadline(attempts: nat -> Attempt, start: nat, tries: nat, k: nat)
    requires Tries(attempts, start, tries) && k < tries
    ensures Begin(attempts, start, k) < start + GIVE_UP_AFTER
  {
    if k > 0 {
      assert !IsLast(attempts, start, k - 1);
    }
  }

  lemma AtMost24Tries(attempts: nat -> Attempt, start: nat, tries: nat)
    requires Tries(attempts, start, tries)
    ensures tries <= 24
  {
    BeginsBeforeTheDeadline(attempts, start, tries, tries - 1);
    BeginsNoEarlier(attempts, start, tries - 1);
  }

  /** The bound is reached as soon as every attempt fails at once. */
  lemma TwentyFourTriesHappen(attempts: nat -> Attempt, start: nat, tries: nat)
    requires Tries(attempts, start, tries)
    requires forall k :: attempts(k).duration == 0 && attempts(k).answer == Failing(IoError)
    ensures tries == 24
  {
    AtMost24Tries(attempts, start, tries);
    BeginsNoEarlier(attempts, start, tries - 1);
    WaitedAddsUp(tries - 1);
    assert Waited(tries) >= GIVE_UP_AFTER;
    Pow2Grows(if tries < 5 then tries else 5, 5);
  }

  /** Nobody gives up on a transient failure early. */
  lemma GivesUpLate(attempts: nat -> Attempt, start: nat, tries: nat)
    requires Tries(attempts, start, tries)
    requires attempts(tries - 1).answer.Failing? && IsTransient(attempts(tries - 1).answer.failure)
    ensures End(attempts, start, tries - 1) - start >= GIVE_UP_AFTER - MAX_DELAY
    ensures tries == 1 ==> attempts(0).duration >= GIVE_UP_AFTER - INITIAL_DELAY
  {
  }

  /** The outcome is unknown exactly when a request that may have arrived was tried again in vain. */
  lemma UnknownIffRetried(attempts: nat -> Attempt, start: nat, tries: nat, flag: bool)
    requires Tries(attempts, start, tries)
    ensures Classify(attempts(tries - 1).answer, tries > 1, flag) == OutcomeUnknown <==>
              flag && attempts(tries - 1).answer.Failing? && !IsLast(attempts, start, 0)
    ensures forall f :: Classify(attempts(tries - 1).answer, tries > 1, flag) == Raised(f) <==>
              attempts(tries - 1).answer == Failing(f) && (!flag || IsLast(attempts, start, 0))
    ensures Classify(attempts(tries - 1).answer, tries > 1, flag) == Returned <==> attempts(tries - 1).answer.Answered?
  {
    if tries > 1 {
      assert !IsLast(attempts, start, 0);
    }
  }

  /** An outage that ends within nine minutes is outlasted: while a deployment answers 503 (or 423,
      502 or 504, or breaks the connection), the request is tried until it is answered. */
  lemma AnOutageIsOutlasted(attempts: nat -> Attempt, start: nat, tries: nat, outage: nat, flag: bool)
    requires Tries(attempts, start, tries) && outage <= 540_000
    requires forall k :: attempts(k).duration <= 30_000
    requires forall k :: attempts(k).answer.Answered? || attempts(k).answer.failure == IoError ||
                         attempts(k).answer.failure in {Rejected(423), Rejected(502), Rejected(503), Rejected(504)}
    requires forall k :: Begin(attempts, start, k) >= start + outage ==> attempts(k).answer.Answered?
    ensures attempts(tries - 1).answer.Answered?
    ensures Classify(attempts(tries - 1).answer, tries > 1, flag) == Returned
  {
    var last := tries - 1;
    assert End(attempts, start, last) == Begin(attempts, start, last) + attempts(last).duration;
  }

  /** Any other rejection or failure is final at once. */
  lemma OtherFailuresAreFinal(attempts: nat -> Attempt, start: nat, tries: nat, code: int)
    requires Tries(attempts, start, tries) && code !in {423, 502, 503, 504}
    requires attempts(0).answer == Failing(Rejected(code)) || attempts(0).answer == Failing(OtherError)
    ensures tries == 1
  {
    assert IsLast(attempts, start, 0);
  }
}
