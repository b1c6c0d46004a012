/** The run manager and its worker: two loops, two channels of capacity one, delayed handout
    goroutines and a shutdown signal. */
module Manager {

  datatype Token = Work | Done | NoRun | Failed | Stop | Stopped

  const CAPACITY := 1
  const NORUN_WORKER_DELAY := 10
  const FAILED_WORKER_DELAY := 60

  /** How asking meshStack for a run ends. */
  datatype Fetch = Run | StatusError(code: int) | BrokenTransfer | OtherError

  datatype Worker = Waiting | Fetching | Executing | Answering(token: Token) | Exited
  datatype Handout = Sleeping(due: nat) | Awake(due: nat) | Sending(token: Token)

  datatype State = State(
    workerIn: seq<Token>,
    managerIn: seq<Token>,
    worker: Worker,
    managing: bool,
    handouts: seq<Handout>,
    shutdown: bool,
    now: nat,
    earliest: nat,      // when the worker may be asked to fetch again, by its last answer
    lateFetches: nat)   // fetches begun after Stop

  datatype Event =
    | WorkerReceives
    | FetchEnds(fetch: Fetch)
    | RunEnds
    | WorkerSends
    | ManagerReceives
    | TimerOrShutdown(i: nat)
    | Decides(i: nat)
    | HandoutSends(i: nat)
    | StopCalled
    | Tick

  function FetchAnswer(f: Fetch): Token
    requires f != Run
  {
    match f
    case StatusError(code) => if code == 404 || code == 409 then NoRun else Failed
    case BrokenTransfer => NoRun
    case OtherError => Failed
  }

  function Delay(answer: Token): nat {
    match answer
    case NoRun => NORUN_WORKER_DELAY
    case Failed => FAILED_WORKER_DELAY
    case _ => 0
  }

  const START := State([Work], [], Waiting, true, [], false, 0, 0, 0)

  predicate Enabled(s: State, e: Event) {
    match e
    case WorkerReceives => s.worker == Waiting && s.workerIn != []
    case FetchEnds(_) => s.worker == Fetching
    case RunEnds => s.worker == Executing
    case WorkerSends => s.worker.Answering? && |s.managerIn| < CAPACITY
    case ManagerReceives => s.managing && s.managerIn != []
    case TimerOrShutdown(i) => i < |s.handouts| && s.handouts[i].Sleeping? && (s.shutdown || s.handouts[i].due <= s.now)
    case Decides(i) => i < |s.handouts| && s.handouts[i].Awake?
    case HandoutSends(i) => i < |s.handouts| && s.handouts[i].Sending? && |s.workerIn| < CAPACITY
    case StopCalled => !s.shutdown
    case Tick => true
  }

  /** A token the worker does not know makes it panic: that step has no successor. */
  predicate Panics(s: State, e: Event)
    requires Enabled(s, e)
  {
    e == WorkerReceives && s.workerIn[0] != Work && s.workerIn[0] != Stop
  }

  function Step(s: State, e: Event): State
    requires Enabled(s, e) && !Panics(s, e)
  {
    match e
    case WorkerReceives =>
      var rest := s.(workerIn := s.workerIn[1..]);
      if s.workerIn[0] == Stop then rest.(worker := Answering(Stopped))
      else rest.(worker := Fetching, lateFetches := s.lateFetches + if s.shutdown then 1 else 0)
    case FetchEnds(f) => s.(worker := if f == Run then Executing else Answering(FetchAnswer(f)))
    case RunEnds => s.(worker := Answering(Done))
    case WorkerSends =>
      var answer := s.worker.token;
      s.(managerIn := s.managerIn + [answer],
         worker := if answer == Stopped then Exited else Waiting,
         earliest := s.now + Delay(answer))
    case ManagerReceives =>
      var answer := s.managerIn[0];
      var rest := s.(managerIn := s.managerIn[1..]);
      if answer == Stopped then rest.(managing := false)
      else if answer == Done || answer == NoRun || answer == Failed
      then rest.(handouts := s.handouts + [Sleeping(s.now + Delay(answer))])
      else rest
    case TimerOrShutdown(i) => s.(handouts := s.handouts[i := Awake(s.handouts[i].due)])
    case Decides(i) => s.(handouts := s.handouts[i := Sending(if s.shutdown then Stop else Work)])
    case HandoutSends(i) =>
      s.(workerIn := s.workerIn + [s.handouts[i].token], handouts := s.handouts[..i] + s.handouts[i + 1..])
    case StopCalled => s.(shutdown := true)
    case Tick => s.(now := s.now + 1)
  }

  ghost predicate Follow(s: State, t: State) {
    exists e :: Enabled(s, e) && !Panics(s, e) && t == Step(s, e)
  }

  ghost predicate Execution(run: seq<State>) {
    run != [] && run[0] == START && forall i :: 0 <= i < |run| - 1 ==> Follow(run[i], run[i + 1])
  }

  // ----- the one token -----

  function Tokens(s: State): nat {
    |s.workerIn| + |s.managerIn| + |s.handouts| + if s.worker == Waiting || s.worker == Exited then 0 else 1
  }

  ghost predicate AtTheWorkerChannel(s: State) {
    && (s.workerIn == [Work] || s.workerIn == [Stop]) && s.managerIn == [] && s.handouts == []
    && s.worker == Waiting && s.managing
    && (s.workerIn == [Work] ==> s.earliest <= s.now && s.lateFetches == 0)
    && (s.workerIn == [Stop] ==> s.shutdown)
  }

  ghost predicate AtTheWorker(s: State) {
    && s.workerIn == [] && s.managerIn == [] && s.handouts == [] && s.managing
    && s.worker != Waiting && s.worker != Exited
    && (s.worker.Answering? ==> s.worker.token in {Done, NoRun, Failed, Stopped})
    && (s.worker == Answering(Stopped) ==> s.shutdown)
  }

  ghost predicate AtTheManagerChannel(s: State) {
    && s.workerIn == [] && s.handouts == [] && s.managing
    && |s.managerIn| == 1 && s.managerIn[0] in {Done, NoRun, Failed, Stopped}
    && s.worker == (if s.managerIn[0] == Stopped then Exited else Waiting)
    && (s.managerIn[0] == Stopped ==> s.shutdown)
    && s.earliest <= s.now + Delay(s.managerIn[0])
  }

  ghost predicate AtAHandout(s: State) {
    && s.workerIn == [] && s.managerIn == [] && s.managing && s.worker == Waiting
    && |s.handouts| == 1
    && match s.handouts[0]
       case Sleeping(due) => s.earliest <= due
       case Awake(due) => s.shutdown || s.earliest <= due <= s.now
       case Sending(token) =>
         || (token == Work && s.earliest <= s.now && s.lateFetches == 0)
         || (token == Stop && s.shutdown)
  }

  ghost predicate AllStopped(s: State) {
    && s.workerIn == [] && s.managerIn == [] && s.handouts == []
    && s.worker == Exited && !s.managing && s.shutdown
  }

  ghost predicate Inv(s: State) {
    && s.lateFetches <= (if s.shutdown then 1 else 0)
    && (AtTheWorkerChannel(s) || AtTheWorker(s) || AtTheManagerChannel(s) || AtAHandout(s) || AllStopped(s))
  }

  lemma StepKeepsInv(s: State, e: Event)
    requires Inv(s) && Enabled(s, e)
    ensures !Panics(s, e) && Inv(Step(s, e))
  {
    var t := Step(s, e);
    match e
    case WorkerReceives => assert t.workerIn == [];
    case WorkerSends => assert t.managerIn == [s.worker.token];
    case ManagerReceives => assert t.managerIn == [];
    case TimerOrShutdown(i) => assert t.handouts == [Awake(s.handouts[0].due)];
    case Decides(i) => assert t.handouts == [Sending(if s.shutdown then Stop else Work)];
    case HandoutSends(i) => assert t.handouts == [] && t.workerIn == [s.handouts[0].token];
    case _ =>
  }

  lemma {:induction false} ExecutionKeepsInv(run: seq<State>)
    requires Execution(run)
    ensures forall i :: 0 <= i < |run| ==> Inv(run[i])
  {
    hide Inv, Step;
    if |run| == 1 {
      StartIsInv();
    } else {
      var before := run[..|run| - 1];
      assert forall i :: 0 <= i < |before| - 1 ==> Follow(before[i], before[i + 1]);
      ExecutionKeepsInv(before);
      var s := before[|before| - 1];
      assert Follow(run[|run| - 2], run[|run| - 1]) && Inv(s);
      var e :| Enabled(s, e) && !Panics(s, e) && run[|run| - 1] == Step(s, e);
      StepKeepsInv(s, e);
    }
  }

  lemma StartIsInv()
    ensures Inv(START)
  {
  }

  // ----- what follows for every execution -----

  /** One token exists as long as the manager runs, so nobody ever waits to send, and the
      worker gets no token it does not know. */
  lemma OneTokenAndNoBlockedSend(run: seq<State>, i: nat)
    requires Execution(run) && i < |run|
    ensures var s := run[i];
      && Tokens(s) == (if s.managing then 1 else 0)
      && (s.worker.Answering? ==> |s.managerIn| < CAPACITY)
      && (forall k :: 0 <= k < |s.handouts| && s.handouts[k].Sending? ==> |s.workerIn| < CAPACITY)
      && (forall e :: Enabled(s, e) ==> !Panics(s, e))
  {
    ExecutionKeepsInv(run);
    assert Inv(run[i]);
    forall e | Enabled(run[i], e)
      ensures !Panics(run[i], e)
    {
      StepKeepsInv(run[i], e);
    }
  }

  /** After Stop at most one more fetch begins. */
  lemma AtMostOneLateFetch(run: seq<State>, i: nat)
    requires Execution(run) && i < |run|
    ensures run[i].lateFetches <= 1
  {
    ExecutionKeepsInv(run);
    assert Inv(run[i]);
  }

  /** A fetch never begins before the delay of the last answer has passed. */
  lemma FetchesKeepTheDelay(run: seq<State>, i: nat)
    requires Execution(run) && i < |run| && Enabled(run[i], WorkerReceives)
    requires run[i].workerIn[0] == Work
    ensures run[i].earliest <= run[i].now
  {
    ExecutionKeepsInv(run);
    assert Inv(run[i]);
  }

  // ----- shutdown terminates -----

  /** What is left to do once Stop was called: every step but the clock's brings it down. */
  function Left(s: State): nat {
    if s.workerIn == [Work] then 18 else if s.workerIn == [Stop] then 4
    else if s.worker == Fetching then 17 else if s.worker == Executing then 16
    else if s.worker.Answering? then (if s.worker.token == Stopped then 3 else 15)
    else if s.managerIn != [] then (if s.managerIn[0] == Stopped then 2 else 14)
    else if s.handouts != [] then
      match s.handouts[0]
      case Sleeping(_) => 13
      case Awake(_) => 12
      case Sending(token) => if token == Work then 19 else 11
    else 0
  }

  lemma ShutdownMakesProgress(s: State, e: Event)
    requires Inv(s) && s.shutdown && Enabled(s, e) && e != Tick
    ensures Left(Step(s, e)) < Left(s) && Step(s, e).shutdown
  {
    var t := Step(s, e);
    match e
    case WorkerReceives => assert t.workerIn == [];
    case WorkerSends => assert t.managerIn == [s.worker.token];
    case ManagerReceives => assert t.managerIn == [];
    case HandoutSends(i) => assert t.handouts == [] && t.workerIn == [s.handouts[0].token];
    case _ =>
  }

  /** Until both loops have ended, somebody can take a step without waiting for the clock
      or for anything but the run in progress. */
  lemma ShutdownIsNeverStuck(s: State) returns (e: Event)
    requires Inv(s) && s.shutdown && !AllStopped(s)
    ensures e != Tick && Enabled(s, e)
  {
    if AtTheWorkerChannel(s) {
      e := WorkerReceives;
    } else if AtTheWorker(s) {
      e := match s.worker case Fetching => FetchEnds(Run) case Executing => RunEnds case _ => WorkerSends;
    } else if AtTheManagerChannel(s) {
      e := ManagerReceives;
    } else {
      e := match s.handouts[0] case Sleeping(_) => TimerOrShutdown(0) case Awake(_) => Decides(0) case Sending(_) => HandoutSends(0);
    }
  }

  lemma TickChangesNothingElse(s: State)
    ensures Left(Step(s, Tick)) == Left(s) && Step(s, Tick).shutdown == s.shutdown
  {
  }

  lemma LeftIsBounded(s: State)
    requires Inv(s)
    ensures Left(s) <= 19 && (Left(s) == 0 <==> AllStopped(s))
  {
  }

  function CountTicks(events: seq<Event>): nat {
    if events == [] then 0 else CountTicks(events[..|events| - 1]) + if events[|events| - 1] == Tick then 1 else 0
  }

  /** The states events lead through from s. */
  ghost predicate Leads(s: State, events: seq<Event>, run: seq<State>) {
    && |run| == |events| + 1 && run[0] == s
    && forall i :: 0 <= i < |events| ==>
         Enabled(run[i], events[i]) && !Panics(run[i], events[i]) && run[i + 1] == Step(run[i], events[i])
  }

  /** From the moment of Stop, no execution takes more than 19 steps besides the clock's, and
      one that has taken them all has stopped both loops. */
  lemma {:induction false} ShutdownTerminates(s: State, events: seq<Event>, run: seq<State>)
    requires Inv(s) && s.shutdown && Leads(s, events, run)
    ensures Inv(run[|events|]) && run[|events|].shutdown
    ensures |events| - CountTicks(events) + Left(run[|events|]) <= Left(s) <= 19
    ensures Left(run[|events|]) == 0 <==> AllStopped(run[|events|])
  {
    hide Step, Enabled, Panics;
    if events == [] {
      LeftIsBounded(s);
    } else {
      hide Inv, Left, AllStopped;
      var n := |events| - 1;
      ShutdownTerminates(s, events[..n], run[..n + 1]);
      assert run[..n + 1][n] == run[n];
      StepKeepsInv(run[n], events[n]);
      if events[n] != Tick {
        ShutdownMakesProgress(run[n], events[n]);
      } else {
        TickChangesNothingElse(run[n]);
      }
      LeftIsBounded(run[n + 1]);
    }
  }

  // ----- the rounds before the shutdown -----

  /** How long the worker waits after each way of fetching: ten seconds if there is no run, a
      minute after any other error, not at all after a run. */
  lemma WaitsAre(fetch: Fetch)
    ensures WaitAfter(fetch) ==
      match fetch
      case Run => 0
      case StatusError(code) => if code == 404 || code == 409 then 10 else 60
      case BrokenTransfer => 10
      case OtherError => 60
  {
  }

  function WaitAfter(fetch: Fetch): nat {
    if fetch == Run then Delay(Done) else Delay(FetchAnswer(fetch))
  }

  function Ticks(n: nat): seq<Event> {
    seq(n, _ => Tick)
  }

  /** One round: the worker takes its token and fetches, executes the run if there is one, answers,
      waits, and gets the next token. */
  function Round(fetch: Fetch): seq<Event> {
    [WorkerReceives, FetchEnds(fetch)] + (if fetch == Run then [RunEnds] else []) + [WorkerSends, ManagerReceives]
    + Ticks(WaitAfter(fetch)) + [TimerOrShutdown(0), Decides(0), HandoutSends(0)]
  }

  /** The state after some events, if each of them is possible. */
  ghost predicate Reaches(s: State, events: seq<Event>, t: State)
    decreases |events|
  {
    if events == [] then t == s
    else Enabled(s, events[0]) && !Panics(s, events[0]) && Reaches(Step(s, events[0]), events[1..], t)
  }

  lemma {:induction false} ReachesInTwo(s: State, a: seq<Event>, m: State, b: seq<Event>, t: State)
    requires Reaches(s, a, m) && Reaches(m, b, t)
    ensures Reaches(s, a + b, t)
    decreases |a|
  {
    hide Enabled, Panics, Step;
    if a == [] {
      assert a + b == b;
    } else {
      assert (a + b)[0] == a[0] && (a + b)[1..] == a[1..] + b;
      ReachesInTwo(Step(s, a[0]), a[1..], m, b, t);
    }
  }

  lemma {:induction false} TimePasses(s: State, n: nat)
    ensures Reaches(s, Ticks(n), s.(now := s.now + n))
    decreases n
  {
    if n > 0 {
      assert Ticks(n)[0] == Tick && Ticks(n)[1..] == Ticks(n - 1);
      TimePasses(s.(now := s.now + 1), n - 1);
    }
  }

  lemma ReachesOne(s: State, e: Event)
    requires Enabled(s, e) && !Panics(s, e)
    ensures Reaches(s, [e], Step(s, e))
  {
    hide Enabled, Panics, Step;
    assert [e][1..] == [];
    assert Reaches(Step(s, e), [e][1..], Step(s, e));
  }

  /** The worker takes the token, fetches and answers. */
  lemma TheWorkerFetches(s: State, fetch: Fetch)
    requires AtTheWorkerChannel(s) && s.workerIn == [Work] && !s.shutdown
    ensures Reaches(s, [WorkerReceives, FetchEnds(fetch)] + (if fetch == Run then [RunEnds] else []),
                    s.(workerIn := [], worker := Answering(if fetch == Run then Done else FetchAnswer(fetch))))
  {
    var s1 := s.(workerIn := [], worker := Fetching);
    assert Step(s, WorkerReceives) == s1;
    ReachesOne(s, WorkerReceives);
    var s2 := Step(s1, FetchEnds(fetch));
    ReachesOne(s1, FetchEnds(fetch));
    ReachesInTwo(s, [WorkerReceives], s1, [FetchEnds(fetch)], s2);
    assert [WorkerReceives] + [FetchEnds(fetch)] == [WorkerReceives, FetchEnds(fetch)];
    if fetch == Run {
      ReachesOne(s2, RunEnds);
      ReachesInTwo(s, [WorkerReceives, FetchEnds(fetch)], s2, [RunEnds], Step(s2, RunEnds));
    } else {
      assert [WorkerReceives, FetchEnds(fetch)] + [] == [WorkerReceives, FetchEnds(fetch)];
    }
  }

  function Handing(s: State, handout: Handout): State {
    s.(handouts := [handout])
  }

  /** The manager takes the answer and starts a handout. */
  lemma TheManagerTakesTheAnswer(s: State, answer: Token)
    requires AtTheWorker(s) && s.worker == Answering(answer) && answer in {Done, NoRun, Failed}
    ensures var d := s.now + Delay(answer);
      Reaches(s, [WorkerSends, ManagerReceives], s.(worker := Waiting, earliest := d, handouts := [Sleeping(d)]))
  {
    var d := s.now + Delay(answer);
    var s1 := s.(managerIn := [answer], worker := Waiting, earliest := d);
    assert Step(s, WorkerSends) == s1;
    assert Step(s1, ManagerReceives) == s.(worker := Waiting, earliest := d, handouts := [Sleeping(d)]);
    ReachesTwo(s, WorkerSends, ManagerReceives);
  }

  lemma ReachesTwo(s: State, d: Event, e: Event)
    requires Enabled(s, d) && !Panics(s, d)
    requires Enabled(Step(s, d), e) && !Panics(Step(s, d), e)
    ensures Reaches(s, [d, e], Step(Step(s, d), e))
  {
    hide Enabled, Panics, Step;
    ReachesOne(Step(s, d), e);
    assert [d, e][1..] == [e];
  }

  /** A handout whose time has come puts Work into the worker's channel. */
  lemma AHandoutHandsOut(s: State, due: nat)
    requires s.handouts == [Sleeping(due)] && due <= s.now && !s.shutdown && s.workerIn == []
    ensures Reaches(s, [TimerOrShutdown(0), Decides(0), HandoutSends(0)], s.(handouts := [], workerIn := [Work]))
  {
    var s1 := Handing(s, Awake(due));
    var s2 := Handing(s, Sending(Work));
    assert Step(s, TimerOrShutdown(0)) == s1;
    assert Step(s1, Decides(0)) == s2;
    assert Step(s2, HandoutSends(0)) == s.(handouts := [], workerIn := [Work]);
    assert Enabled(s2, HandoutSends(0));
    ReachesOne(s, TimerOrShutdown(0));
    ReachesTwo(s1, Decides(0), HandoutSends(0));
    ReachesInTwo(s, [TimerOrShutdown(0)], s1, [Decides(0), HandoutSends(0)], s.(handouts := [], workerIn := [Work]));
    assert [TimerOrShutdown(0)] + [Decides(0), HandoutSends(0)] == [TimerOrShutdown(0), Decides(0), HandoutSends(0)];
  }

  lemma TimePassesOnTheWay(s: State, a: seq<Event>, m: State, n: nat, later: State, b: seq<Event>, t: State)
    requires Reaches(s, a, m) && later == m.(now := m.now + n) && Reaches(later, b, t)
    ensures Reaches(s, a + Ticks(n) + b, t)
  {
    hide Enabled, Panics, Step, Reaches, Ticks;
    TimePasses(m, n);
    ReachesInTwo(s, a, m, Ticks(n), later);
    ReachesInTwo(s, a + Ticks(n), later, b, t);
  }

  /** The manager takes the answer, waits, and hands out the next token. */
  lemma TheManagerHandsOut(s: State, answer: Token)
    requires AtTheWorker(s) && s.worker == Answering(answer) && answer in {Done, NoRun, Failed} && !s.shutdown
    ensures Reaches(s, [WorkerSends, ManagerReceives] + Ticks(Delay(answer)) + [TimerOrShutdown(0), Decides(0), HandoutSends(0)],
                    s.(workerIn := [Work], worker := Waiting, now := s.now + Delay(answer), earliest := s.now + Delay(answer)))
  {
    hide Enabled, Panics, Step, Reaches, Ticks, Delay;
    var d := s.now + Delay(answer);
    var taken := s.(worker := Waiting, earliest := d, handouts := [Sleeping(d)]);
    var due := taken.(now := d);
    assert due.(handouts := [], workerIn := [Work]) == s.(workerIn := [Work], worker := Waiting, now := d, earliest := d);
    TheManagerTakesTheAnswer(s, answer);
    AHandoutHandsOut(due, d);
    TimePassesOnTheWay(s, [WorkerSends, ManagerReceives], taken, Delay(answer), due,
                       [TimerOrShutdown(0), Decides(0), HandoutSends(0)], due.(handouts := [], workerIn := [Work]));
  }

  /** However the fetch ends, a round brings the token back to the worker as soon as the wait that
      belongs to it is over, and nothing else has changed: so the rounds can go on for ever. */
  lemma ARoundComesBack(s: State, fetch: Fetch)
    requires AtTheWorkerChannel(s) && s.workerIn == [Work] && !s.shutdown
    ensures var wait := WaitAfter(fetch); var t := s.(now := s.now + wait, earliest := s.now + wait);
      Reaches(s, Round(fetch), t) && AtTheWorkerChannel(t) && t.workerIn == [Work]
  {
    var answer := if fetch == Run then Done else FetchAnswer(fetch);
    var m := s.(workerIn := [], worker := Answering(answer));
    var t := s.(now := s.now + Delay(answer), earliest := s.now + Delay(answer));
    TheWorkerFetches(s, fetch);
    TheManagerHandsOut(m, answer);
    var first := [WorkerReceives, FetchEnds(fetch)] + if fetch == Run then [RunEnds] else [];
    var second := [WorkerSends, ManagerReceives] + Ticks(Delay(answer)) + [TimerOrShutdown(0), Decides(0), HandoutSends(0)];
    ReachesInTwo(s, first, m, second, t);
    assert first + second == Round(fetch);
  }
}
