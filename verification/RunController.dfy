/** The run controller's loop: it claims runs only while there is room for them, and dispatches
    them to goroutines of its own process or to jobs of a Kubernetes cluster. */
module RunController {
  import opened Snapshots
  import opened JobCreation

  // ----- runs inside the controller's process -----

  datatype Ending = Returned | Errored | Panicked

  /** The deferred calls of a run, in the order in which they run. */
  datatype Deferred = Recover | CountDown

  const DEFERRED := [Recover, CountDown]

  /** Whether a goroutine still panics after its deferred calls: then the process dies. */
  function PanicsAfter(calls: seq<Deferred>, panicking: bool): bool {
    if calls == [] then panicking else PanicsAfter(calls[1..], panicking && calls[0] != Recover)
  }

  /** How often they count the run down. */
  function CountsDown(calls: seq<Deferred>): nat {
    if calls == [] then 0 else (if calls[0] == CountDown then 1 else 0) + CountsDown(calls[1..])
  }

  /** A panic is survived exactly if some deferred call recovers it. */
  lemma {:induction false} RecoveringIsNeeded(calls: seq<Deferred>, panicking: bool)
    ensures PanicsAfter(calls, panicking) <==> panicking && Recover !in calls
  {
    if calls != [] {
      RecoveringIsNeeded(calls[1..], panicking && calls[0] != Recover);
      assert calls == [calls[0]] + calls[1..];
    }
  }

  /** `runs` is the wait group: a ticket for every goroutine that has not ended. */
  class InProcessDispatcher {
    const executors: set<string>
    var active: int
    var runs: set<nat>
    var tickets: nat
    var crashed: bool

    ghost predicate Valid()
      reads this
    {
      !crashed && active == |runs| && forall t :: t in runs ==> t < tickets
    }

    constructor (executors: set<string>)
      ensures Valid() && runs == {} && this.executors == executors
    {
      this.executors, active, runs, tickets, crashed := executors, 0, {}, 0, false;
    }

    method Dispatch(runnerType: string, runJson: Option<string>) returns (ok: bool)
      requires Valid()
      modifies this
      ensures Valid() && (ok <==> runnerType in executors && runJson.Some?)
      ensures runs == old(runs) + (if ok then {old(tickets)} else {}) && old(tickets) !in old(runs)
    {
      if runnerType !in executors || runJson.None? {
        return false;
      }
      active := active + 1;
      runs, tickets := runs + {tickets}, tickets + 1;
      ok := true;
    }

    /** A goroutine ends, and its deferred calls run even if it panicked. Valid says that the
        process survives and that the run is counted down once. */
    method EndRun(t: nat, ending: Ending)
      requires Valid() && t in runs
      modifies this
      ensures Valid() && runs == old(runs) - {t}
    {
      var panicking := ending.Panicked?;
      for i := 0 to |DEFERRED|
        invariant PanicsAfter(DEFERRED, ending.Panicked?) == PanicsAfter(DEFERRED[i..], panicking)
        invariant CountsDown(DEFERRED) == (old(active) - active) + CountsDown(DEFERRED[i..])
        invariant runs == old(runs) && tickets == old(tickets) && !crashed
      {
        match DEFERRED[i]
        case Recover => panicking := false;
        case CountDown => active := active - 1;
      }
      RecoveringIsNeeded(DEFERRED, ending.Panicked?);
      assert CountsDown(DEFERRED) == 1 by { assert DEFERRED[1..] == [CountDown] && DEFERRED[1..][1..] == []; }
      crashed, runs := panicking, runs - {t};
    }
  }

  // ----- runs as jobs of a cluster -----

  function Unfinished(jobs: map<string, Job>): set<string> {
    set n | n in jobs && !jobs[n].finished
  }

  lemma SmallerSet<T>(a: set<T>, b: set<T>)
    requires a <= b
    ensures |a| <= |b|
  {
    if a != {} {
      var x :| x in a;
      SmallerSet(a - {x}, b - {x});
    }
  }

  /** Whatever the cluster answers, a dispatch adds at most one unfinished job. */
  lemma ADispatchAddsAtMostOneJob(q: Request, a: Answers, before: State, after: State, r: Result)
    requires r.Ok? ==> IsStarted(q, a, before, after) || after.jobs == before.jobs
    requires r.Rejected? ==> IsUndone(q, a, before, after, r.reason)
    ensures |Unfinished(after.jobs)| <= |Unfinished(before.jobs)| + 1
  {
    SmallerSet(Unfinished(after.jobs), Unfinished(before.jobs) + {JobName(q.run)});
  }

  method CountActiveJobs(cluster: Cluster) returns (active: nat)
    ensures active == |Unfinished(cluster.jobs)|
  {
    var items := cluster.jobs.Keys;
    ghost var counted: set<string> := {};
    active := 0;
    while items != {}
      invariant items <= cluster.jobs.Keys && items !! counted
      invariant counted == Unfinished(cluster.jobs) - items
      invariant active == |counted|
    {
      var name :| name in items;
      items := items - {name};
      if !cluster.jobs[name].finished {
        active, counted := active + 1, counted + {name};
      }
    }
    assert counted == Unfinished(cluster.jobs);
  }

  // ----- the controller -----

  datatype Dispatcher = InProcess(process: InProcessDispatcher) | Kubernetes(cluster: Cluster, implementations: set<string>)

  /** A claimed run, and whether it decrypts and its implementation type is known. */
  datatype Claim = Claim(request: Request, decrypts: bool, runnerType: Option<string>)

  /** What the world does at each moment. `ended` and `gone` are the runs that end meanwhile. */
  datatype World = World(
    listed: nat -> bool,
    stopped: nat -> bool,
    fetched: nat -> Option<Claim>,
    registered: nat -> bool,
    reported: nat -> bool,
    answers: nat -> Answers,
    ended: nat -> seq<(nat, Ending)>,
    gone: nat -> seq<string>)

  /** What became of a claimed run. */
  datatype Fate = Dispatched | ReportedFailed | Unreported

  datatype ProcessResult = RunProcessed | NoRunAvailable | ProcessFailed

  const MAX_DRAIN_PER_CYCLE_UNLIMITED := 10

  function Undispatched(claims: seq<Fate>): nat {
    if claims == [] then 0 else
    Undispatched(claims[..|claims| - 1]) + if claims[|claims| - 1].Dispatched? then 0 else 1
  }

  /** One cycle: when it began, the room it found, when it ended, what it claimed, and when it
      last fetched. */
  datatype Cycle = Cycle(began: nat, room: int, ended: nat, fates: seq<Fate>, fetchedAt: nat)

  function AllFates(cycles: seq<Cycle>): seq<Fate> {
    if cycles == [] then [] else AllFates(cycles[..|cycles| - 1]) + cycles[|cycles| - 1].fates
  }

  class Controller {
    const dispatcher: Dispatcher
    const maxConcurrentJobs: int
    const world: World
    var now: nat
    ghost var fetchedAt: nat     // the moment of the last fetch
    ghost var claims: seq<Fate>  // every run ever claimed, in order
    ghost var peak: nat          // the most runs ever in flight at one time
    ghost var cycles: seq<Cycle> // every cycle, in order

    ghost function Parts(): set<object> {
      match dispatcher
      case InProcess(process) => {process}
      case Kubernetes(cluster, _) => {cluster}
    }

    /** The number of runs in flight. */
    ghost function InFlight(): nat
      reads Parts()
    {
      match dispatcher
      case InProcess(process) => |process.runs|
      case Kubernetes(cluster, _) => |Unfinished(cluster.jobs)|
    }

    ghost predicate Connected()
      reads Parts()
    {
      match dispatcher
      case InProcess(process) => process.Valid()
      case Kubernetes(cluster, _) => WellFormed(cluster.Now())
    }

    /** A run can be dispatched now: its kind has a handler, and its document decodes or, in a
        cluster, its job is there or can be started. */
    ghost predicate Dispatchable(q: Request, runnerType: string)
      reads this`now, Parts()
    {
      match dispatcher
      case InProcess(process) => runnerType in process.executors && q.decoded.Some?
      case Kubernetes(cluster, implementations) =>
        runnerType in implementations && ResultOf(q, world.answers(now), cluster.Now(), cluster.accounts).Ok?
    }

    /** What a dispatcher in the process takes, at any time. */
    ghost predicate Takes(claim: Claim)
    {
      && claim.decrypts && claim.runnerType.Some? && claim.request.decoded.Some?
      && (dispatcher.InProcess? ==> claim.runnerType.value in dispatcher.process.executors)
    }

    /** A cycle fills the room it finds; it ends early only if it is stopped, finds no run, or
        fails to dispatch one, and that is its last. */
    ghost predicate IsCycle(c: Cycle) {
      && c.began <= c.ended && |c.fates| <= c.room
      && (forall i :: 0 <= i < |c.fates| - 1 ==> c.fates[i].Dispatched?)
      && (|c.fates| == c.room || world.stopped(c.ended) || FindsNothing(c) || LastFails(c))
      && (LastFails(c) ==> c.began <= c.fetchedAt < c.ended && Refused(c.fetchedAt))
    }

    ghost predicate FindsNothing(c: Cycle) {
      c.began <= c.fetchedAt < c.ended && world.fetched(c.fetchedAt).None?
    }

    ghost predicate LastFails(c: Cycle) {
      |c.fates| > 0 && !c.fates[|c.fates| - 1].Dispatched?
    }

    /** The run fetched at a moment is one that, in the process, cannot be taken. */
    ghost predicate Refused(moment: nat) {
      world.fetched(moment).Some? && (dispatcher.InProcess? ==> !Takes(world.fetched(moment).value))
    }

    /** A cycle of an in-process controller that is not stopped and finds a run it can take at every
        fetch claims exactly as many as there was room for, and dispatches them all. */
    lemma AFullCycle(c: Cycle)
      requires IsCycle(c) && dispatcher.InProcess? && !world.stopped(c.ended)
      requires forall m: nat :: c.began <= m < c.ended ==> world.fetched(m).Some? && Takes(world.fetched(m).value)
      ensures |c.fates| == c.room && forall i :: 0 <= i < |c.fates| ==> c.fates[i].Dispatched?
    {
    }

    /** The runs in flight can be counted at a moment. */
    ghost predicate Countable(moment: nat) {
      dispatcher.InProcess? || world.listed(moment)
    }

    /** The room for further runs: none if the runs in flight cannot be counted. */
    ghost function Room(moment: nat, inFlight: nat): int {
      if maxConcurrentJobs < 0 then MAX_DRAIN_PER_CYCLE_UNLIMITED
      else if Countable(moment) && maxConcurrentJobs > inFlight then maxConcurrentJobs - inFlight else 0
    }

    ghost function Capacity(): int
      reads this`now, Parts()
    {
      Room(now, InFlight())
    }

    /** A cycle and the next one: no time is lost between them, and unless the runs in flight cannot
        be counted, there is at least the room the first has left, since only claims take room. */
    ghost predicate Succeeds(c: Cycle, d: Cycle) {
      d.began == c.ended + 1 && (Countable(d.began) ==> d.room >= c.room - |c.fates|)
    }

    /** The room and the runs in flight add up to the limit. */
    lemma RoomAddsUp(moment: nat, inFlight: nat)
      ensures maxConcurrentJobs < 0 ==> Room(moment, inFlight) == 10
      ensures inFlight <= maxConcurrentJobs && (dispatcher.InProcess? || world.listed(moment)) ==>
        Room(moment, inFlight) + inFlight == maxConcurrentJobs
      ensures 0 <= maxConcurrentJobs && (inFlight > maxConcurrentJobs || (dispatcher.Kubernetes? && !world.listed(moment))) ==>
        Room(moment, inFlight) == 0
    {
    }

    lemma ItSucceeds(cycles: seq<Cycle>, n: nat, d: Cycle)
      requires n <= |cycles| && forall i :: n < i < |cycles| ==> Succeeds(cycles[i - 1], cycles[i])
      requires n < |cycles| ==> Succeeds(cycles[|cycles| - 1], d)
      ensures forall i :: n < i < |cycles + [d]| ==> Succeeds((cycles + [d])[i - 1], (cycles + [d])[i])
    {
    }

    lemma RoomIsLeft(c: Cycle, before: nat, now: nat, after: nat)
      requires c.room == Room(c.began, before) && after <= before + |c.fates| && Countable(now)
      ensures Room(now, after) >= c.room - |c.fates|
    {
    }

    /** With a limit, there are never more runs in flight than it allows. */
    ghost predicate Valid()
      reads this, Parts()
    {
      && this !in Parts() && Connected()
      && InFlight() <= peak
      && (maxConcurrentJobs >= 0 ==> peak <= maxConcurrentJobs)
    }

    constructor (dispatcher: Dispatcher, maxConcurrentJobs: int, world: World)
      requires dispatcher.InProcess? ==> dispatcher.process.Valid() && dispatcher.process.runs == {}
      requires dispatcher.Kubernetes? ==> WellFormed(dispatcher.cluster.Now()) && Unfinished(dispatcher.cluster.jobs) == {}
      ensures this.world == world && now == 0
      ensures Valid() && claims == [] && cycles == [] && this.dispatcher == dispatcher && this.maxConcurrentJobs == maxConcurrentJobs
    {
      this.dispatcher, this.maxConcurrentJobs, this.world := dispatcher, maxConcurrentJobs, world;
      now, fetchedAt, claims, peak, cycles := 0, 0, [], 0, [];
    }

    /** Time passes: goroutines end, or jobs finish. */
    method Meanwhile()
      requires this !in Parts() && Connected()
      modifies this`now, Parts()
      ensures Connected() && InFlight() <= old(InFlight()) && now == old(now) + 1
    {
      now := now + 1;
      match dispatcher
      case InProcess(process) =>
        var ended := world.ended(now);
        for i := 0 to |ended|
          invariant now == old(now) + 1
          invariant process.Valid() && |process.runs| <= old(|process.runs|)
        {
          if ended[i].0 in process.runs {
            process.EndRun(ended[i].0, ended[i].1);
          }
        }
      case Kubernetes(cluster, _) =>
        var gone := world.gone(now);
        for i := 0 to |gone|
          invariant now == old(now) + 1
          invariant WellFormed(cluster.Now()) && |Unfinished(cluster.jobs)| <= old(|Unfinished(cluster.jobs)|)
        {
          if gone[i] in cluster.jobs {
            ghost var before := cluster.jobs;
            cluster.jobs := cluster.jobs[gone[i] := cluster.jobs[gone[i]].(finished := true)];
            SmallerSet(Unfinished(cluster.jobs), Unfinished(before));
          }
        }
    }

    method AvailableCapacity() returns (capacity: int)
      requires Valid()
      ensures capacity == Capacity()
    {
      if maxConcurrentJobs < 0 {
        return MAX_DRAIN_PER_CYCLE_UNLIMITED;
      }
      var active: int;
      match dispatcher {
        case InProcess(process) => active := process.active;
        case Kubernetes(cluster, _) =>
          if !world.listed(now) {
            return 0;
          }
          active := CountActiveJobs(cluster);
      }
      capacity := if maxConcurrentJobs > active then maxConcurrentJobs - active else 0;
    }

    method Dispatch(q: Request, runnerType: string) returns (ok: bool)
      requires this !in Parts() && Connected()
      modifies Parts()
      ensures Connected() && InFlight() <= old(InFlight()) + 1
      ensures ok == old(Dispatchable(q, runnerType))
      ensures dispatcher.InProcess? ==> InFlight() == old(InFlight()) + if ok then 1 else 0
      ensures dispatcher.Kubernetes? && ok ==> JobName(q.run) in dispatcher.cluster.jobs
    {
      match dispatcher
      case InProcess(process) =>
        ok := process.Dispatch(runnerType, q.decoded);
      case Kubernetes(cluster, implementations) =>
        if runnerType !in implementations {
          return false;
        }
        ghost var before := cluster.Now();
        var r := cluster.CreateRunnerJob(q, world.answers(now));
        ADispatchAddsAtMostOneJob(q, world.answers(now), before, cluster.Now(), r);
        ok := r.Ok?;
    }

    /** The controller reports for a run that no runner will report for. */
    method ReportRunFailure() returns (fate: Fate)
      ensures fate == if world.registered(now) && world.reported(now) then ReportedFailed else Unreported
    {
      fate := Unreported;
      if world.registered(now) {
        if world.reported(now) {
          fate := ReportedFailed;
        }
      }
    }

    /** Dispatches a claimed run, or reports that it cannot be. */
    method ProcessClaim(claim: Claim) returns (fate: Fate)
      requires this !in Parts() && Connected() && InFlight() <= peak
      modifies this`now, this`peak, Parts()
      ensures Connected() && InFlight() <= peak && InFlight() <= old(InFlight()) + 1
      ensures old(peak) <= peak && (peak == old(peak) || peak <= old(InFlight()) + 1)
      ensures old(now) <= now <= old(now) + 1
      ensures fate.Dispatched? <==>
        claim.decrypts && claim.runnerType.Some? && old(Dispatchable(claim.request, claim.runnerType.value))
      ensures !claim.decrypts ==> fate == Unreported
      ensures claim.decrypts && !fate.Dispatched? ==> (fate.ReportedFailed? <==> world.registered(now) && world.reported(now))
    {
      if !claim.decrypts {
        return Unreported;
      }
      if claim.runnerType.None? {
        fate := ReportRunFailure();
        return;
      }
      var ok := Dispatch(claim.request, claim.runnerType.value);
      peak := if InFlight() > peak then InFlight() else peak;
      Meanwhile();
      if ok {
        return Dispatched;
      }
      fate := ReportRunFailure();
    }

    /** Claims a run and dispatches it; the runs in flight grow by one at most. */
    method ProcessNextRun() returns (result: ProcessResult)
      requires this !in Parts() && Connected() && InFlight() <= peak
      modifies this`now, this`fetchedAt, this`claims, this`peak, Parts()
      ensures fetchedAt == old(now) < now <= old(now) + 2
      ensures Connected() && InFlight() <= peak && InFlight() <= old(InFlight()) + 1
      ensures old(peak) <= peak && (peak == old(peak) || peak <= old(InFlight()) + 1)
      ensures result.NoRunAvailable? <==> world.fetched(old(now)).None?
      ensures result.NoRunAvailable? ==> claims == old(claims) && InFlight() <= old(InFlight())
      ensures !result.NoRunAvailable? ==> |claims| == |old(claims)| + 1 && claims[..|old(claims)|] == old(claims)
      ensures !result.NoRunAvailable? ==> (result.RunProcessed? <==> claims[|old(claims)|].Dispatched?)

      ensures world.fetched(old(now)).Some? && !world.fetched(old(now)).value.decrypts ==> claims == old(claims) + [Unreported]
      ensures dispatcher.InProcess? && world.fetched(old(now)).Some? ==> (result.RunProcessed? <==> Takes(world.fetched(old(now)).value))

      // a claimed run stays without a report exactly if it does not decrypt or the report fails
      ensures result.ProcessFailed? ==> (claims[|old(claims)|].Unreported? <==>
        !world.fetched(old(now)).value.decrypts || !world.registered(now) || !world.reported(now))
    {
      var claim := world.fetched(now);
      fetchedAt := now;
      Meanwhile();
      if claim.None? {
        return NoRunAvailable;
      }
      var fate := ProcessClaim(claim.value);
      claims := claims + [fate];
      result := if fate.Dispatched? then RunProcessed else ProcessFailed;
    }

    /** One cycle: it fills the capacity it finds, and every run it claims is dispatched, except that the last may fail. */
    method DrainRuns()
      requires Valid()
      modifies this`now, this`fetchedAt, this`claims, this`peak, Parts()
      ensures Valid() && old(peak) <= peak && |claims| >= |old(claims)| && claims[..|old(claims)|] == old(claims)
      ensures forall i :: |old(claims)| <= i < |claims| - 1 ==> claims[i].Dispatched?
      ensures |claims| - |old(claims)| <= old(Capacity())
      ensures InFlight() <= old(InFlight()) + (|claims| - |old(claims)|)

      // a cycle ends early only if it is stopped, finds no run, or fails to dispatch one
      ensures |claims| - |old(claims)| == old(Capacity()) || world.stopped(now) ||
              (old(now) <= fetchedAt < now && world.fetched(fetchedAt).None?) ||
              (|claims| > |old(claims)| && !claims[|claims| - 1].Dispatched?)
      ensures |claims| > |old(claims)| && !claims[|claims| - 1].Dispatched? ==> old(now) <= fetchedAt < now && Refused(fetchedAt)
      // and time passes only by fetching and dispatching
      ensures old(now) <= now <= old(now) + 2 * (|claims| - |old(claims)| + 1)
      ensures |claims| == |old(claims)| && world.stopped(old(now)) ==> now == old(now)
    {
      hide Connected, InFlight, Unfinished;
      var capacity := AvailableCapacity();
      if capacity <= 0 {
        return;
      }
      var dispatched := 0;
      while dispatched < capacity && !world.stopped(now)
        invariant 0 <= dispatched <= capacity && Valid() && old(peak) <= peak && old(now) <= now <= old(now) + 2 * dispatched
        invariant InFlight() <= old(InFlight()) + dispatched
        invariant maxConcurrentJobs >= 0 ==> InFlight() + (capacity - dispatched) <= maxConcurrentJobs
        invariant |claims| == |old(claims)| + dispatched && claims[..|old(claims)|] == old(claims)
        invariant forall i :: |old(claims)| <= i < |claims| ==> claims[i].Dispatched?
      {
        var result := ProcessNextRun();
        if !result.RunProcessed? {
          return;
        }
        dispatched := dispatched + 1;
      }
    }

    /** A tick is a cycle. */
    method OnTick()
      requires Valid()
      modifies this`now, this`fetchedAt, this`claims, this`peak, this`cycles, Parts()
      ensures Valid() && old(peak) <= peak && |claims| >= |old(claims)| && claims[..|old(claims)|] == old(claims)
      ensures cycles == old(cycles) + [Cycle(old(now), old(Capacity()), now, claims[|old(claims)|..], fetchedAt)]
      ensures IsCycle(cycles[|old(cycles)|])
      ensures InFlight() <= old(InFlight()) + |cycles[|old(cycles)|].fates|
    {
      hide Connected, InFlight, Unfinished, Room;
      ghost var began, room, before := now, Capacity(), claims;
      DrainRuns();
      cycles := cycles + [Cycle(began, room, now, claims[|before|..], fetchedAt)];
    }

    /** Every tick before the stop is a cycle, and nothing but cycles claims runs: so there are never
        too many in flight, and at most one claimed run a tick is not dispatched. */
    method Run(ticks: nat)
      requires Valid()
      modifies this`now, this`fetchedAt, this`claims, this`peak, this`cycles, Parts()
      ensures Valid() && old(peak) <= peak && Undispatched(claims) <= Undispatched(old(claims)) + ticks
      ensures |old(cycles)| <= |cycles| <= |old(cycles)| + ticks && cycles[..|old(cycles)|] == old(cycles)
      ensures |cycles| == |old(cycles)| + ticks || world.stopped(now)
      ensures forall i :: |old(cycles)| <= i < |cycles| ==> IsCycle(cycles[i])
      ensures forall i :: |old(cycles)| < i < |cycles| ==> Succeeds(cycles[i - 1], cycles[i])
      ensures claims == old(claims) + AllFates(cycles[|old(cycles)|..])
      ensures ticks > 0 && !world.stopped(old(now)) ==> |cycles| > |old(cycles)|
      ensures |cycles| > |old(cycles)| ==> cycles[|old(cycles)|].began == old(now) && cycles[|old(cycles)|].room == old(Capacity())
    {
      hide Connected, InFlight, Unfinished, IsCycle, Room, Countable, AllFates, Undispatched;
      NoFates();
      assert claims + [] == claims && cycles[|cycles|..] == [];
      for i := 0 to ticks
        invariant Valid() && old(peak) <= peak && Undispatched(claims) <= Undispatched(old(claims)) + i
        invariant |cycles| == |old(cycles)| + i && cycles[..|old(cycles)|] == old(cycles)
        invariant forall i :: |old(cycles)| <= i < |cycles| ==> IsCycle(cycles[i])
        invariant forall i :: |old(cycles)| < i < |cycles| ==> Succeeds(cycles[i - 1], cycles[i])
        invariant i > 0 ==> now == cycles[|cycles| - 1].ended + 1
        invariant i > 0 && Countable(now) ==> Capacity() >= cycles[|cycles| - 1].room - |cycles[|cycles| - 1].fates|
        invariant claims == old(claims) + AllFates(cycles[|old(cycles)|..])
        invariant i == 0 ==> now == old(now) && Capacity() == old(Capacity())
        invariant i > 0 ==> cycles[|old(cycles)|].began == old(now) && cycles[|old(cycles)|].room == old(Capacity())
      {
        if world.stopped(now) {
          return;
        }
        ghost var before, had, inFlight := claims, cycles, InFlight();
        OnTick();
        ItSucceeds(had, |old(cycles)|, cycles[|had|]);
        CycleClaims(before, claims, cycles[|had|]);
        AppendCycle(had, |old(cycles)|, cycles[|had|]);
        Meanwhile();
        if Countable(now) {
          RoomIsLeft(cycles[|had|], inFlight, now, InFlight());
        }
      }
    }

    lemma CycleClaims(before: seq<Fate>, after: seq<Fate>, c: Cycle)
      requires |after| >= |before| && after[..|before|] == before && c.fates == after[|before|..] && IsCycle(c)
      ensures Undispatched(after) <= Undispatched(before) + 1 && after == before + c.fates
    {
      forall i | |before| <= i < |after| - 1
        ensures after[i].Dispatched?
      {
        assert after[i] == c.fates[i - |before|];
      }
      OnlyTheLastFails(before, after);
    }
  }

  lemma NoFates()
    ensures AllFates([]) == []
  {
  }

  lemma AppendCycle(cycles: seq<Cycle>, n: nat, c: Cycle)
    requires n <= |cycles|
    ensures AllFates((cycles + [c])[n..]) == AllFates(cycles[n..]) + c.fates
  {
    assert (cycles + [c])[n..] == cycles[n..] + [c];
    assert (cycles[n..] + [c])[..|cycles| - n] == cycles[n..];
  }

  lemma {:induction false} OnlyTheLastFails(before: seq<Fate>, after: seq<Fate>)
    requires |after| >= |before| && after[..|before|] == before
    requires forall i :: |before| <= i < |after| - 1 ==> after[i].Dispatched?
    ensures Undispatched(after) <= Undispatched(before) + 1
  {
    if |after| == |before| {
      assert after == before;
    } else {
      var init := after[..|after| - 1];
      if |init| == |before| {
        assert init == before;
      } else {
        AllDispatched(before, init);
      }
    }
  }

  lemma {:induction false} AllDispatched(before: seq<Fate>, after: seq<Fate>)
    requires |after| >= |before| && after[..|before|] == before
    requires forall i :: |before| <= i < |after| ==> after[i].Dispatched?
    ensures Undispatched(after) == Undispatched(before)
  {
    if |after| == |before| {
      assert after == before;
    } else {
      var init := after[..|after| - 1];
      assert init[..|before|] == before;
      AllDispatched(before, init);
    }
  }

  /** A run that does not decrypt is claimed, and nobody reports for it. */
  method ARunThatDoesNotDecrypt(q: Request, answers: nat -> Answers) returns (result: ProcessResult, ghost fates: seq<Fate>)
    ensures result == ProcessFailed && fates == [Unreported]
  {
    var process := new InProcessDispatcher({"terraform"});
    var world := World(_ => true, _ => false, _ => Some(Claim(q, false, Some("terraform"))), _ => true, _ => true,
                       answers, _ => [], _ => []);
    var controller := new Controller(InProcess(process), 1, world);
    result := controller.ProcessNextRun();
    fates := controller.claims;
  }

  /** One tick of an idle controller with room for one run, and a run it can take: the run is
      dispatched. */
  method ATickDispatchesARun(q: Request, answers: nat -> Answers) returns (ghost fates: seq<Fate>)
    requires q.decoded.Some?
    ensures fates == [Dispatched]
  {
    var process := new InProcessDispatcher({"terraform"});
    var world := World(_ => true, _ => false, _ => Some(Claim(q, true, Some("terraform"))), _ => true, _ => true,
                       answers, _ => [], _ => []);
    var controller := new Controller(InProcess(process), 1, world);
    controller.Run(1);
    fates := controller.claims;
    ghost var c := controller.cycles[0];
    controller.AFullCycle(c);
    assert controller.cycles[0..] == [c] && [c][..0] == [];
    assert AllFates([c]) == c.fates;
  }
}
