/** The API key interceptor: any number of threads share one cached token, read it without the
    lock, and log in for a new one under the lock after looking again. */
module TokenCache {
  import opened Snapshots

  // milliseconds
  const TOKEN_EXPIRY_BUFFER := 30000
  const MIN_TOKEN_LIFETIME := 1000

  /** A successful login: when it was sent, when the server issued the token, when its expiry was
      computed here, and for how many seconds the server said it is valid. */
  datatype Login = Login(thread: nat, sent: nat, issued: nat, computed: nat, expiresIn: int)

  function EffectiveLifetime(expiresIn: int): nat {
    var lifetime := expiresIn * 1000 - TOKEN_EXPIRY_BUFFER;
    if lifetime <= 0 then MIN_TOKEN_LIFETIME else lifetime
  }

  /** The `expiresAt` of the token in the cache. */
  function ExpiresAt(l: Login): nat {
    l.computed + EffectiveLifetime(l.expiresIn)
  }

  /** Where a thread stands in `getValidToken`. A token is named by its login; one that came out
      of the cache carries the moment at which it was found unexpired. */
  datatype Pc =
    | Outside
    | FastRead
    | FastCheck(current: Option<nat>)
    | Waiting
    | LockedRead
    | LockedCheck(locked: Option<nat>)
    | Fetching(sent: nat)
    | Answered(sent: nat, issued: nat, expiresIn: int)
    | Storing(login: nat)
    | Leaving(token: Option<nat>, checked: Option<nat>)
    | Returned(result: nat, checked: Option<nat>)
    | Threw

  datatype Thread = Thread(pc: Pc, called: nat)

  datatype State = State(now: nat, cached: Option<nat>, owner: Option<nat>, threads: seq<Thread>, logins: seq<Login>)

  datatype Event =
    | Tick(d: nat)
    | Call(t: nat)
    | ReadsCache(t: nat)
    | ChecksClock(t: nat)
    | Acquires(t: nat)
    | Issues(t: nat, expiresIn: int)
    | Computes(t: nat)
    | Stores(t: nat)
    | LoginFails(t: nat)
    | Releases(t: nat)

  predicate Alive(s: State, token: Option<nat>) {
    token.Some? && token.value < |s.logins| && s.now < ExpiresAt(s.logins[token.value])
  }

  predicate HoldsLock(pc: Pc) {
    pc.LockedRead? || pc.LockedCheck? || pc.Fetching? || pc.Answered? || pc.Storing? || pc.Leaving?
  }

  predicate Enabled(s: State, e: Event) {
    e.Tick? || (e.t < |s.threads| &&
      var pc := s.threads[e.t].pc;
      match e
      case Tick(_) => true
      case Call(_) => pc.Outside? || pc.Returned? || pc.Threw?
      case ReadsCache(_) => pc.FastRead? || pc.LockedRead?
      case ChecksClock(_) => pc.FastCheck? || pc.LockedCheck?
      case Acquires(_) => pc.Waiting? && s.owner.None?
      case Issues(_, _) => pc.Fetching?
      case Computes(_) => pc.Answered?
      case Stores(_) => pc.Storing?
      case LoginFails(_) => pc.Fetching? || pc.Answered?
      case Releases(_) => pc.Leaving?)
  }

  function Move(s: State, t: nat, pc: Pc): State
    requires t < |s.threads|
  {
    s.(threads := s.threads[t := s.threads[t].(pc := pc)])
  }

  function Step(s: State, e: Event): State
    requires Enabled(s, e)
  {
    match e
    case Tick(d) => s.(now := s.now + d)
    case Call(t) => s.(threads := s.threads[t := Thread(FastRead, s.now)])
    case ReadsCache(t) => Move(s, t, if s.threads[t].pc.FastRead? then FastCheck(s.cached) else LockedCheck(s.cached))
    case ChecksClock(t) =>
      (match s.threads[t].pc
       case FastCheck(current) => Move(s, t, if Alive(s, current) then Returned(current.value, Some(s.now)) else Waiting)
       case LockedCheck(locked) => Move(s, t, if Alive(s, locked) then Leaving(locked, Some(s.now)) else Fetching(s.now))
       case _ => s)
    case Acquires(t) => Move(s, t, LockedRead).(owner := Some(t))
    case Issues(t, expiresIn) => Move(s, t, Answered(s.threads[t].pc.sent, s.now, expiresIn))
    case Computes(t) =>
      var pc := s.threads[t].pc;
      Move(s, t, Storing(|s.logins|)).(logins := s.logins + [Login(t, pc.sent, pc.issued, s.now, pc.expiresIn)])
    case Stores(t) => Move(s, t, Leaving(Some(s.threads[t].pc.login), None)).(cached := Some(s.threads[t].pc.login))
    case LoginFails(t) => Move(s, t, Leaving(None, None))
    case Releases(t) =>
      var pc := s.threads[t].pc;
      Move(s, t, if pc.token.Some? then Returned(pc.token.value, pc.checked) else Threw).(owner := None)
  }

  ghost predicate Follow(s: State, t: State) {
    exists e :: Enabled(s, e) && t == Step(s, e)
  }

  predicate Start(s: State) {
    s.cached.None? && s.owner.None? && s.logins == [] && forall t :: 0 <= t < |s.threads| ==> s.threads[t] == Thread(Outside, 0)
  }

  ghost predicate Execution(run: seq<State>) {
    run != [] && Start(run[0]) && forall i :: 0 <= i < |run| - 1 ==> Follow(run[i], run[i + 1])
  }

  // ----- the invariant -----

  /** A token was unexpired at a moment inside the call, or the call logged in for it. */
  predicate Earned(s: State, t: nat, token: nat, checked: Option<nat>)
    requires t < |s.threads|
  {
    && token < |s.logins|
    && match checked
       case Some(m) => s.threads[t].called <= m <= s.now && m < ExpiresAt(s.logins[token])
       case None => s.logins[token].thread == t && s.threads[t].called <= s.logins[token].sent
  }

  predicate Spaced(a: Login, b: Login) {
    ExpiresAt(a) <= b.sent
  }

  ghost predicate ThreadInv(s: State, t: nat)
    requires t < |s.threads|
  {
    var n, pc := |s.logins|, s.threads[t].pc;
    && s.threads[t].called <= s.now
    && (HoldsLock(pc) <==> s.owner == Some(t))
    && match pc
       case FastCheck(current) => current.Some? ==> current.value < n
       case LockedCheck(locked) => locked == s.cached
       case Fetching(sent) => s.threads[t].called <= sent <= s.now && (n > 0 ==> ExpiresAt(s.logins[n - 1]) <= sent)
       case Answered(sent, issued, _) =>
         s.threads[t].called <= sent <= issued <= s.now && (n > 0 ==> ExpiresAt(s.logins[n - 1]) <= sent)
       case Storing(login) => n > 0 && login == n - 1 && Earned(s, t, login, None)
       case Leaving(token, checked) => token.Some? ==> Earned(s, t, token.value, checked)
       case Returned(token, checked) => Earned(s, t, token, checked)
       case _ => true
  }

  /** A login is about to be stored. */
  predicate Pending(s: State) {
    s.owner.Some? && s.owner.value < |s.threads| && s.threads[s.owner.value].pc.Storing?
  }

  ghost predicate LoginInv(s: State) {
    && (forall i :: 0 <= i < |s.logins| ==>
          s.logins[i].sent <= s.logins[i].issued <= s.logins[i].computed <= s.now)
    && (forall i, j :: 0 <= i < j < |s.logins| ==> Spaced(s.logins[i], s.logins[j]))
  }

  ghost predicate Inv(s: State) {
    && LoginInv(s)
    && (s.owner.Some? ==> s.owner.value < |s.threads|)
    && (s.cached.Some? ==> s.cached.value < |s.logins|)
    && (!Pending(s) ==> s.cached == if s.logins == [] then None else Some(|s.logins| - 1))
    && forall t :: 0 <= t < |s.threads| ==> ThreadInv(s, t)
  }

  /** What a thread knows stays true when others move: time goes on, logins are added, and as
      long as it holds the lock nothing else changes. */
  lemma AThreadAtRest(s: State, next: State, t: nat)
    requires t < |s.threads| && |next.threads| == |s.threads| && next.threads[t] == s.threads[t] && ThreadInv(s, t)
    requires s.now <= next.now && s.logins <= next.logins && (s.owner == Some(t) <==> next.owner == Some(t))
    requires s.owner == Some(t) ==> next.logins == s.logins && next.cached == s.cached
    ensures ThreadInv(next, t)
  {
    assert forall i :: 0 <= i < |s.logins| ==> next.logins[i] == s.logins[i];
  }

  lemma OthersKeepTheirInv(s: State, e: Event, t: nat)
    requires Inv(s) && Enabled(s, e) && t < |s.threads| && (e.Tick? || t != e.t)
    ensures ThreadInv(Step(s, e), t)
  {
    assert ThreadInv(s, t);
    assert !e.Tick? ==> (HoldsLock(s.threads[e.t].pc) <==> s.owner == Some(e.t)) by {
      assert !e.Tick? ==> ThreadInv(s, e.t);
    }
    hide ThreadInv, Inv;
    AThreadAtRest(s, Step(s, e), t);
  }

  predicate LogsIn(e: Event) {
    e.Issues? || e.Computes? || e.Stores? || e.LoginFails? || e.Releases?
  }

  lemma AReaderKeepsItsInv(s: State, e: Event)
    requires Inv(s) && Enabled(s, e) && !e.Tick? && !LogsIn(e)
    ensures ThreadInv(Step(s, e), e.t)
  {
    assert ThreadInv(s, e.t);
    hide LoginInv;
  }

  lemma ALoginKeepsItsInv(s: State, e: Event)
    requires Inv(s) && Enabled(s, e) && LogsIn(e)
    ensures ThreadInv(Step(s, e), e.t)
  {
    assert ThreadInv(s, e.t);
    hide LoginInv, Inv;
  }

  lemma LoginsStaySpaced(s: State, e: Event)
    requires Inv(s) && Enabled(s, e)
    ensures LoginInv(Step(s, e))
  {
    if e.Computes? {
      assert ThreadInv(s, e.t);
      var n := |s.logins|;
      forall i | 0 <= i < n
        ensures ExpiresAt(s.logins[i]) <= s.threads[e.t].pc.sent
      {
        assert i < n - 1 ==> Spaced(s.logins[i], s.logins[n - 1]);
      }
    }
  }

  lemma StepKeepsInv(s: State, e: Event)
    requires Inv(s) && Enabled(s, e)
    ensures Inv(Step(s, e))
  {
    var next := Step(s, e);
    LoginsStaySpaced(s, e);
    forall t | 0 <= t < |next.threads|
      ensures ThreadInv(next, t)
    {
      if e.Tick? || t != e.t {
        OthersKeepTheirInv(s, e, t);
      } else {
        if LogsIn(e) {
          ALoginKeepsItsInv(s, e);
        } else {
          AReaderKeepsItsInv(s, e);
        }
      }
    }
    assert !e.Tick? ==> ThreadInv(s, e.t);
    assert s.owner.Some? ==> ThreadInv(s, s.owner.value);
  }

  lemma StartIsInv(s: State)
    requires Start(s)
    ensures Inv(s)
  {
  }

  lemma {:induction false} ExecutionKeepsInv(run: seq<State>)
    requires Execution(run)
    ensures forall i :: 0 <= i < |run| ==> Inv(run[i])
  {
    hide Inv, Step, Start, Enabled;
    if |run| == 1 {
      StartIsInv(run[0]);
    } else {
      var before := run[..|run| - 1];
      assert forall i :: 0 <= i < |before| - 1 ==> Follow(before[i], before[i + 1]);
      ExecutionKeepsInv(before);
      var s := before[|before| - 1];
      assert Follow(run[|run| - 2], run[|run| - 1]) && Inv(s);
      var e :| Enabled(s, e) && run[|run| - 1] == Step(s, e);
      StepKeepsInv(s, e);
    }
  }

  // ----- what follows for every execution -----

  /** Only the owner of the lock logs in, and when it sends its request the last token obtained
      has expired: successive logins are at least the earlier token's effective lifetime apart. */
  lemma LoginsAreSpaced(run: seq<State>, i: nat)
    requires Execution(run) && i < |run|
    ensures var s := run[i];
      && (forall a, b :: 0 <= a < b < |s.logins| ==> s.logins[a].computed + EffectiveLifetime(s.logins[a].expiresIn) <= s.logins[b].sent)
      && (forall t :: 0 <= t < |s.threads| && (s.threads[t].pc.Fetching? || s.threads[t].pc.Answered?) ==>
            s.owner == Some(t) && forall a :: 0 <= a < |s.logins| ==> ExpiresAt(s.logins[a]) <= s.threads[t].pc.sent)
  {
    ExecutionKeepsInv(run);
    var s := run[i];
    assert Inv(s);
    forall a, b | 0 <= a < b < |s.logins|
      ensures s.logins[a].computed + EffectiveLifetime(s.logins[a].expiresIn) <= s.logins[b].sent
    {
      assert Spaced(s.logins[a], s.logins[b]);
    }
    forall t | 0 <= t < |s.threads| && (s.threads[t].pc.Fetching? || s.threads[t].pc.Answered?)
      ensures s.owner == Some(t) && forall a :: 0 <= a < |s.logins| ==> ExpiresAt(s.logins[a]) <= s.threads[t].pc.sent
    {
      assert ThreadInv(s, t);
      forall a | 0 <= a < |s.logins|
        ensures ExpiresAt(s.logins[a]) <= s.threads[t].pc.sent
      {
        assert a < |s.logins| - 1 ==> Spaced(s.logins[a], s.logins[|s.logins| - 1]);
      }
    }
  }

  /** Every token a call returns was unexpired at a moment inside the call, or this call
      obtained it. */
  lemma ReturnedTokensAreEarned(run: seq<State>, i: nat, t: nat)
    requires Execution(run) && i < |run| && t < |run[i].threads| && run[i].threads[t].pc.Returned?
    ensures var s, pc := run[i], run[i].threads[t].pc;
      && pc.result < |s.logins|
      && var l := s.logins[pc.result];
         if pc.checked.Some? then s.threads[t].called <= pc.checked.value <= s.now && pc.checked.value < ExpiresAt(l)
         else l.thread == t && s.threads[t].called <= l.sent <= l.computed <= s.now
  {
    ExecutionKeepsInv(run);
    assert Inv(run[i]) && ThreadInv(run[i], t);
  }

  /** The server accepts a token until `expiresIn` seconds after it issued it. */
  predicate Accepted(l: Login, m: int) {
    m < l.issued + l.expiresIn * 1000
  }

  /** The cache offers a token only while the server accepts it, exactly if computing the expiry
      came soon enough after the issue: within the buffer for any token of more than thirty
      seconds, within all but one second of its life for a shorter one. */
  lemma CachedTokensAreAcceptedIff(l: Login)
    requires l.issued <= l.computed
    ensures (forall m :: l.computed <= m < ExpiresAt(l) ==> Accepted(l, m))
            <==> l.computed - l.issued <= if l.expiresIn > 30 then TOKEN_EXPIRY_BUFFER else l.expiresIn * 1000 - MIN_TOKEN_LIFETIME
  {
    var m := ExpiresAt(l) - 1;
    assert l.computed <= m < ExpiresAt(l);
    assert Accepted(l, m) <==> l.computed - l.issued <= l.expiresIn * 1000 - EffectiveLifetime(l.expiresIn);
  }

  /** A login that takes 31 s for a token of one minute: in its last second in the cache the
      server no longer accepts it. */
  lemma ASlowLoginOffersARejectedToken()
    ensures var l, m := Login(0, 0, 0, 31_000, 60), 60_500;
      l.computed <= m < ExpiresAt(l) && !Accepted(l, m)
  {
  }

  // ----- how a call ends -----

  /** The states events lead through from s. */
  ghost predicate Leads(s: State, events: seq<Event>, run: seq<State>) {
    && |run| == |events| + 1 && run[0] == s
    && forall i :: 0 <= i < |events| ==> Enabled(run[i], events[i]) && run[i + 1] == Step(run[i], events[i])
  }

  /** The thread is on its way out with this token, or has returned it. */
  predicate BoundToReturn(s: State, t: nat, token: nat) {
    t < |s.threads| &&
    match s.threads[t].pc
    case Leaving(leaving, _) => leaving == Some(token)
    case Returned(result, _) => result == token
    case _ => false
  }

  lemma AStepKeepsTheBound(s: State, e: Event, t: nat, token: nat)
    requires BoundToReturn(s, t, token) && Enabled(s, e) && e != Call(t)
    ensures BoundToReturn(Step(s, e), t, token)
  {
  }

  lemma {:induction false} ABoundCallReturns(s: State, events: seq<Event>, run: seq<State>, t: nat, token: nat)
    requires Leads(s, events, run) && BoundToReturn(s, t, token) && forall e :: e in events ==> e != Call(t)
    ensures BoundToReturn(run[|events|], t, token)
  {
    hide Step, Enabled, BoundToReturn;
    if events != [] {
      var n := |events| - 1;
      assert forall e :: e in events[..n] ==> e in events;
      ABoundCallReturns(s, events[..n], run[..n + 1], t, token);
      assert run[..n + 1][n] == run[n] && events[n] in events;
      AStepKeepsTheBound(run[n], events[n], t, token);
    }
  }

  /** A call whose check finds an unexpired token, with or without the lock, does not end but by
      returning that token; without the lock it returns it there and then. */
  lemma AFoundTokenIsReturned(s: State, t: nat, token: nat, events: seq<Event>, run: seq<State>)
    requires Enabled(s, ChecksClock(t)) && Alive(s, Some(token))
    requires s.threads[t].pc == FastCheck(Some(token)) || s.threads[t].pc == LockedCheck(Some(token))
    requires Leads(Step(s, ChecksClock(t)), events, run) && forall e :: e in events ==> e != Call(t)
    ensures BoundToReturn(run[|events|], t, token)
    ensures s.threads[t].pc.FastCheck? ==>
      Step(s, ChecksClock(t)).threads[t].pc == Returned(token, Some(s.now)) && Step(s, ChecksClock(t)).owner == s.owner
  {
    ABoundCallReturns(Step(s, ChecksClock(t)), events, run, t, token);
  }

  /** A call whose login is stored does not end but by returning what it obtained. */
  lemma AStoredTokenIsReturned(s: State, t: nat, events: seq<Event>, run: seq<State>)
    requires Inv(s) && Enabled(s, Stores(t))
    requires Leads(Step(s, Stores(t)), events, run) && forall e :: e in events ==> e != Call(t)
    ensures var login := s.threads[t].pc.login;
      && login == |s.logins| - 1 && s.logins[login].thread == t && Step(s, Stores(t)).cached == Some(login)
      && BoundToReturn(run[|events|], t, login)
  {
    assert ThreadInv(s, t);
    ABoundCallReturns(Step(s, Stores(t)), events, run, t, s.threads[t].pc.login);
  }

  predicate BoundToThrow(s: State, t: nat) {
    t < |s.threads| && (s.threads[t].pc.Threw? || (s.threads[t].pc.Leaving? && s.threads[t].pc.token.None?))
  }

  lemma OnlyAFailedLoginBinds(s: State, e: Event, t: nat)
    requires t < |s.threads| && !BoundToThrow(s, t) && Enabled(s, e) && BoundToThrow(Step(s, e), t)
    ensures e == LoginFails(t)
  {
  }

  /** A call throws only if its own login failed. */
  lemma {:induction false} AThrowComesFromAFailedLogin(s: State, events: seq<Event>, run: seq<State>, t: nat)
    requires t < |s.threads| && Leads(s, events, run) && !BoundToThrow(s, t)
    requires BoundToThrow(run[|events|], t) && forall e :: e in events ==> e != Call(t)
    ensures LoginFails(t) in events
  {
    hide Step, Enabled, BoundToThrow;
    var n := |events| - 1;
    assert events != [];
    if BoundToThrow(run[n], t) {
      assert forall e :: e in events[..n] ==> e in events;
      AThrowComesFromAFailedLogin(s, events[..n], run[..n + 1], t);
    } else {
      AThreadsStay(s, events[..n], run[..n + 1]);
      assert run[..n + 1][n] == run[n] && events[n] in events;
      OnlyAFailedLoginBinds(run[n], events[n], t);
    }
  }

  lemma {:induction false} AThreadsStay(s: State, events: seq<Event>, run: seq<State>)
    requires Leads(s, events, run)
    ensures |run[|events|].threads| == |s.threads|
  {
    if events != [] {
      var n := |events| - 1;
      AThreadsStay(s, events[..n], run[..n + 1]);
      assert run[..n + 1][n] == run[n];
    }
  }

  // ----- every call ends -----

  /** How many of its own steps a call is away from its end. */
  function StepsLeft(pc: Pc): nat {
    match pc
    case FastRead => 9
    case FastCheck(_) => 8
    case Waiting => 7
    case LockedRead => 6
    case LockedCheck(_) => 5
    case Fetching(_) => 4
    case Answered(_, _, _) => 3
    case Storing(_) => 2
    case Leaving(_, _) => 1
    case _ => 0
  }

  /** Each step of its own brings a call nearer to its end, and no step of another changes where
      it stands. */
  lemma OwnStepsLeadToTheEnd(s: State, e: Event, t: nat)
    requires Enabled(s, e) && t < |s.threads|
    ensures e.Tick? || e.t != t ==> Step(s, e).threads[t] == s.threads[t]
    ensures !e.Tick? && e.t == t && !e.Call? ==> StepsLeft(Step(s, e).threads[t].pc) < StepsLeft(s.threads[t].pc)
  {
  }

  /** A call that has not ended can take a step, unless it waits for the lock; then the owner of
      the lock can. */
  lemma NobodyIsStuck(s: State, t: nat, expiresIn: int) returns (e: Event)
    requires Inv(s) && t < |s.threads| && StepsLeft(s.threads[t].pc) > 0
    ensures !e.Tick? && !e.Call? && Enabled(s, e)
    ensures e.t == t || (s.threads[t].pc == Waiting && s.owner == Some(e.t) && HoldsLock(s.threads[e.t].pc))
  {
    assert ThreadInv(s, t);
    var u := t;
    if s.threads[t].pc == Waiting && s.owner.Some? {
      u := s.owner.value;
      assert ThreadInv(s, u);
    }
    e := match s.threads[u].pc
      case FastRead | LockedRead => ReadsCache(u)
      case FastCheck(_) | LockedCheck(_) => ChecksClock(u)
      case Waiting => Acquires(u)
      case Fetching(_) => Issues(u, expiresIn)
      case Answered(_, _, _) => Computes(u)
      case Storing(_) => Stores(u)
      case _ => Releases(u);
  }
}
