/** The observer of a run beside its work routine: heartbeats, abort, final status.
    Every step below is atomic; the two routines interleave in any way. */
module Observer {
  import opened Snapshots

  /** How meshStack answers a heartbeat. */
  datatype Answer = Accepted(abort: bool) | Refused

  datatype Outcome = Delivered | Transient | Permanent

  /** Status `status` of the published run number `index` on its way to meshStack. */
  datatype Message = Message(index: nat, status: Status)

  datatype Phase = Watching | Sending(index: nat) | Reporting(message: Message) | Gone

  /** `stream` is what the work routine publishes in this execution, however the calls it
      makes turn out; `published` says how far it has come. */
  datatype State = State(
    stream: seq<Publication>,
    published: nat,
    workDone: bool,
    async: bool,
    phase: Phase,
    abortRequested: bool,
    heartbeats: seq<Message>,
    answers: seq<Answer>,
    finals: seq<Message>)

  datatype Event =
    | Publish                // the work routine publishes its next status
    | WorkDone               // and signals that it is done
    | Tick                   // the ticker fires: the observer reads the reported status
    | Beat(answer: Answer)   // and sends it
    | Signal                 // the observer receives the done signal
    | Attempt(outcome: Outcome)

  /** Nothing has happened yet: the stream is what the work routine is going to publish. */
  function Beginning(stream: seq<Publication>, async: bool): State {
    State(stream, 0, false, async, Watching, false, [], [], [])
  }

  /** The published statuses are those of a work routine: in order, the last one terminal. */
  ghost predicate Start(s: State) {
    && Stream(s.stream) && Terminal(s.stream[|s.stream| - 1].run.status)
    && s.stream[0].run.status == InProgress
    && s.published == 0 && !s.workDone && s.phase == Watching && !s.abortRequested
    && s.heartbeats == [] && s.answers == [] && s.finals == []
  }

  predicate Enabled(s: State, e: Event) {
    match e
    case Publish => !s.workDone && s.published + 1 < |s.stream|
    case WorkDone => !s.workDone && s.published + 1 == |s.stream|
    case Tick => s.phase == Watching
    case Beat(_) => s.phase.Sending?
    case Signal => s.phase == Watching && s.workDone
    case Attempt(_) => s.phase.Reporting?
  }

  function FinalStatus(aborted: bool, async: bool, reported: Status): Status {
    if aborted then Aborted
    else if async && reported == Succeeded then InProgress  // the pipeline reports its own end
    else reported
  }

  function Step(s: State, e: Event): State
    requires Enabled(s, e) && s.published < |s.stream|
    requires s.phase.Sending? ==> s.phase.index < |s.stream|
  {
    match e
    case Publish => s.(published := s.published + 1)
    case WorkDone => s.(workDone := true)
    case Tick =>
      if Terminal(s.stream[s.published].run.status) then s else s.(phase := Sending(s.published))
    case Beat(answer) =>
      var i := s.phase.index;
      s.(phase := Watching,
         heartbeats := s.heartbeats + [Message(i, s.stream[i].run.status)],
         answers := s.answers + [answer],
         abortRequested := s.abortRequested || (answer.Accepted? && answer.abort))
    case Signal =>
      s.(phase := Reporting(Message(s.published, FinalStatus(s.abortRequested, s.async, s.stream[s.published].run.status))))
    case Attempt(outcome) =>
      s.(finals := s.finals + [s.phase.message], phase := if outcome == Transient then s.phase else Gone)
  }

  // ----- every interleaving -----

  ghost predicate WellPlaced(s: State) {
    s.published < |s.stream| && (s.phase.Sending? ==> s.phase.index < |s.stream|)
  }

  ghost predicate Follow(s: State, t: State) {
    exists e :: Enabled(s, e) && WellPlaced(s) && t == Step(s, e)
  }

  ghost predicate Execution(run: seq<State>) {
    run != [] && Start(run[0]) && forall i :: 0 <= i < |run| - 1 ==> Follow(run[i], run[i + 1])
  }

  ghost predicate Ordered(ms: seq<Message>) {
    forall i, j :: 0 <= i <= j < |ms| ==> ms[i].index <= ms[j].index
  }

  ghost predicate AbortAnswered(s: State) {
    exists i :: 0 <= i < |s.answers| && s.answers[i].Accepted? && s.answers[i].abort
  }

  ghost predicate IsFinal(s: State, m: Message) {
    && m.index == |s.stream| - 1
    && m.status == FinalStatus(s.abortRequested, s.async, s.stream[m.index].run.status)
  }

  ghost predicate Inv(s: State) {
    && Stream(s.stream) && Terminal(s.stream[|s.stream| - 1].run.status)
    && s.published < |s.stream|
    && (s.workDone ==> s.published + 1 == |s.stream|)
    && (s.abortRequested <==> AbortAnswered(s))
    && Ordered(s.heartbeats)
    && (forall m :: m in s.heartbeats ==>
          m.index <= s.published && m.status == InProgress && s.stream[m.index].run.status == InProgress)
    && match s.phase
       case Watching => s.finals == []
       case Sending(i) =>
         && s.finals == [] && i <= s.published && s.stream[i].run.status == InProgress
         && forall m :: m in s.heartbeats ==> m.index <= i
       case Reporting(m) => s.workDone && IsFinal(s, m) && forall f :: f in s.finals ==> f == m
       case Gone => s.workDone && s.finals != [] && forall f :: f in s.finals ==> f == s.finals[0] && IsFinal(s, f)
  }

  lemma PublishedStatus(stream: seq<Publication>, i: nat)
    requires Stream(stream) && i < |stream|
    ensures stream[i].run.status in {InProgress, Failed, Succeeded}
  {
    assert Published(stream[i]);
  }

  lemma BeatKeepsAnswers(s: State, answer: Answer)
    requires s.abortRequested <==> AbortAnswered(s)
    ensures AbortAnswered(s.(answers := s.answers + [answer])) <==>
              s.abortRequested || (answer.Accepted? && answer.abort)
  {
    var t := s.(answers := s.answers + [answer]);
    assert t.answers[|s.answers|] == answer;
    assert forall i :: 0 <= i < |s.answers| ==> t.answers[i] == s.answers[i];
  }

  lemma SameAnswers(s: State, t: State)
    ensures s.answers == t.answers ==> AbortAnswered(s) == AbortAnswered(t)
  {
  }

  lemma WorkKeepsInv(s: State, e: Event)
    requires Inv(s) && Enabled(s, e) && (e.Publish? || e.WorkDone? || e.Tick?)
    ensures Inv(Step(s, e))
  {
    hide Stream, AbortAnswered;
    PublishedStatus(s.stream, s.published);
    SameAnswers(s, Step(s, e));
  }

  lemma BeatKeepsInv(s: State, e: Event)
    requires Inv(s) && Enabled(s, e) && e.Beat?
    ensures Inv(Step(s, e))
  {
    hide Stream, AbortAnswered;
    var t := Step(s, e);
    BeatKeepsAnswers(s, e.answer);
    SameAnswers(t, s.(answers := s.answers + [e.answer]));
    assert t.heartbeats == s.heartbeats + [Message(s.phase.index, InProgress)];
    assert forall i :: 0 <= i < |s.heartbeats| ==> s.heartbeats[i] in s.heartbeats;
  }

  lemma FinalKeepsInv(s: State, e: Event)
    requires Inv(s) && Enabled(s, e) && (e.Signal? || e.Attempt?)
    ensures Inv(Step(s, e))
  {
    hide Stream, AbortAnswered;
    SameAnswers(s, Step(s, e));
    assert s.finals != [] ==> s.finals[0] in s.finals;
  }

  lemma StepKeepsInv(s: State, e: Event)
    requires Inv(s) && Enabled(s, e)
    ensures Inv(Step(s, e)) && Step(s, e).stream == s.stream && Step(s, e).async == s.async
  {
    hide Inv;
    assert s.published < |s.stream| && (s.phase.Sending? ==> s.phase.index < |s.stream|) by { InBounds(s); }
    match e
    case Publish | WorkDone | Tick => WorkKeepsInv(s, e);
    case Beat(_) => BeatKeepsInv(s, e);
    case Signal | Attempt(_) => FinalKeepsInv(s, e);
  }

  lemma InBounds(s: State)
    requires Inv(s)
    ensures WellPlaced(s)
  {
  }

  lemma StartIsInv(s: State)
    requires Start(s)
    ensures Inv(s)
  {
  }

  lemma {:induction false} ExecutionKeepsInv(run: seq<State>)
    requires Execution(run)
    ensures Inv(run[|run| - 1]) && run[|run| - 1].stream == run[0].stream && run[|run| - 1].async == run[0].async
  {
    hide Stream, AbortAnswered, Step, Enabled;
    if |run| == 1 {
      StartIsInv(run[0]);
    } else {
      var before := run[..|run| - 1];
      assert forall i :: 0 <= i < |before| - 1 ==> Follow(before[i], before[i + 1]);
      ExecutionKeepsInv(before);
      var s, t := run[|run| - 2], run[|run| - 1];
      assert Follow(s, t);
      var e :| Enabled(s, e) && WellPlaced(s) && t == Step(s, e);
      StepKeepsInv(s, e);
    }
  }

  /** In every execution, meshStack gets IN_PROGRESS heartbeats of published statuses in their
      order, and once the observer is gone one final status, possibly repeated by retries,
      of the last published status. */
  lemma EveryRunEndsWithOneFinalStatus(run: seq<State>)
    requires Execution(run)
    ensures var s := run[|run| - 1];
      && Ordered(s.heartbeats + s.finals)
      && (forall m :: m in s.heartbeats ==>
            m.index < |s.stream| && m.status == InProgress && s.stream[m.index].run.status == InProgress)
      && (s.finals != [] ==> s.workDone)
      && (s.phase == Gone ==> s.finals != [])
      && forall f :: f in s.finals ==>
           && f == s.finals[0] && f.index == |s.stream| - 1
           && (f.status == Aborted <==> AbortAnswered(s))
           && (!AbortAnswered(s) ==>
                 f.status == if s.async && s.stream[f.index].run.status == Succeeded then InProgress
                             else s.stream[f.index].run.status)
           && f.status != Pending
  {
    ExecutionKeepsInv(run);
    hide Stream, AbortAnswered;
    var s := run[|run| - 1];
    PublishedStatus(s.stream, |s.stream| - 1);
    assert forall i :: 0 <= i < |s.heartbeats| ==> s.heartbeats[i] in s.heartbeats;
    assert forall i :: 0 <= i < |s.finals| ==> s.finals[i] in s.finals;
  }

  /** The runs in two messages, in the order they are sent, follow each other: the step pointer
      never goes back, and what a finished step showed stays as it was. */
  lemma SentStatusesFollowEachOther(run: seq<State>, i: nat, j: nat)
    requires Execution(run)
    requires var s := run[|run| - 1]; i <= j < |s.heartbeats + s.finals|
    ensures var s := run[|run| - 1]; var sent := s.heartbeats + s.finals;
      && sent[i].index < |s.stream| && sent[j].index < |s.stream|
      && Follows(s.stream[sent[i].index], s.stream[sent[j].index])
  {
    ExecutionKeepsInv(run);
    EveryRunEndsWithOneFinalStatus(run);
    var s := run[|run| - 1];
    var sent := s.heartbeats + s.finals;
    forall k | k == i || k == j
      ensures sent[k].index < |s.stream|
    {
      assert sent[k] in s.heartbeats || sent[k] in s.finals;
    }
  }

  // ----- what the observer is bound to do -----

  /** The states events lead through from s. */
  ghost predicate Leads(s: State, events: seq<Event>, run: seq<State>) {
    && |run| == |events| + 1 && run[0] == s
    && forall i :: 0 <= i < |events| ==> Enabled(run[i], events[i]) && WellPlaced(run[i]) && run[i + 1] == Step(run[i], events[i])
  }

  /** Until meshStack answers, a heartbeat on its way stays the one it is, whatever the work
      routine publishes meanwhile. */
  lemma {:induction false} AHeartbeatWaits(s: State, events: seq<Event>, run: seq<State>)
    requires Leads(s, events, run) && s.phase.Sending?
    requires forall e :: e in events ==> !e.Beat?
    ensures var t := run[|events|];
      t.phase == s.phase && t.stream == s.stream && t.heartbeats == s.heartbeats && t.answers == s.answers &&
      t.finals == s.finals && t.abortRequested == s.abortRequested
  {
    hide Stream, AbortAnswered;
    if events != [] {
      var n := |events| - 1;
      assert forall e :: e in events[..n] ==> e in events;
      AHeartbeatWaits(s, events[..n], run[..n + 1]);
      assert run[..n + 1][n] == run[n] && events[n] in events;
    }
  }

  /** While the last published status is not terminal, a tick followed by an answer is exactly
      one heartbeat. It carries the status that was last published when the tick fired, and an
      answer that asks for an abort is heeded. */
  lemma ATickSendsAHeartbeat(s: State, events: seq<Event>, run: seq<State>, answer: Answer)
    requires Inv(s) && s.phase == Watching && !Terminal(s.stream[s.published].run.status)
    requires Leads(s, [Tick] + events + [Beat(answer)], run) && forall e :: e in events ==> !e.Beat?
    ensures var t := run[|run| - 1];
      && t.heartbeats == s.heartbeats + [Message(s.published, s.stream[s.published].run.status)]
      && t.answers == s.answers + [answer] && t.phase == Watching && t.finals == s.finals
      && (t.abortRequested <==> s.abortRequested || answer == Accepted(true))
  {
    hide Stream, AbortAnswered, Ordered;
    InBounds(s);
    hide Inv;
    var all := [Tick] + events + [Beat(answer)];
    var n := |events|;
    assert all[0] == Tick && all[n + 1] == Beat(answer) && all[1..n + 1] == events;
    var sent := run[1];
    assert sent == Step(s, Tick);
    forall i | 0 <= i < n
      ensures events[i] == all[i + 1]
    {
    }
    AHeartbeatWaits(sent, events, run[1..n + 2]);
    assert run[1..n + 2][n] == run[n + 1];
    assert run[n + 2] == Step(run[n + 1], all[n + 1]);
  }

  /** In particular right away: the observer can always tick, and be answered. */
  lemma TheObserverCanTick(s: State, answer: Answer)
    requires Inv(s) && s.phase == Watching && !Terminal(s.stream[s.published].run.status)
    ensures Enabled(s, Tick) && WellPlaced(s)
    ensures var sent := Step(s, Tick);
      Enabled(sent, Beat(answer)) && WellPlaced(sent) && Leads(s, [Tick] + [] + [Beat(answer)], [s, sent, Step(sent, Beat(answer))])
  {
  }

  /** Nothing is sent for a terminal status before the work is done. */
  lemma ATickAfterTheEndSendsNothing(s: State)
    requires Inv(s) && s.phase == Watching && Terminal(s.stream[s.published].run.status)
    ensures Step(s, Tick) == s
  {
  }

  /** How far the observer is from having reported, once the work is done. */
  function Remaining(s: State): nat {
    match s.phase
    case Sending(_) => 3
    case Watching => 2
    case Reporting(_) => 1
    case Gone => 0
  }

  /** Once the work is done the observer can always move on to its final status: it waits for
      nobody but meshStack, and every answer that is not transient brings it nearer. */
  lemma TheFinalStatusIsNeverBlocked(s: State, answer: Answer, outcome: Outcome) returns (e: Event)
    requires Inv(s) && s.workDone && s.phase != Gone && outcome != Transient
    ensures Enabled(s, e) && WellPlaced(s) && Remaining(Step(s, e)) < Remaining(s)
    ensures s.phase.Reporting? ==> e == Attempt(outcome) && Step(s, e).finals == s.finals + [s.phase.message]
  {
    e := match s.phase case Sending(_) => Beat(answer) case Watching => Signal case Reporting(_) => Attempt(outcome);
  }

  /** The last status is sent until meshStack answers for good. */
  lemma ATransientFailureIsRetried(s: State)
    requires Inv(s) && s.phase.Reporting?
    ensures Enabled(s, Attempt(Transient)) && WellPlaced(s)
    ensures var t := Step(s, Attempt(Transient)); t.phase == s.phase && t.finals == s.finals + [s.phase.message]
  {
  }

  /** The work routine waits for nobody: it publishes its next status, or is done after the last. */
  lemma TheWorkIsNeverBlocked(s: State) returns (e: Event)
    requires Inv(s) && !s.workDone
    ensures Enabled(s, e) && WellPlaced(s)
    ensures var t := Step(s, e);
      if s.published + 1 < |s.stream| then t.published == s.published + 1 && !t.workDone
      else t.workDone && t.published == s.published
    ensures Step(s, e).phase == s.phase && Step(s, e).stream == s.stream
  {
    e := if s.published + 1 < |s.stream| then Publish else WorkDone;
  }

  /** And no other step takes it back. */
  lemma TheObserverNeverGoesBack(s: State, e: Event)
    requires Inv(s) && s.workDone && Enabled(s, e) && WellPlaced(s)
    ensures Remaining(Step(s, e)) <= Remaining(s) && Step(s, e).workDone
  {
    PublishedStatus(s.stream, s.published);
  }
}
