/** The step machine of one run as a function of its state: what each operation of the
    generic Terraform command does to the live status, the log file and the published stream. */
module StepMachine {
  import opened Snapshots

  /** How the disk answers: whether the n-th read of the log file succeeds, and how the n-th
      write to it ends. A failed write may leave any part of its text behind. */
  datatype WriteResult = Complete | Short(kept: nat)
  datatype Disk = Disk(readable: nat -> bool, write: nat -> WriteResult)

  /** `accepted` is every completely written text, one after the other; `torn` says that one of
      them was appended to the remains of a failed write. */
  datatype Lifecycle = Lifecycle(
    run: Run,
    file: string,
    logSize: nat,
    accepted: string,
    torn: bool,
    readCount: nat,
    writeCount: nat,
    lossy: bool,
    publishing: bool,  // tofu's output publishes the status
    async: bool,
    stream: seq<Publication>)

  /** Why the context of a command ended, with the sentence the run log gets. */
  datatype Context = Live | DeadlineExceeded(notice: string) | Cancelled(notice: string)

  function HasCurrent(r: Run): bool {
    0 <= r.current < |r.steps|
  }

  function WithCurrent(r: Run, s: Step): Run
    requires HasCurrent(r)
  {
    r.(steps := r.steps[r.current := s])
  }

  function PendingSteps(names: seq<string>): seq<Step> {
    seq(|names|, i requires 0 <= i < |names| => Step(names[i], Pending, map[], None, None, 0))
  }

  // ----- RunStatus -----

  const ABORTED_MESSAGE := "Aborted due to failure in an earlier step"

  function FailedStep(s: Step, i: nat, current: int): Step {
    if i < current then s
    else if i == current then s.(status := Failed)
    else s.(status := Failed, systemMessage := Some(ABORTED_MESSAGE))
  }

  function FailRun(r: Run): (f: Run)
    ensures forall file, logSize :: Fits(r, file, logSize) ==> Fits(f, file, logSize)
  {
    r.(status := Failed, steps := seq(|r.steps|, i requires 0 <= i < |r.steps| => FailedStep(r.steps[i], i, r.current)))
  }

  // ----- log and publication -----

  function Publish(l: Lifecycle): Lifecycle {
    l.(stream := l.stream + [Publication(l.run, l.file[..Min(l.logSize, |l.file|)], l.lossy)])
  }

  function Min(a: nat, b: nat): nat {
    if a < b then a else b
  }

  function SetMessage(l: Lifecycle, disk: Disk, userMessage: Option<string>): (r: Lifecycle)
    requires InRange(l)
    ensures InRange(r)
  {
    if !HasCurrent(l.run) then l else
    var s := l.run.steps[l.run.current];
    var text := if disk.readable(l.readCount) then l.file[s.logStart..l.logSize] else "";
    var shown := s.(userMessage := if userMessage.Some? then userMessage else s.userMessage,
                    systemMessage := Some(text));
    l.(run := WithCurrent(l.run, shown), readCount := l.readCount + 1, lossy := l.lossy || !disk.readable(l.readCount))
  }

  /** The slice a step message is cut from never leaves the file; the pointer is at worst before the first step. */
  ghost predicate InRange(l: Lifecycle) {
    Fits(l.run, l.file, l.logSize)
  }

  ghost predicate Fits(r: Run, file: string, logSize: nat) {
    && -1 <= r.current
    && logSize <= |file|
    && (forall i :: 0 <= i < |r.steps| ==> r.steps[i].logStart <= logSize)
  }

  function Append(l: Lifecycle, disk: Disk, text: string): Lifecycle {
    match disk.write(l.writeCount)
    case Complete => l.(file := l.file + text, logSize := l.logSize + |text|, writeCount := l.writeCount + 1,
                        accepted := l.accepted + text, torn := l.torn || l.logSize < |l.file|)
    case Short(kept) => l.(file := l.file + text[..Min(kept, |text|)], writeCount := l.writeCount + 1)
  }

  function Write(l: Lifecycle, disk: Disk, text: string): (r: Lifecycle)
    requires InRange(l)
    ensures InRange(r)
  {
    var l1 := Append(l, disk, text);
    if disk.write(l.writeCount).Complete? && l.publishing then Publish(SetMessage(l1, disk, None)) else l1
  }

  function WriteAll(l: Lifecycle, disk: Disk, texts: seq<string>): (r: Lifecycle)
    requires InRange(l)
    ensures InRange(r)
    decreases |texts|
  {
    if texts == [] then l else WriteAll(Write(l, disk, texts[0]), disk, texts[1..])
  }

  /** The failed registration: the run never starts, so only what is reported changes. */
  function ReportFailed(l: Lifecycle): Lifecycle
    requires l.stream != []
  {
    var last := l.stream[|l.stream| - 1];
    l.(stream := l.stream + [last.(run := last.run.(status := Failed))])
  }

  function SetStatus(l: Lifecycle, status: Status): (r: Lifecycle)
    ensures InRange(l) ==> InRange(r)
  {
    if HasCurrent(l.run) then l.(run := WithCurrent(l.run, l.run.steps[l.run.current].(status := status))) else l
  }

  // ----- step transitions -----

  function EnterNext(l: Lifecycle): Lifecycle
    requires -1 <= l.run.current
  {
    var n := l.run.current + 1;
    if n < |l.run.steps|
    then l.(run := l.run.(current := n, steps := l.run.steps[n :=
                            l.run.steps[n].(status := InProgress, logStart := l.logSize)]))
    else l
  }

  function NextStep(l: Lifecycle): (r: Lifecycle)
    requires InRange(l)
    ensures InRange(r)
  {
    if l.async then l else EnterNext(SetStatus(l, Succeeded))
  }

  function StartRun(l: Lifecycle): Lifecycle {
    var first := if l.run.steps == [] then l.run else l.run.(current := 0);
    Publish(l.(run := first.(status := InProgress)))
  }

  function AdvanceStep(l: Lifecycle, disk: Disk, userMessage: Option<string>): Lifecycle
    requires InRange(l)
  {
    Publish(NextStep(SetMessage(l, disk, userMessage)))
  }

  function CompleteRun(l: Lifecycle, disk: Disk, userMessage: Option<string>): Lifecycle
    requires InRange(l)
  {
    var done := SetStatus(SetMessage(l, disk, userMessage), Succeeded);
    Publish(done.(run := done.run.(status := Succeeded)))
  }

  const EXIT_STATUS := "exit status "

  function UserFacing(error: string): string {
    if EXIT_STATUS <= error
    then "command failed (" + error + ") \U{2014} check the step logs above for error details."
    else error
  }

  /** The sentence that explains the failure to the user, and the log lines that go with it. */
  function Explanation(error: string, context: Context): string {
    if context.Live? then UserFacing(error) else context.notice
  }

  function FailureLines(error: string, context: Context): seq<string> {
    [UserFacing(error) + "\n"] + if context.Live? then [] else [context.notice + "\n"]
  }

  function FailWith(l: Lifecycle, disk: Disk, error: string, context: Context, overrideMessage: Option<string>): Lifecycle
    requires InRange(l)
  {
    var failed := l.(run := FailRun(l.run));
    var shown := HasCurrent(failed.run);
    var logged := if shown then WriteAll(failed, disk, FailureLines(error, context)) else failed;
    var message := if !shown then None
                   else if overrideMessage.Some? then overrideMessage else Some(Explanation(error, context));
    Publish(SetMessage(logged, disk, message))
  }

  function CollectOutputs(l: Lifecycle, outputs: map<string, Output>): Lifecycle {
    if HasCurrent(l.run) then l.(run := WithCurrent(l.run, l.run.steps[l.run.current].(outputs := outputs))) else l
  }

  // ----- the invariant -----

  /** The live status could be published as soon as the message of its current step is refreshed. */
  ghost predicate Sound(l: Lifecycle) {
    InRange(l) && Steady(l.run, Log(l), l.lossy, l.async)
  }

  ghost predicate Steady(r: Run, log: string, lossy: bool, async: bool) {
    && r.steps != []
    && Shaped(r)
    && (async ==> |r.steps| == 1)
    && Cuts(r, |log|)
    && SlicesUpTo(r, log, lossy, r.current)
  }

  ghost predicate SlicesUpTo(r: Run, log: string, lossy: bool, n: int)
    requires Cuts(r, |log|) && HasCurrent(r) && n <= r.current + 1
  {
    forall i :: 0 <= i < n ==> ShowsSlice(r, log, lossy, i)
  }

  /** The message of the current step is up to date as well. */
  ghost predicate Refreshed(l: Lifecycle) {
    Sound(l) && SlicesUpTo(l.run, Log(l), l.lossy, l.run.current + 1)
  }

  /** What holds between any two operations: the published stream is in order, and the live
      status follows everything published before. */
  ghost predicate Inv(l: Lifecycle) {
    Sound(l) && Whole(l) && Stream(l.stream) && Follows(Last(l), Now(l))
  }

  /** The log is as long as the accepted texts, and unless it is torn it is them. */
  ghost predicate Whole(l: Lifecycle) {
    && l.logSize == |l.accepted| <= |l.file|
    && (!l.torn ==> Log(l) == l.accepted)
  }

  function Log(l: Lifecycle): string
    requires l.logSize <= |l.file|
  {
    l.file[..l.logSize]
  }

  function Now(l: Lifecycle): Publication
    requires l.logSize <= |l.file|
  {
    Publication(l.run, Log(l), l.lossy)
  }

  function Last(l: Lifecycle): Publication
    requires l.stream != []
  {
    l.stream[|l.stream| - 1]
  }

  /** The terminal status of the run is published, and with it everything that was logged. */
  ghost predicate Ended(l: Lifecycle) {
    Inv(l) && Terminal(l.run.status) && Last(l) == Now(l)
  }

  ghost predicate Working(l: Lifecycle) {
    Inv(l) && l.run.status == InProgress
  }

  /** r is a later state of l that has published nothing new. */
  lemma Proceed(l: Lifecycle, r: Lifecycle)
    requires Inv(l) && Sound(r) && Whole(r) && r.stream == l.stream && Follows(Now(l), Now(r))
    ensures Inv(r)
  {
    FollowsIsTransitive(Last(l), Now(l), Now(r));
  }

  lemma PublishKeepsInv(l: Lifecycle)
    requires Inv(l) && Refreshed(l)
    ensures Inv(Publish(l)) && Last(Publish(l)) == Now(l)
  {
    ExtendStream(l.stream, Now(l));
    assert Publish(l).stream == l.stream + [Now(l)];
  }

  // ----- messages and the log -----

  /** b differs from a only in what the current step shows: its messages and outputs. */
  ghost predicate Redecorated(a: Run, b: Run) {
    && HasCurrent(a)
    && b == a.(steps := b.steps, changesDetected := b.changesDetected)
    && |a.steps| == |b.steps|
    && b.steps[a.current] == a.steps[a.current].(
         outputs := b.steps[a.current].outputs,
         userMessage := b.steps[a.current].userMessage,
         systemMessage := b.steps[a.current].systemMessage)
    && forall i :: 0 <= i < |a.steps| && i != a.current ==> b.steps[i] == a.steps[i]
  }

  /** Slices stay right as long as the messages, the cuts and the log up to them stay. */
  lemma SlicesAreKept(a: Run, logA: string, lossyA: bool, b: Run, logB: string, lossyB: bool, n: int)
    requires HasCurrent(a) && Cuts(a, |logA|) && n <= a.current + 1 && SlicesUpTo(a, logA, lossyA, n)
    requires HasCurrent(b) && Cuts(b, |logB|) && n <= b.current + 1
    requires logA <= logB && (lossyA ==> lossyB)
    requires forall i {:trigger SliceEnd(b, |logB|, i)} :: 0 <= i < n ==>
      && b.steps[i].systemMessage == a.steps[i].systemMessage && b.steps[i].logStart == a.steps[i].logStart
      && SliceEnd(b, |logB|, i) == SliceEnd(a, |logA|, i)
    ensures SlicesUpTo(b, logB, lossyB, n)
  {
    forall i | 0 <= i < n
      ensures ShowsSlice(b, logB, lossyB, i)
    {
      assert ShowsSlice(a, logA, lossyA, i);
      var x, y := a.steps[i].logStart, SliceEnd(a, |logA|, i);
      assert logA[x..y] == logB[x..y];
    }
  }

  lemma RedecoratingIsSound(l: Lifecycle, r: Lifecycle)
    requires Sound(l) && Redecorated(l.run, r.run)
    requires r.file == l.file && r.logSize == l.logSize && r.async == l.async && (l.lossy ==> r.lossy)
    ensures Sound(r) && Follows(Now(l), Now(r))
  {
    assert Shaped(r.run) && Cuts(r.run, |Log(r)|);
    SlicesAreKept(l.run, Log(l), l.lossy, r.run, Log(r), r.lossy, l.run.current);
  }

  lemma SetMessageIsSound(l: Lifecycle, disk: Disk, m: Option<string>)
    requires Sound(l)
    ensures var r := SetMessage(l, disk, m); Refreshed(r) && Follows(Now(l), Now(r))
  {
    var r := SetMessage(l, disk, m);
    assert Redecorated(l.run, r.run);
    RedecoratingIsSound(l, r);
    var a := l.run.steps[l.run.current].logStart;
    assert SliceEnd(r.run, r.logSize, r.run.current) == r.logSize;
    assert Log(l)[a..l.logSize] == l.file[a..l.logSize];
    assert ShowsSlice(r.run, Log(r), r.lossy, r.run.current);
  }

  lemma SetMessageKeepsInv(l: Lifecycle, disk: Disk, m: Option<string>)
    requires Inv(l)
    ensures Inv(SetMessage(l, disk, m)) && Refreshed(SetMessage(l, disk, m))
  {
    SetMessageIsSound(l, disk, m);
    Proceed(l, SetMessage(l, disk, m));
  }

  lemma AppendIsSound(l: Lifecycle, disk: Disk, text: string)
    requires Sound(l)
    ensures var r := Append(l, disk, text); Sound(r) && Follows(Now(l), Now(r))
  {
    var r := Append(l, disk, text);
    assert Log(l) <= Log(r);
    assert Cuts(r.run, |Log(r)|);
    SlicesAreKept(l.run, Log(l), l.lossy, r.run, Log(r), r.lossy, l.run.current);
  }

  lemma AppendStaysWhole(l: Lifecycle, disk: Disk, text: string)
    requires Whole(l)
    ensures Whole(Append(l, disk, text))
  {
  }

  lemma WriteKeepsInv(l: Lifecycle, disk: Disk, text: string)
    requires Inv(l)
    ensures Inv(Write(l, disk, text))
    ensures l.stream <= Write(l, disk, text).stream
  {
    var l1 := Append(l, disk, text);
    AppendIsSound(l, disk, text);
    AppendStaysWhole(l, disk, text);
    Proceed(l, l1);
    SetMessageKeepsInv(l1, disk, None);
    PublishKeepsInv(SetMessage(l1, disk, None));
  }

  lemma {:induction false} WriteAllKeepsInv(l: Lifecycle, disk: Disk, texts: seq<string>)
    requires Inv(l)
    ensures var r := WriteAll(l, disk, texts);
      Inv(r) && l.stream <= r.stream && r.run.status == l.run.status && r.run.current == l.run.current &&
      r.async == l.async && r.publishing == l.publishing && |r.run.steps| == |l.run.steps|
    decreases |texts|
  {
    hide Stream, Steady, Follows;
    if texts != [] {
      WriteKeepsInv(l, disk, texts[0]);
      WriteAllKeepsInv(Write(l, disk, texts[0]), disk, texts[1..]);
    }
  }

  lemma WriteNothing(l: Lifecycle, disk: Disk)
    requires InRange(l)
    ensures WriteAll(l, disk, []) == l
  {
  }

  /** What a run has found out so far stays: the outputs of its steps, whether there are changes,
      and all of the steps that are not current. */
  ghost predicate SameResults(a: Run, b: Run) {
    && b.current == a.current && b.changesDetected == a.changesDetected && |b.steps| == |a.steps|
    && (forall i :: 0 <= i < |a.steps| ==> b.steps[i].outputs == a.steps[i].outputs)
    && (forall i :: 0 <= i < |a.steps| && i != a.current ==> b.steps[i] == a.steps[i])
  }

  ghost predicate ReportsOutputs(r: Run, outputs: map<string, Output>) {
    HasCurrent(r) && r.steps[r.current].outputs == outputs
  }

  lemma {:induction false} WritingKeepsResults(l: Lifecycle, disk: Disk, texts: seq<string>)
    requires InRange(l)
    ensures SameResults(l.run, WriteAll(l, disk, texts).run)
    decreases |texts|
  {
    if texts != [] {
      WritingKeepsResults(Write(l, disk, texts[0]), disk, texts[1..]);
    }
  }

  lemma CompletingKeepsResults(l: Lifecycle, disk: Disk, m: Option<string>)
    requires InRange(l)
    ensures SameResults(l.run, CompleteRun(l, disk, m).run)
  {
  }

  lemma CollectOutputsKeepsInv(l: Lifecycle, outputs: map<string, Output>)
    requires Inv(l)
    ensures Inv(CollectOutputs(l, outputs))
  {
    var r := CollectOutputs(l, outputs);
    RedecoratingIsSound(l, r);
    Proceed(l, r);
  }

  lemma ChangesDetectedKeepsInv(l: Lifecycle, changes: bool)
    requires Inv(l)
    ensures Inv(l.(run := l.run.(changesDetected := Some(changes))))
  {
    var r := l.(run := l.run.(changesDetected := Some(changes)));
    RedecoratingIsSound(l, r);
    Proceed(l, r);
  }

  // ----- what is published on the way -----

  /** Every step up to number c has been published as the current one of a run in progress. */
  ghost predicate Visited(stream: seq<Publication>, c: int) {
    forall k :: 0 <= k <= c ==> ShownAt(stream, k)
  }

  ghost predicate ShownAt(stream: seq<Publication>, k: int) {
    exists i :: 0 <= i < |stream| && stream[i].run.steps != [] && stream[i].run.current == k && stream[i].run.status == InProgress
  }

  lemma VisitedStays(stream: seq<Publication>, later: seq<Publication>, c: int)
    requires Visited(stream, c) && stream <= later
    ensures Visited(later, c)
  {
    forall k | 0 <= k <= c
      ensures ShownAt(later, k)
    {
      assert ShownAt(stream, k);
      var i :| 0 <= i < |stream| && stream[i].run.steps != [] && stream[i].run.current == k && stream[i].run.status == InProgress;
      assert later[i] == stream[i];
    }
  }

  lemma VisitedNext(stream: seq<Publication>, c: int, p: Publication)
    requires Visited(stream, c) && p.run.steps != [] && (p.run.current == c || p.run.current == c + 1) && p.run.status == InProgress
    ensures Visited(stream + [p], p.run.current)
  {
    VisitedStays(stream, stream + [p], c);
    assert (stream + [p])[|stream|] == p;
    assert ShownAt(stream + [p], p.run.current);
  }

  /** A completely written text is published at once, with the message of the current step cut
      anew, if tofu's output publishes; otherwise nothing is. */
  lemma AWriteIsPublished(l: Lifecycle, disk: Disk, text: string)
    requires Inv(l)
    ensures var r := Write(l, disk, text);
      && r.publishing == l.publishing && r.writeCount == l.writeCount + 1
      && if disk.write(l.writeCount).Complete? && l.publishing
         then r.stream == l.stream + [Now(r)] && Refreshed(r)
         else r.stream == l.stream
  {
    AppendIsSound(l, disk, text);
    SetMessageIsSound(Append(l, disk, text), disk, None);
  }

  function CompleteWrites(disk: Disk, n: nat, count: nat): nat
    decreases count
  {
    if count == 0 then 0 else (if disk.write(n).Complete? then 1 else 0) + CompleteWrites(disk, n + 1, count - 1)
  }

  /** While tofu's output publishes, there is a publication for every line that gets written. */
  lemma {:induction false} EveryLineIsPublished(l: Lifecycle, disk: Disk, texts: seq<string>)
    requires Inv(l)
    ensures var r := WriteAll(l, disk, texts);
      && r.publishing == l.publishing
      && |r.stream| == |l.stream| + if l.publishing then CompleteWrites(disk, l.writeCount, |texts|) else 0
    decreases |texts|
  {
    hide Stream, Steady, Follows, SetMessage;
    if texts != [] {
      AWriteIsPublished(l, disk, texts[0]);
      WriteKeepsInv(l, disk, texts[0]);
      EveryLineIsPublished(Write(l, disk, texts[0]), disk, texts[1..]);
    }
  }

  // ----- moving from step to step -----

  function Initial(runId: string, async: bool): Lifecycle {
    var r := Run(runId, InProgress, [], -1, None, None);
    Lifecycle(r, "", 0, "", false, 0, 0, false, false, async, [Publication(r, "", false)])
  }

  /** A freshly initialised run: only its bare IN_PROGRESS status has been published. */
  ghost predicate Prepared(l: Lifecycle) {
    && l.run.status == InProgress && l.run.current == 0 && l.run.steps != []
    && (forall i :: 0 <= i < |l.run.steps| ==>
          l.run.steps[i].status == Pending && l.run.steps[i].systemMessage == None && l.run.steps[i].logStart == 0)
    && (l.async ==> |l.run.steps| == 1)
    && l.file == "" && l.logSize == 0 && l.accepted == "" && l.writeCount == 0 && !l.publishing
    && |l.stream| == 1
    && Last(l) == Publication(l.run.(steps := [], current := -1, summary := None, changesDetected := None), "", false)
  }

  lemma StartRunEstablishesInv(l: Lifecycle)
    requires Prepared(l)
    ensures Working(StartRun(l)) && StartRun(l).stream == l.stream + [Now(StartRun(l))]
    ensures StartRun(l).run.current == 0 && Visited(StartRun(l).stream, 0) && StartRun(l).publishing == l.publishing
  {
    assert Stream(l.stream);
    assert Sound(l) && Refreshed(l);
    assert StartRun(l) == Publish(l) by { assert l.run.(current := 0).(status := InProgress) == l.run; }
    PublishKeepsInv(l);
    VisitedNext(l.stream, -1, Now(l));
  }

  /** b is a moved on by one step at a point where the log is logSize long. */
  ghost predicate Moved(a: Run, b: Run, logSize: nat) {
    && b == a.(current := a.current + 1, steps := b.steps)
    && |b.steps| == |a.steps| && 0 <= a.current < |a.steps| - 1
    && b.steps[a.current] == a.steps[a.current].(status := Succeeded)
    && b.steps[a.current + 1] == a.steps[a.current + 1].(status := InProgress, logStart := logSize)
    && forall i :: 0 <= i < |a.steps| && i != a.current && i != a.current + 1 ==> b.steps[i] == a.steps[i]
  }

  lemma MovingKeepsShape(a: Run, b: Run, logSize: nat)
    requires Shaped(a) && Cuts(a, logSize) && a.status == InProgress && Moved(a, b, logSize)
    ensures Shaped(b) && Cuts(b, logSize)
    ensures forall i {:trigger SliceEnd(b, logSize, i)} :: 0 <= i <= a.current ==> SliceEnd(b, logSize, i) == SliceEnd(a, logSize, i)
  {
  }

  lemma MovingFollows(a: Run, b: Run, log: string, lossy: bool)
    requires Shaped(a) && a.status == InProgress && Moved(a, b, |log|)
    ensures Follows(Publication(a, log, lossy), Publication(b, log, lossy))
  {
  }

  lemma NextStepMoves(l: Lifecycle)
    requires InRange(l) && 0 <= l.run.current && l.run.current + 1 < |l.run.steps| && !l.async
    ensures NextStep(l) == l.(run := NextStep(l).run) && Moved(l.run, NextStep(l).run, l.logSize)
  {
  }

  lemma NextStepIsSound(l: Lifecycle)
    requires Refreshed(l) && l.run.status == InProgress && l.run.current + 1 < |l.run.steps| && !l.async
    ensures var r := NextStep(l); Refreshed(r) && Follows(Now(l), Now(r))
  {
    var r := NextStep(l);
    NextStepMoves(l);
    MovingKeepsShape(l.run, r.run, l.logSize);
    MovingFollows(l.run, r.run, Log(l), l.lossy);
    SlicesAreKept(l.run, Log(l), l.lossy, r.run, Log(r), r.lossy, l.run.current + 1);
    assert ShowsSlice(r.run, Log(r), r.lossy, r.run.current);
  }

  lemma SoundHasCurrent(l: Lifecycle)
    requires Sound(l)
    ensures HasCurrent(l.run) && InRange(l)
  {
  }

  lemma AdvanceStepKeepsInv(l: Lifecycle, disk: Disk, m: Option<string>)
    requires Working(l) && (l.async || l.run.current + 1 < |l.run.steps|)
    ensures var r := AdvanceStep(l, disk, m);
      && Working(r) && |r.run.steps| == |l.run.steps| && r.async == l.async && r.publishing == l.publishing
      && r.run.current == (if l.async then l.run.current else l.run.current + 1)
      && r.stream == l.stream + [Now(r)] && Refreshed(r)
      && (!l.async ==> r.run.steps[l.run.current].status == Succeeded && r.run.steps[r.run.current].status == InProgress)
      && (Visited(l.stream, l.run.current) ==> Visited(r.stream, r.run.current))
  {
    SoundHasCurrent(l);
    hide Stream, Steady, Follows, Visited;
    var l1 := SetMessage(l, disk, m);
    SetMessageKeepsInv(l, disk, m);
    if !l.async {
      NextStepIsSound(l1);
      Proceed(l1, NextStep(l1));
      NextStepMoves(l1);
    }
    PublishKeepsInv(NextStep(l1));
    if Visited(l.stream, l.run.current) {
      VisitedNext(l.stream, l.run.current, Now(NextStep(l1)));
    }
  }

  /** The message given to a step forward stands in the step that is left. */
  lemma AdvancingShows(l: Lifecycle, disk: Disk, m: Option<string>)
    requires InRange(l) && !l.async && 0 <= l.run.current && l.run.current + 1 < |l.run.steps| && m.Some?
    ensures var r := AdvanceStep(l, disk, m).run; |r.steps| == |l.run.steps| && r.steps[l.run.current].userMessage == m
  {
  }

  lemma CompletingIsSound(l: Lifecycle)
    requires Refreshed(l) && l.run.status == InProgress && l.run.current + 1 == |l.run.steps|
    ensures var done := SetStatus(l, Succeeded); var r := done.(run := done.run.(status := Succeeded));
      Refreshed(r) && Follows(Now(l), Now(r))
  {
    var done := SetStatus(l, Succeeded);
    var r := done.(run := done.run.(status := Succeeded));
    assert Shaped(r.run) && Cuts(r.run, |Log(r)|);
    SlicesAreKept(l.run, Log(l), l.lossy, r.run, Log(r), r.lossy, l.run.current + 1);
  }

  lemma CompleteRunEnds(l: Lifecycle, disk: Disk, m: Option<string>)
    requires Working(l) && l.run.current + 1 == |l.run.steps|
    ensures var r := CompleteRun(l, disk, m);
      Ended(r) && r.run.status == Succeeded && l.stream <= r.stream && r.run.current == l.run.current
  {
    var l1 := SetMessage(l, disk, m);
    SetMessageKeepsInv(l, disk, m);
    CompletingIsSound(l1);
    var done := SetStatus(l1, Succeeded);
    var l2 := done.(run := done.run.(status := Succeeded));
    Proceed(l1, l2);
    PublishKeepsInv(l2);
  }

  lemma FailingKeepsShape(r: Run, logSize: nat)
    requires Shaped(r) && r.steps != [] && Cuts(r, logSize) && r.status == InProgress
    ensures Shaped(FailRun(r)) && Cuts(FailRun(r), logSize)
    ensures forall i {:trigger SliceEnd(FailRun(r), logSize, i)} :: 0 <= i <= r.current ==>
      SliceEnd(FailRun(r), logSize, i) == SliceEnd(r, logSize, i)
  {
  }

  lemma FailingFollows(r: Run, log: string, lossy: bool)
    requires Shaped(r) && r.steps != [] && r.status == InProgress
    ensures Follows(Publication(r, log, lossy), Publication(FailRun(r), log, lossy))
  {
  }

  lemma FailRunIsSound(l: Lifecycle)
    requires Sound(l) && l.run.status == InProgress
    ensures var r := l.(run := FailRun(l.run)); Sound(r) && Follows(Now(l), Now(r))
  {
    var r := l.(run := FailRun(l.run));
    FailingKeepsShape(l.run, l.logSize);
    FailingFollows(l.run, Log(l), l.lossy);
    SlicesAreKept(l.run, Log(l), l.lossy, r.run, Log(r), r.lossy, l.run.current);
  }

  lemma FailWithEnds(l: Lifecycle, disk: Disk, error: string, context: Context, override: Option<string>)
    requires Working(l)
    ensures var r := FailWith(l, disk, error, context, override);
      Ended(r) && r.run.status == Failed && l.stream <= r.stream && r.run.current == l.run.current
  {
    var failed := l.(run := FailRun(l.run));
    FailRunIsSound(l);
    Proceed(l, failed);
    WriteAllKeepsInv(failed, disk, FailureLines(error, context));
    var logged := WriteAll(failed, disk, FailureLines(error, context));
    var m := if override.Some? then override else Some(Explanation(error, context));
    SetMessageKeepsInv(logged, disk, m);
    PublishKeepsInv(SetMessage(logged, disk, m));
  }

  lemma ReportFailedEnds(l: Lifecycle)
    requires Prepared(l)
    ensures Stream(ReportFailed(l).stream) && Last(ReportFailed(l)).run.status == Failed
  {
    assert Stream(l.stream);
    ExtendStream(l.stream, Last(ReportFailed(l)));
  }

  /** As long as the run works, only IN_PROGRESS has ever been published. */
  lemma NothingTerminalBefore(l: Lifecycle)
    requires Working(l)
    ensures forall i :: 0 <= i < |l.stream| ==> l.stream[i].run.status == InProgress
  {
    forall i | 0 <= i < |l.stream|
      ensures l.stream[i].run.status == InProgress
    {
      assert Follows(l.stream[i], Last(l)) && Published(l.stream[i]);
    }
  }

  /** A run that ended in failure has never published a success. */
  lemma NoSuccessBeforeFailure(l: Lifecycle)
    requires Ended(l) && l.run.status == Failed
    ensures forall p :: p in l.stream ==> p.run.status != Succeeded
  {
    forall i | 0 <= i < |l.stream|
      ensures l.stream[i].run.status != Succeeded
    {
      assert Follows(l.stream[i], Last(l));
    }
  }
}
