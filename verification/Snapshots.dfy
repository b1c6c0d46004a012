/** The run status as a plain value: what one status update to meshStack carries,
    and what every published status must look like. */
module Snapshots {

  datatype Option<+T> = None | Some(value: T)

  datatype Status = Pending | InProgress | Succeeded | Failed | Aborted

  predicate Terminal(s: Status) {
    s == Succeeded || s == Failed || s == Aborted
  }

  datatype Output = Output(value: string, kind: string, sensitive: bool)

  datatype Step = Step(
    name: string,
    status: Status,
    outputs: map<string, Output>,
    userMessage: Option<string>,
    systemMessage: Option<string>,
    logStart: nat)

  datatype Run = Run(
    runId: string,
    status: Status,
    steps: seq<Step>,
    current: int,
    summary: Option<string>,
    changesDetected: Option<bool>)

  /** A status published by the run, together with the update log the run had accepted
      by then. `lossy` says that some read of the log file had already failed. */
  datatype Publication = Publication(run: Run, log: string, lossy: bool)

  // ----- what one published status looks like -----

  /** The steps split at the current one: finished before it, and after it whatever the
      run status says. */
  ghost predicate Shaped(r: Run) {
    if r.steps == [] then r.status == InProgress || r.status == Failed
    else
      && 0 <= r.current < |r.steps|
      && (forall i :: 0 <= i < r.current ==> r.steps[i].status == Succeeded)
      && match r.status
         case InProgress =>
           && (r.steps[r.current].status == InProgress || (r.current == 0 && r.steps[0].status == Pending))
           && (forall i :: r.current < i < |r.steps| ==> r.steps[i].status == Pending && r.steps[i].systemMessage == None)
         case Failed => forall i :: r.current <= i < |r.steps| ==> r.steps[i].status == Failed
         case Succeeded => forall i :: 0 <= i < |r.steps| ==> r.steps[i].status == Succeeded
         case _ => false
  }

  /** Where the part of the log that belongs to step i ends. */
  function SliceEnd(r: Run, logSize: nat, i: nat): nat
    requires i < |r.steps|
  {
    if i < r.current && i + 1 < |r.steps| then r.steps[i + 1].logStart else logSize
  }

  /** Steps 0..current cut the log into consecutive slices. */
  ghost predicate Cuts(r: Run, logSize: nat) {
    0 <= r.current < |r.steps| ==>
      && r.steps[0].logStart == 0
      && r.steps[r.current].logStart <= logSize
      && (forall i, j :: 0 <= i <= j <= r.current ==> r.steps[i].logStart <= r.steps[j].logStart)
  }

  function MessageText(s: Step): string {
    if s.systemMessage.None? then "" else s.systemMessage.value
  }

  /** Step i shows its slice of the log; after a failed read it may show nothing instead. */
  ghost predicate ShowsSlice(r: Run, log: string, lossy: bool, i: nat)
    requires i < |r.steps| && r.steps[i].logStart <= SliceEnd(r, |log|, i) <= |log|
  {
    || MessageText(r.steps[i]) == log[r.steps[i].logStart..SliceEnd(r, |log|, i)]
    || (lossy && MessageText(r.steps[i]) == "")
  }

  ghost predicate ShowsLog(p: Publication) {
    && Cuts(p.run, |p.log|)
    && (0 <= p.run.current < |p.run.steps| ==>
          forall i :: 0 <= i <= p.run.current ==> ShowsSlice(p.run, p.log, p.lossy, i))
  }

  ghost predicate Published(p: Publication) {
    Shaped(p.run) && ShowsLog(p)
  }

  // ----- how one published status follows another -----

  /** b may follow a: the pointer never goes back, finished steps are frozen as they are,
      and neither a terminal step status nor a terminal run status changes. */
  ghost predicate Follows(a: Publication, b: Publication) {
    && a.run.runId == b.run.runId
    && a.log <= b.log
    && (a.lossy ==> b.lossy)
    && (Terminal(a.run.status) ==> b.run.status == a.run.status)
    && (a.run.steps != [] ==>
          && |a.run.steps| == |b.run.steps|
          && a.run.current <= b.run.current
          && (forall i :: 0 <= i < |a.run.steps| ==>
                && a.run.steps[i].name == b.run.steps[i].name
                && (Terminal(a.run.steps[i].status) ==> b.run.steps[i].status == a.run.steps[i].status)
                && (i < a.run.current ==> b.run.steps[i] == a.run.steps[i])))
  }

  /** The whole stream of statuses one run publishes. */
  ghost predicate Stream(h: seq<Publication>) {
    && h != []
    && (forall i :: 0 <= i < |h| ==> Published(h[i]))
    && (forall i, j :: 0 <= i <= j < |h| ==> Follows(h[i], h[j]))
  }

  lemma FollowsIsTransitive(a: Publication, b: Publication, c: Publication)
    requires Follows(a, b) && Follows(b, c)
    ensures Follows(a, c)
  {
  }

  /** Publishing one more status keeps the stream in order as soon as it follows the last one. */
  lemma ExtendStream(h: seq<Publication>, p: Publication)
    requires Stream(h) && Published(p) && Follows(h[|h| - 1], p)
    ensures Stream(h + [p])
  {
    var k := h + [p];
    forall i, j | 0 <= i <= j < |k|
      ensures Follows(k[i], k[j])
    {
      if j == |h| && i < |h| {
        FollowsIsTransitive(h[i], h[|h| - 1], p);
      }
    }
  }

  // ----- the steps partition the log -----

  /** What a reader sees who puts the messages of steps 0..n-1 one after the other. */
  function Joined(steps: seq<Step>): string {
    if steps == [] then "" else Joined(steps[..|steps| - 1]) + MessageText(steps[|steps| - 1])
  }

  lemma {:induction false} JoinedPrefix(p: Publication, n: nat)
    requires ShowsLog(p) && !p.lossy && n <= p.run.current < |p.run.steps|
    ensures Joined(p.run.steps[..n]) == p.log[..p.run.steps[n].logStart]
  {
    if n > 0 {
      var before := p.run.steps[..n];
      JoinedPrefix(p, n - 1);
      assert before[..n - 1] == p.run.steps[..n - 1];
      assert ShowsSlice(p.run, p.log, p.lossy, n - 1);
      var a, b := p.run.steps[n - 1].logStart, p.run.steps[n].logStart;
      assert SliceEnd(p.run, |p.log|, n - 1) == b;
      assert p.log[..a] + p.log[a..b] == p.log[..b];
    }
  }

  /** Unless a read of the log file failed, the system messages up to the current step are
      exactly the accepted update log: no gap and no overlap. */
  lemma MessagesPartitionTheLog(p: Publication)
    requires Published(p) && !p.lossy && p.run.steps != []
    ensures Joined(p.run.steps[..p.run.current + 1]) == p.log
  {
    var c := p.run.current;
    JoinedPrefix(p, c);
    var upTo := p.run.steps[..c + 1];
    assert upTo[..c] == p.run.steps[..c];
    assert ShowsSlice(p.run, p.log, p.lossy, c);
    assert SliceEnd(p.run, |p.log|, c) == |p.log|;
    var a := p.run.steps[c].logStart;
    assert p.log[..a] + p.log[a..] == p.log;
  }
}
