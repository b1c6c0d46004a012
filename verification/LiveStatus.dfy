/** The status objects of one run as they live in memory: the status the run keeps changing,
    and the copies it publishes for the observer. */
module LiveStatus {
  import opened Snapshots
  import opened StepMachine
  import opened Trace

  class StepStatus {
    ghost const position: nat  // which step of its run this is
    var name: string
    var status: Status
    var outputs: map<string, Output>
    var userMessage: Option<string>
    var systemMessage: Option<string>
    var logStartIdx: nat

    ghost function View(): Step
      reads this
    {
      Step(name, status, outputs, userMessage, systemMessage, logStartIdx)
    }

    constructor (name: string, ghost position: nat)
      ensures this.position == position
      ensures View() == Step(name, Pending, map[], None, None, 0)
    {
      this.position := position;
      this.name, status, outputs := name, Pending, map[];
      userMessage, systemMessage, logStartIdx := None, None, 0;
    }

    method Show(userMessage: Option<string>, logs: string)
      modifies this`userMessage, this`systemMessage
      ensures userMessage.Some? ==> this.userMessage == userMessage
      ensures userMessage.None? ==> this.userMessage == old(this.userMessage)
      ensures systemMessage == Some(logs)
    {
      if userMessage.Some? {
        this.userMessage := userMessage;
      }
      systemMessage := Some(logs);
    }

    method Begin(logStart: nat)
      modifies this`status, this`logStartIdx
      ensures status == InProgress && logStartIdx == logStart
    {
      status, logStartIdx := InProgress, logStart;
    }

    constructor Copy(other: StepStatus)
      ensures position == other.position && View() == other.View()
    {
      position := other.position;
      name, status, outputs := other.name, other.status, other.outputs;
      userMessage, systemMessage, logStartIdx := other.userMessage, other.systemMessage, other.logStartIdx;
    }
  }

  ghost predicate StepsAre(steps: seq<StepStatus>, views: seq<Step>)
    reads steps
  {
    |steps| == |views| && forall i :: 0 <= i < |steps| ==> steps[i].View() == views[i]
  }

  lemma OneStepChanged(steps: seq<StepStatus>, views: seq<Step>, c: nat)
    requires c < |steps| == |views|
    requires forall i :: 0 <= i < |steps| && i != c ==> steps[i].View() == views[i]
    ensures StepsAre(steps, views[c := steps[c].View()])
  {
  }

  /** No step stands in two places. */
  ghost predicate Distinct(steps: seq<StepStatus>) {
    forall i :: 0 <= i < |steps| ==> steps[i].position == i
  }

  method NewSteps(names: seq<string>) returns (steps: seq<StepStatus>)
    ensures Distinct(steps) && StepsAre(steps, PendingSteps(names))
    ensures forall i :: 0 <= i < |steps| ==> fresh(steps[i])
  {
    steps := [];
    for i := 0 to |names|
      invariant |steps| == i && Distinct(steps)
      invariant forall k :: 0 <= k < i ==> fresh(steps[k]) && steps[k].View() == PendingSteps(names)[k]
    {
      var step := new StepStatus(names[i], i);
      steps := steps + [step];
    }
  }

  /** A status handed over by value. Its steps are still references. */
  datatype RunStatusValue = RunStatusValue(
    runId: string,
    status: Status,
    steps: seq<StepStatus>,
    current: int,
    summary: Option<string>,
    changesDetected: Option<bool>)

  /** What a holder of v sees when it follows the references now. */
  ghost predicate Shows(v: RunStatusValue, r: Run)
    reads v.steps
  {
    && StepsAre(v.steps, r.steps)
    && v.runId == r.runId && v.status == r.status && v.current == r.current
    && v.summary == r.summary && v.changesDetected == r.changesDetected
  }

  class RunStatus {
    var runId: string
    var status: Status
    var steps: seq<StepStatus>
    var currentStepIndex: int
    var summary: Option<string>
    var changesDetected: Option<bool>

    ghost predicate Is(r: Run)
      reads this, steps
    {
      && StepsAre(steps, r.steps)
      && runId == r.runId && status == r.status && currentStepIndex == r.current
      && summary == r.summary && changesDetected == r.changesDetected
    }

    constructor (runId: string)
      ensures Is(Run(runId, InProgress, [], -1, None, None)) && steps == []
    {
      this.runId, status, steps, currentStepIndex := runId, InProgress, [], -1;
      summary, changesDetected := None, None;
    }

    method CurrentStepStatus() returns (s: StepStatus?)
      ensures s == if 0 <= currentStepIndex < |steps| then steps[currentStepIndex] else null
    {
      s := if 0 <= currentStepIndex < |steps| then steps[currentStepIndex] else null;
    }

    method FirstStep() returns (ok: bool)
      modifies this`currentStepIndex
      ensures ok == (steps != [])
      ensures currentStepIndex == if ok then 0 else old(currentStepIndex)
    {
      ok := |steps| != 0;
      if ok {
        currentStepIndex := 0;
      }
    }

    method NextStep() returns (ok: bool)
      modifies this`currentStepIndex
      ensures ok == (old(currentStepIndex) + 1 < |steps|)
      ensures currentStepIndex == if ok then old(currentStepIndex) + 1 else old(currentStepIndex)
    {
      ok := currentStepIndex + 1 < |steps|;
      if ok {
        currentStepIndex := currentStepIndex + 1;
      }
    }

    method FailRunAndNotFinishedSteps(ghost r: Run)
      requires Is(r) && Distinct(steps)
      modifies this`status, steps
      ensures Is(FailRun(r))
    {
      for idx := 0 to |steps|
        invariant forall i :: 0 <= i < idx ==> steps[i].View() == FailedStep(r.steps[i], i, r.current)
        invariant forall i :: idx <= i < |steps| ==> steps[i].View() == r.steps[i]
      {
        if idx >= currentStepIndex {
          steps[idx].status := Failed;
        }
        if idx > currentStepIndex {
          steps[idx].systemMessage := Some(ABORTED_MESSAGE);
        }
      }
      status := Failed;
    }

    /** The copy shares no step with the original. */
    method Clone(ghost r: Run) returns (c: RunStatusValue)
      requires Is(r)
      ensures Shows(c, r)
      ensures forall s :: s in c.steps ==> fresh(s)
    {
      var copies: seq<StepStatus> := [];
      for i := 0 to |steps|
        invariant |copies| == i
        invariant forall k :: 0 <= k < i ==> fresh(copies[k]) && copies[k].View() == r.steps[k]
      {
        var stepCopy := new StepStatus.Copy(steps[i]);
        copies := copies + [stepCopy];
      }
      c := RunStatusValue(runId, status, copies, currentStepIndex, summary, changesDetected);
    }
  }

  /** The update log of the run on disk, and how much of it has been accepted. */
  class LogWrap {
    const disk: Disk
    var file: string
    var logSize: nat
    var readCount: nat
    var writeCount: nat
    var publishing: bool  // the callback set by assignOutput is in place

    constructor (disk: Disk)
      ensures this.disk == disk
      ensures file == "" && logSize == 0 && readCount == 0 && writeCount == 0 && !publishing
    {
      this.disk := disk;
      file, logSize, readCount, writeCount, publishing := "", 0, 0, 0, false;
    }

    /** The part of Write before the callback. */
    method Append(text: string) returns (ok: bool)
      modifies this`file, this`logSize, this`writeCount
      ensures ok == disk.write(old(writeCount)).Complete?
      ensures writeCount == old(writeCount) + 1
      ensures ok ==> file == old(file) + text && logSize == old(logSize) + |text|
      ensures !ok ==> logSize == old(logSize) &&
                      file == old(file) + text[..Min(disk.write(old(writeCount)).kept, |text|)]
    {
      var result := disk.write(writeCount);
      writeCount := writeCount + 1;
      match result
      case Complete =>
        file := file + text;
        logSize := logSize + |text|;
        ok := true;
      case Short(kept) =>
        file := file + text[..Min(kept, |text|)];
        ok := false;
    }

    method FileContentOrEmpty(startIdx: nat, endIdx: nat) returns (content: string)
      requires startIdx <= endIdx <= |file|
      modifies this`readCount
      ensures readCount == old(readCount) + 1
      ensures content == if disk.readable(old(readCount)) then file[startIdx..endIdx] else ""
    {
      content := if disk.readable(readCount) then file[startIdx..endIdx] else "";
      readCount := readCount + 1;
    }
  }

  /** Each held status shows the run as it was published, and reaches no step outside `shared`. */
  ghost predicate Isolated(held: seq<RunStatusValue>, stream: seq<Publication>, shared: set<StepStatus>)
    reads shared
  {
    && |held| == |stream|
    && (forall i, s :: 0 <= i < |held| && s in held[i].steps ==> s in shared)
    && (forall i :: 0 <= i < |held| ==> Shows(held[i], stream[i].run))
  }

  lemma IsolateOneMore(held: seq<RunStatusValue>, stream: seq<Publication>, shared: set<StepStatus>,
                       v: RunStatusValue, p: Publication)
    requires Isolated(held, stream, shared) && Shows(v, p.run)
    ensures Isolated(held + [v], stream + [p], shared + (set s | s in v.steps))
  {
  }

  ghost predicate Apart(steps: seq<StepStatus>, shared: set<StepStatus>) {
    forall s :: s in steps ==> s !in shared
  }

  class RunContextInfo {
    const runStatus: RunStatus
    const logwrap: LogWrap
    const asyncRun: bool
    var reportStatus: RunStatusValue
    ghost var model: Lifecycle
    ghost var held: seq<RunStatusValue>  // every status ever published, as an observer may still hold it
    ghost var shared: set<StepStatus>    // the steps those reach
    ghost var trace: seq<Event>          // everything the run has done that others can see
    ghost var effects: seq<Event>        // the part of it that is not a publication

    /** The objects only the run changes. */
    ghost function Own(): set<object>
      reads this, runStatus
    {
      {this, runStatus, logwrap} + (set s | s in runStatus.steps)
    }

    /** Every status published so far still shows what it showed when it was published, and
        the run cannot reach any of its steps. */
    ghost predicate Shielded()
      reads this, runStatus, shared
    {
      && held != [] && Interleaves(trace, model.stream, effects)
      && reportStatus == held[|held| - 1]
      && Isolated(held, model.stream, shared)
      && Apart(runStatus.steps, shared)
    }

    /** The live objects are in the state `model` describes. */
    ghost predicate Mirrors()
      reads this, runStatus, logwrap, runStatus.steps
    {
      && model.file == logwrap.file && model.logSize == logwrap.logSize
      && model.readCount == logwrap.readCount && model.writeCount == logwrap.writeCount
      && model.publishing == logwrap.publishing && model.async == asyncRun
      && Distinct(runStatus.steps)
      && runStatus.Is(model.run)
    }

    /** Nothing that was done is taken back, and the run goes on with the same steps. */
    twostate predicate Continues()
      reads this, runStatus
    {
      && old(held) <= held
      && old(model.stream) <= model.stream
      && old(shared) <= shared
      && old(trace) <= trace
      && runStatus.steps == old(runStatus.steps)
    }

    /** ... and at most statuses were published. */
    twostate predicate Grows()
      reads this, runStatus
    {
      Continues() && effects == old(effects)
    }

    constructor (runId: string, asyncRun: bool, disk: Disk)
      ensures Mirrors() && Shielded() && fresh(Own())
      ensures logwrap.disk == disk && this.asyncRun == asyncRun && runStatus.steps == []
      ensures model == Initial(runId, asyncRun) && shared == {} && effects == []
    {
      this.asyncRun := asyncRun;
      var status := new RunStatus(runId);
      runStatus := status;
      logwrap := new LogWrap(disk);
      // The struct is copied, so the first report shares nothing with the live status.
      reportStatus := RunStatusValue(runId, InProgress, [], -1, None, None);
      held := [RunStatusValue(runId, InProgress, [], -1, None, None)];
      shared := {};
      model := Initial(runId, asyncRun);
      trace, effects := [Published(Initial(runId, asyncRun).stream[0])], [];
      new;
      assert trace[..0] == [];
    }

    /** Something other than a publication is about to happen, or has happened. */
    method Record(e: Event)
      requires Mirrors() && Shielded() && !e.Published?
      modifies this`trace, this`effects
      ensures Mirrors() && Shielded() && Continues()
      ensures trace == old(trace) + [e] && effects == old(effects) + [e]
    {
      hide StepsAre, Shows, Distinct, Isolated, Interleaves;
      OneMore(trace, model.stream, effects, e);
      trace, effects := trace + [e], effects + [e];
    }

    method PublishStatus()
      requires Mirrors() && Shielded()
      modifies this`reportStatus, this`model, this`held, this`shared, this`trace
      ensures Mirrors() && Shielded() && Grows()
      ensures model == Publish(old(model))
      ensures trace == old(trace) + [Published(Last(model))]
    {
      hide Shows, Isolated, StepsAre, Interleaves;
      var copy := runStatus.Clone(model.run);
      ghost var steps := set s | s in copy.steps;
      IsolateOneMore(held, model.stream, shared, copy, Publish(model).stream[|model.stream|]);
      OneMore(trace, model.stream, effects, Published(Last(Publish(model))));
      reportStatus, held, shared, model, trace :=
        copy, held + [copy], shared + steps, Publish(model), trace + [Published(Last(Publish(model)))];
      assert Isolated(held, model.stream, shared);
    }

    /** The observer's copy: later changes to the run do not reach it. */
    method ReportedStatus() returns (r: RunStatusValue)
      requires Mirrors() && Shielded()
      ensures r == held[|held| - 1] && Shows(r, model.stream[|held| - 1].run)
    {
      r := reportStatus;
    }

    method ReportFailed()
      requires Mirrors() && Shielded()
      modifies this`reportStatus, this`model, this`held, this`trace
      ensures Mirrors() && Shielded() && Grows()
      ensures model == StepMachine.ReportFailed(old(model))
    {
      hide StepsAre, Interleaves;
      OneMore(trace, model.stream, effects, Published(Last(StepMachine.ReportFailed(model))));
      trace := trace + [Published(Last(StepMachine.ReportFailed(model)))];
      reportStatus := reportStatus.(status := Failed);
      held := held + [reportStatus];
      model := StepMachine.ReportFailed(model);
    }

    /** The log accepted since startIdx, as the file shows it; nothing if the file cannot be read. */
    method LogsSince(startIdx: nat) returns (logs: string)
      requires Mirrors() && Shielded() && startIdx <= model.logSize <= |model.file|
      modifies this`model, logwrap
      ensures Mirrors() && Shielded() && Grows()
      ensures logs == if logwrap.disk.readable(old(model.readCount))
                      then old(model.file)[startIdx..old(model.logSize)] else ""
      ensures model == old(model).(readCount := old(model.readCount) + 1,
                                   lossy := old(model.lossy) || !logwrap.disk.readable(old(model.readCount)))
    {
      hide StepsAre, Shows, Distinct, Isolated, Interleaves;
      ghost var readable := logwrap.disk.readable(logwrap.readCount);
      logs := logwrap.FileContentOrEmpty(startIdx, logwrap.logSize);
      model := model.(readCount := model.readCount + 1, lossy := model.lossy || !readable);
    }

    method ShowOnCurrentStep(currentStep: StepStatus, userMessage: Option<string>, logs: string)
      requires Mirrors() && Shielded()
      requires HasCurrent(model.run) && currentStep == runStatus.steps[model.run.current]
      modifies this`model, currentStep
      ensures Mirrors() && Shielded() && Grows()
      ensures var s := old(model).run.steps[old(model).run.current];
        model == old(model).(run := WithCurrent(old(model).run, s.(
          userMessage := if userMessage.Some? then userMessage else s.userMessage, systemMessage := Some(logs))))
    {
      hide Isolated, Interleaves;
      currentStep.Show(userMessage, logs);
      OneStepChanged(runStatus.steps, model.run.steps, model.run.current);
      model := model.(run := WithCurrent(model.run, currentStep.View()));
    }

    method AppendLog(text: string) returns (ok: bool)
      requires Mirrors() && Shielded()
      modifies this`model, logwrap
      ensures Mirrors() && Shielded() && Grows()
      ensures ok == logwrap.disk.write(old(model.writeCount)).Complete?
      ensures model == Append(old(model), logwrap.disk, text)
    {
      hide StepsAre, Shows, Distinct, Isolated, Interleaves;
      ok := logwrap.Append(text);
      model := Append(model, logwrap.disk, text);
    }

    method OnWrite()
      requires Mirrors() && Shielded()
      modifies this`model, logwrap
      ensures Mirrors() && Shielded() && Grows()
      ensures model == old(model).(publishing := true)
    {
      hide StepsAre, Shows, Distinct, Isolated, Interleaves;
      logwrap.publishing := true;
      model := model.(publishing := true);
    }

    method FailSteps()
      requires Mirrors() && Shielded()
      modifies this`model, runStatus, runStatus.steps
      ensures Mirrors() && Shielded() && Grows()
      ensures model == old(model).(run := FailRun(old(model).run))
    {
      hide Isolated, Interleaves;
      runStatus.FailRunAndNotFinishedSteps(model.run);
      model := model.(run := FailRun(model.run));
    }

    method SetRunStatus(status: Status)
      requires Mirrors() && Shielded()
      modifies this`model, runStatus`status
      ensures Mirrors() && Shielded() && Grows()
      ensures model == old(model).(run := old(model).run.(status := status))
    {
      hide Isolated, Interleaves;
      runStatus.status := status;
      model := model.(run := model.run.(status := status));
    }

    method MoveToNextStep() returns (ok: bool)
      requires Mirrors() && Shielded()
      modifies this`model, runStatus
      ensures Mirrors() && Shielded() && Grows()
      ensures ok == (old(model).run.current + 1 < |old(model).run.steps|)
      ensures model == if ok then old(model).(run := old(model).run.(current := old(model).run.current + 1)) else old(model)
    {
      hide Shows, Isolated, Interleaves;
      ok := runStatus.NextStep();
      if ok {
        model := model.(run := model.run.(current := model.run.current + 1));
      }
    }

    method BeginCurrentStep(currentStep: StepStatus)
      requires Mirrors() && Shielded() && HasCurrent(model.run) && currentStep == runStatus.steps[model.run.current]
      modifies this`model, currentStep
      ensures Mirrors() && Shielded() && Grows()
      ensures var s := old(model).run.steps[old(model).run.current];
        model == old(model).(run := WithCurrent(old(model).run, s.(status := InProgress, logStart := old(model).logSize)))
    {
      hide Isolated, Interleaves;
      currentStep.Begin(logwrap.logSize);
      OneStepChanged(runStatus.steps, model.run.steps, model.run.current);
      model := model.(run := WithCurrent(model.run, currentStep.View()));
    }

    method SetOutputs(currentStep: StepStatus, outputs: map<string, Output>)
      requires Mirrors() && Shielded() && HasCurrent(model.run) && currentStep == runStatus.steps[model.run.current]
      modifies this`model, currentStep
      ensures Mirrors() && Shielded() && Grows()
      ensures model == CollectOutputs(old(model), outputs)
    {
      hide Isolated, Interleaves;
      currentStep.outputs := outputs;
      OneStepChanged(runStatus.steps, model.run.steps, model.run.current);
      model := CollectOutputs(model, outputs);
    }

    method SetChangesDetected(changed: bool)
      requires Mirrors() && Shielded()
      modifies this`model, runStatus`changesDetected
      ensures Mirrors() && Shielded() && Grows()
      ensures model == old(model).(run := old(model).run.(changesDetected := Some(changed)))
    {
      hide Isolated, Interleaves;
      runStatus.changesDetected := Some(changed);
      model := model.(run := model.run.(changesDetected := Some(changed)));
    }

    method InitRunSteps(names: seq<string>)
      requires Mirrors() && Shielded()
      modifies this`model, runStatus
      ensures Mirrors() && Shielded() && held == old(held) && shared == old(shared) && trace == old(trace)
      ensures forall i :: 0 <= i < |runStatus.steps| ==> fresh(runStatus.steps[i])
      ensures model == old(model).(run := old(model).run.(current := 0, steps := PendingSteps(names)))
    {
      hide Isolated, Interleaves;
      var steps := NewSteps(names);
      runStatus.steps, runStatus.currentStepIndex := steps, 0;
      model := model.(run := model.run.(current := 0, steps := PendingSteps(names)));
    }
  }
}
