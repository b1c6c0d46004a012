/** The operations every Terraform command is built from, on the live objects of its run. */
module TfCmd {
  import opened Snapshots
  import opened StepMachine
  import opened LiveStatus
  import opened Trace

  lemma StepsMatch(info: RunContextInfo)
    requires info.Mirrors()
    ensures |info.runStatus.steps| == |info.model.run.steps| && info.runStatus.currentStepIndex == info.model.run.current
    ensures info.model.async == info.asyncRun
  {
  }

  lemma CurrentStepIsInTheModel(info: RunContextInfo)
    requires info.Mirrors() && HasCurrent(info.model.run)
    ensures |info.runStatus.steps| == |info.model.run.steps| && info.runStatus.currentStepIndex == info.model.run.current
    ensures info.runStatus.steps[info.model.run.current].View() == info.model.run.steps[info.model.run.current]
  {
  }

  class GenericTfCmd {
    const info: RunContextInfo

    constructor (info: RunContextInfo)
      ensures this.info == info
    {
      this.info := info;
    }

    function Disk(): Disk {
      info.logwrap.disk
    }

    method SetCurrentStepStatus(status: Status)
      requires info.Mirrors() && info.Shielded() && InRange(info.model)
      modifies info, info.logwrap, info.runStatus, info.runStatus.steps
      ensures info.Mirrors() && info.Shielded() && info.Grows()
      ensures info.model == SetStatus(old(info.model), status)
    {
      hide Isolated, InRange, Interleaves;
      var currentStep := info.runStatus.CurrentStepStatus();
      if currentStep != null {
        ghost var next := SetStatus(info.model, status);
        assert next == info.model.(run := WithCurrent(info.model.run, info.model.run.steps[info.model.run.current].(status := status)));
        currentStep.status := status;
        OneStepChanged(info.runStatus.steps, info.model.run.steps, info.model.run.current);
        info.model := next;
      }
    }

    method SetCurrentStepMessage(userMessage: Option<string>)
      requires info.Mirrors() && info.Shielded() && InRange(info.model)
      modifies info, info.logwrap, info.runStatus, info.runStatus.steps
      ensures info.Mirrors() && info.Shielded() && info.Grows()
      ensures info.model == SetMessage(old(info.model), Disk(), userMessage)
    {
      hide RunContextInfo.Mirrors, RunContextInfo.Shielded, StepsAre, Shows, Distinct, Isolated, Interleaves;
      StepsMatch(info);
      var currentStep := info.runStatus.CurrentStepStatus();
      if currentStep != null {
        CurrentStepIsInTheModel(info);
        var logs := info.LogsSince(currentStep.logStartIdx);
        info.ShowOnCurrentStep(currentStep, userMessage, logs);
      }
    }

    method Println(text: string)
      requires info.Mirrors() && info.Shielded() && InRange(info.model)
      modifies info, info.logwrap, info.runStatus, info.runStatus.steps
      ensures info.Mirrors() && info.Shielded() && info.Grows()
      ensures info.model == Write(old(info.model), Disk(), text)
    {
      hide StepsAre, Shows, Distinct, Isolated, Interleaves;
      var ok := info.AppendLog(text);
      if ok && info.logwrap.publishing {
        // The callback set by AssignOutput.
        SetCurrentStepMessage(None);
        info.PublishStatus();
      }
    }

    method PrintAll(texts: seq<string>)
      requires info.Mirrors() && info.Shielded() && InRange(info.model)
      modifies info, info.logwrap, info.runStatus, info.runStatus.steps
      ensures info.Mirrors() && info.Shielded() && info.Grows()
      ensures info.model == WriteAll(old(info.model), Disk(), texts)
    {
      hide RunContextInfo.Mirrors, RunContextInfo.Shielded, StepsAre, Shows, Distinct, Isolated, Interleaves, InRange;
      var i := 0;
      while i < |texts|
        invariant 0 <= i <= |texts|
        invariant info.Mirrors() && info.Shielded() && info.Grows() && InRange(info.model)
        invariant WriteAll(info.model, Disk(), texts[i..]) == WriteAll(old(info.model), Disk(), texts)
      {
        Println(texts[i]);
        i := i + 1;
      }
    }

    method AdvanceStep(userMessage: Option<string>)
      requires info.Mirrors() && info.Shielded() && InRange(info.model)
      modifies info, info.logwrap, info.runStatus, info.runStatus.steps
      ensures info.Mirrors() && info.Shielded() && info.Grows()
      ensures info.model == StepMachine.AdvanceStep(old(info.model), Disk(), userMessage)
    {
      hide RunContextInfo.Mirrors, RunContextInfo.Shielded, StepsAre, Shows, Distinct, Isolated, Interleaves;
      SetCurrentStepMessage(userMessage);
      NextStep();
      info.PublishStatus();
    }

    method NextStep()
      requires info.Mirrors() && info.Shielded() && InRange(info.model)
      modifies info, info.logwrap, info.runStatus, info.runStatus.steps
      ensures info.Mirrors() && info.Shielded() && info.Grows()
      ensures info.model == StepMachine.NextStep(old(info.model))
    {
      hide RunContextInfo.Mirrors, RunContextInfo.Shielded, StepsAre, Shows, Distinct, Isolated, Interleaves;
      StepsMatch(info);
      if info.asyncRun {
        return;
      }
      SetCurrentStepStatus(Succeeded);
      var ok := info.MoveToNextStep();
      if ok {
        StepsMatch(info);
        var next := info.runStatus.CurrentStepStatus();
        info.BeginCurrentStep(next);
      }
    }

    method StartRun()
      requires info.Mirrors() && info.Shielded()
      modifies info, info.logwrap, info.runStatus, info.runStatus.steps
      ensures info.Mirrors() && info.Shielded() && info.Grows()
      ensures info.model == StepMachine.StartRun(old(info.model))
    {
      hide StepsAre, Shows, Distinct, Isolated, Interleaves;
      StepsMatch(info);
      var ok := info.runStatus.FirstStep();
      info.runStatus.status := InProgress;
      info.model := info.model.(run := info.model.run.(current := info.runStatus.currentStepIndex, status := InProgress));
      info.PublishStatus();
    }

    method CompleteRun(userMessage: Option<string>)
      requires info.Mirrors() && info.Shielded() && InRange(info.model)
      modifies info, info.logwrap, info.runStatus, info.runStatus.steps
      ensures info.Mirrors() && info.Shielded() && info.Grows()
      ensures info.model == StepMachine.CompleteRun(old(info.model), Disk(), userMessage)
    {
      hide RunContextInfo.Mirrors, RunContextInfo.Shielded, StepsAre, Shows, Distinct, Isolated, Interleaves;
      SetCurrentStepMessage(userMessage);
      SetCurrentStepStatus(Succeeded);
      info.SetRunStatus(Succeeded);
      info.PublishStatus();
    }

    method FailWithUserMsg(error: string, context: Context, overrideUserMsg: Option<string>)
      requires info.Mirrors() && info.Shielded() && InRange(info.model)
      modifies info, info.logwrap, info.runStatus, info.runStatus.steps
      ensures info.Mirrors() && info.Shielded() && info.Grows()
      ensures info.model == FailWith(old(info.model), Disk(), error, context, overrideUserMsg)
    {
      hide RunContextInfo.Mirrors, RunContextInfo.Shielded, StepsAre, Shows, Distinct, Isolated, Interleaves, FailRun,
           WriteAll, SetMessage, FailureLines, Explanation;
      info.FailSteps();
      StepsMatch(info);
      var stepStatus := info.runStatus.CurrentStepStatus();
      var userMsg := None;
      if stepStatus != null {
        PrintAll(FailureLines(error, context));
        userMsg := if overrideUserMsg.Some? then overrideUserMsg else Some(Explanation(error, context));
      }
      SetCurrentStepMessage(userMsg);
      info.PublishStatus();
    }

    method CollectOutput(outputs: map<string, Output>)
      requires info.Mirrors() && info.Shielded()
      modifies info, info.logwrap, info.runStatus, info.runStatus.steps
      ensures info.Mirrors() && info.Shielded() && info.Grows()
      ensures info.model == CollectOutputs(old(info.model), outputs)
    {
      hide StepsAre, Shows, Distinct, Isolated, Interleaves;
      StepsMatch(info);
      var stepStatus := info.runStatus.CurrentStepStatus();
      if stepStatus != null {
        info.SetOutputs(stepStatus, outputs);
      }
    }
  }
}
