/** The three Terraform commands. Every external call is an oracle that may fail and may
    write to the run log while it is in progress. */
module TfCommands {
  import opened Snapshots
  import opened StepMachine
  import opened LiveStatus
  import opened Trace
  import opened UpdateLog
  import Observer
  import opened TfCmd

  datatype Behavior = Apply | Detect | Destroy

  datatype Call =
    | CopySources | GetTf | BuildTfEnv | SetEnv
    | SaveInputFiles | WriteVars
    | Init | UseWorkspace
    | PreRunScript
    | CreatePlanFile | DownloadPlan | ClosePlanFile | ApplyPlan
    | ApplyFresh | DestroyAll
    | PlanOut | RequireUploadUrl | ReadPlanFile | UploadPlan
    | ReadOutputs

  /** What an external call does: its result, what it writes to the run log, and for the
      pre-run script the message it leaves for the user. */
  datatype Outcome = Outcome(ok: bool, error: string, log: seq<string>, userMessage: Option<string>)

  datatype Params = Params(behavior: Behavior, artifactUrl: string, artifactUploadUrl: string)

  /** Everything outside the runner that one execution depends on. A failed download leaves
      any part of the artifact behind; deleting a workspace may write to the log and fail. */
  datatype World = World(
    outcome: Call -> Outcome,
    context: Call -> Context,
    artifact: string,
    cutOff: nat,
    plan: string,
    changed: bool,
    outputs: map<string, Output>,
    workspaceLog: seq<string>)

  const HINT_INIT_FAILED := "Check provider and / or backend config"

  // ----- what a run has to do -----

  const PREPARATION := [CopySources, GetTf, BuildTfEnv, SetEnv, SaveInputFiles, WriteVars, Init, UseWorkspace, PreRunScript]

  /** The external calls of a run that meets no failure, in order. */
  function Required(p: Params, async: bool): seq<Call> {
    PREPARATION +
    match p.behavior
    case Apply =>
      (if p.artifactUrl != "" then [CreatePlanFile, DownloadPlan, ClosePlanFile, ApplyPlan] else [ApplyFresh]) + [ReadOutputs]
    case Detect => [PlanOut, RequireUploadUrl, ReadPlanFile, UploadPlan]
    case Destroy => (if async then [ApplyFresh] else []) + [DestroyAll, ReadOutputs]
  }

  /** The step of a synchronous run in which a call happens. */
  function StepOf(c: Call): nat {
    match c
    case CopySources | GetTf | BuildTfEnv | SetEnv => 0
    case SaveInputFiles | WriteVars => 1
    case Init | UseWorkspace => 2
    case PreRunScript => 3
    case ReadOutputs => 5
    case _ => 4
  }

  const SYNC_STEPS := ["sources", "input", "init_tf", "pre_run_script", "execute_tf", "output"]

  function StepNames(p: Params, async: bool): seq<string> {
    if async then ["trigger"] else if p.behavior == Detect then SYNC_STEPS[..5] else SYNC_STEPS
  }

  predicate Works(w: World, p: Params, c: Call) {
    if c == RequireUploadUrl then p.artifactUploadUrl != "" else w.outcome(c).ok
  }

  /** Call after call until one fails. */
  function Attempted(w: World, p: Params, calls: seq<Call>): seq<Call> {
    if calls == [] then []
    else if Works(w, p, calls[0]) then [calls[0]] + Attempted(w, p, calls[1..])
    else [calls[0]]
  }

  ghost predicate AllWork(w: World, p: Params, calls: seq<Call>) {
    forall c :: c in calls ==> Works(w, p, c)
  }

  /** A prefix that works up to its last call, and stops only at a failure, is exactly what
      is attempted. */
  lemma {:induction false} StoppedAtTheFirstFailure(w: World, p: Params, required: seq<Call>, calls: seq<Call>)
    requires calls <= required && calls != [] && AllWork(w, p, calls[..|calls| - 1])
    requires calls == required || !Works(w, p, calls[|calls| - 1])
    ensures Attempted(w, p, required) == calls
  {
    var c := required[0];
    assert c == calls[0] && required == [c] + required[1..] && calls == [c] + calls[1..];
    if |calls| == 1 {
      if |required| > 1 {
        assert !Works(w, p, c);
      }
    } else {
      assert c == calls[..|calls| - 1][0];
      assert calls[1..][..|calls| - 2] == calls[..|calls| - 1][1..];
      StoppedAtTheFirstFailure(w, p, required[1..], calls[1..]);
    }
  }

  lemma {:induction false} AttemptedUpToAFailure(w: World, p: Params, required: seq<Call>)
    ensures var calls := Attempted(w, p, required);
      calls <= required && forall j :: 0 <= j < |calls| - 1 ==> Works(w, p, calls[j])
  {
    if required != [] {
      AttemptedUpToAFailure(w, p, required[1..]);
      var rest := Attempted(w, p, required[1..]);
      assert required == [required[0]] + required[1..];
      assert forall j :: 0 < j < 1 + |rest| ==> ([required[0]] + rest)[j] == rest[j - 1];
    }
  }

  /** What must have worked before a call makes sense. */
  function Needs(c: Call): set<Call> {
    match c
    case SetEnv => {BuildTfEnv}
    case Init => {CopySources, GetTf, SetEnv, SaveInputFiles, WriteVars}
    case UseWorkspace => {Init}
    case PreRunScript => {UseWorkspace}
    case CreatePlanFile | ApplyFresh | DestroyAll | PlanOut => {PreRunScript}
    case DownloadPlan => {CreatePlanFile}
    case ClosePlanFile => {DownloadPlan}
    case ApplyPlan => {ClosePlanFile}
    case RequireUploadUrl => {PlanOut}
    case ReadPlanFile => {PlanOut}
    case UploadPlan => {RequireUploadUrl, ReadPlanFile}
    case _ => {}
  }

  /** Where a call stands among those required. */
  function Place(p: Params, async: bool, c: Call): nat {
    match c
    case CopySources => 0
    case GetTf => 1
    case BuildTfEnv => 2
    case SetEnv => 3
    case SaveInputFiles => 4
    case WriteVars => 5
    case Init => 6
    case UseWorkspace => 7
    case PreRunScript => 8
    case CreatePlanFile | ApplyFresh | PlanOut => 9
    case DestroyAll => if async then 10 else 9
    case DownloadPlan | RequireUploadUrl => 10
    case ClosePlanFile | ReadPlanFile => 11
    case ApplyPlan | UploadPlan => 12
    case ReadOutputs => |Required(p, async)| - 1
  }

  /** A call stands in its place, after what it needs. */
  ghost predicate InPlace(p: Params, async: bool, required: seq<Call>, i: nat)
    requires i < |required|
  {
    && Place(p, async, required[i]) == i
    && forall d :: d in Needs(required[i]) ==> Place(p, async, d) < i && required[Place(p, async, d)] == d
  }

  lemma ThePreparationIsInPlace(p: Params, async: bool, rest: seq<Call>, i: nat)
    requires i < 9
    ensures InPlace(p, async, PREPARATION + rest, i)
  {
    var required := PREPARATION + rest;
    assert required[0] == CopySources && required[1] == GetTf && required[2] == BuildTfEnv && required[3] == SetEnv;
    assert required[4] == SaveInputFiles && required[5] == WriteVars && required[6] == Init && required[7] == UseWorkspace;
    assert required[8] == PreRunScript;
  }

  lemma ADryRunIsInPlace(p: Params, async: bool, i: nat)
    requires 9 <= i < 13
    ensures InPlace(p, async, PREPARATION + [PlanOut, RequireUploadUrl, ReadPlanFile, UploadPlan], i)
  {
    var required := PREPARATION + [PlanOut, RequireUploadUrl, ReadPlanFile, UploadPlan];
    assert required[8] == PreRunScript && required[9] == PlanOut && required[10] == RequireUploadUrl && required[11] == ReadPlanFile;
  }

  lemma AReplayIsInPlace(p: Params, async: bool, i: nat)
    requires 9 <= i < 13
    ensures InPlace(p, async, PREPARATION + [CreatePlanFile, DownloadPlan, ClosePlanFile, ApplyPlan] + [ReadOutputs], i)
  {
    var required := PREPARATION + [CreatePlanFile, DownloadPlan, ClosePlanFile, ApplyPlan] + [ReadOutputs];
    assert required[8] == PreRunScript && required[9] == CreatePlanFile && required[10] == DownloadPlan && required[11] == ClosePlanFile;
  }

  lemma PlacesAreRight(p: Params, async: bool, i: nat)
    requires i < |Required(p, async)|
    ensures InPlace(p, async, Required(p, async), i)
  {
    var required := Required(p, async);
    if i < 9 {
      assert required == PREPARATION + required[9..];
      hide Required, InPlace;
      ThePreparationIsInPlace(p, async, required[9..], i);
    } else if p.behavior == Detect {
      hide InPlace;
      ADryRunIsInPlace(p, async, i);
    } else if i + 1 == |required| {
      assert required[i] == ReadOutputs;
      hide Required;
    } else if p.behavior == Apply && p.artifactUrl != "" {
      assert required == PREPARATION + [CreatePlanFile, DownloadPlan, ClosePlanFile, ApplyPlan] + [ReadOutputs];
      hide Required, InPlace;
      AReplayIsInPlace(p, async, i);
    } else {
      assert required[8] == PreRunScript;
    }
  }

  /** No call is made before everything it needs has worked: in particular tofu changes nothing
      before the pre-run script has worked, and applies no plan that is not there as a whole. */
  lemma NothingHappensTooEarly(w: World, p: Params, async: bool, i: nat, d: Call)
    requires i < |Attempted(w, p, Required(p, async))| && d in Needs(Attempted(w, p, Required(p, async))[i])
    ensures exists j :: 0 <= j < i && Attempted(w, p, Required(p, async))[j] == d && Works(w, p, d)
  {
    hide Attempted, Required, Works, Needs, Place;
    AttemptedUpToAFailure(w, p, Required(p, async));
    PlacesAreRight(p, async, i);
    assert Attempted(w, p, Required(p, async))[Place(p, async, d)] == d;
  }

  /** Where the effects stand in the sequence. */
  lemma EffectsComeLast(p: Params, async: bool, calls: seq<Call>)
    requires calls <= Required(p, async)
    ensures ApplyPlan in calls <==> p.behavior == Apply && p.artifactUrl != "" && |calls| >= 13
    ensures UploadPlan in calls <==> p.behavior == Detect && |calls| >= 13
    ensures ApplyFresh in calls <==> |calls| >= 10 && ((p.behavior == Apply && p.artifactUrl == "") || (p.behavior == Destroy && async))
  {
    var required := Required(p, async);
    assert forall i :: 0 <= i < |calls| ==> calls[i] == required[i];
    if |calls| >= 13 {
      assert calls[12] == required[12];
    }
    if |calls| >= 10 {
      assert calls[9] == required[9];
    }
  }

  lemma TheLastCallIsInTheLastStep(p: Params, async: bool)
    ensures var required := Required(p, async);
      && required != []
      && |StepNames(p, async)| == if async then 1 else StepOf(required[|required| - 1]) + 1
  {
  }

  // ----- the commands -----

  class TfCommand {
    const params: Params
    const world: World
    const cmd: GenericTfCmd
    const info: RunContextInfo
    var calls: seq<Call>
    var planFile: string

    constructor (info: RunContextInfo, params: Params, world: World)
      ensures this.info == info && this.params == params && this.world == world
      ensures calls == [] && planFile == ""
      ensures cmd.info == info
    {
      this.info, this.params, this.world := info, params, world;
      cmd := new GenericTfCmd(info);
      calls, planFile := [], "";
    }

    /** What the calls made so far have written to the log, in order. */
    ghost function LinesOf(made: seq<Call>): seq<string> {
      if made == [] then [] else LinesOf(made[..|made| - 1]) + world.outcome(made[|made| - 1]).log
    }

    lemma NoCall()
      ensures LinesOf([]) == []
    {
    }

    lemma OneMoreCall(made: seq<Call>, call: Call)
      ensures LinesOf(made + [call]) == LinesOf(made) + world.outcome(call).log
    {
      assert (made + [call])[..|made|] == made;
    }

    /** What the log gets after the last call: the hint and the failure, or the deletion of the
        workspace. */
    ghost function FailureText(call: Call): seq<string> {
      Hint(call) + FailureLines(world.outcome(call).error, world.context(call))
    }

    lemma AFailedCall(made: seq<Call>, call: Call)
      ensures LinesOf(made) + world.outcome(call).log + Hint(call) + FailureLines(world.outcome(call).error, world.context(call))
           == LinesOf(made + [call]) + FailureText(call)
    {
      OneMoreCall(made, call);
      hide LinesOf, Hint, FailureLines;
    }

    ghost function LastText(): seq<string> {
      if params.behavior == Destroy then world.workspaceLog else []
    }

    /** These are all texts that were written to the log, in order. */
    ghost predicate Wrote(texts: seq<string>)
      reads info
    {
      AreWritten(info.model, cmd.Disk(), texts)
    }

    /** In the middle of a run: everything so far worked, the step pointer stands where the next
        call belongs, every step up to it has been published, and from the second step on tofu's
        output publishes. */
    ghost predicate InStep(step: nat)
      reads this`calls, info, info.runStatus, info.logwrap, info.runStatus.steps, info.shared
    {
      && cmd.info == info
      && info.Mirrors() && info.Shielded() && Working(info.model)
      && |info.model.run.steps| == |StepNames(params, info.asyncRun)|
      && info.model.run.current == (if info.asyncRun then 0 else step)
      && calls <= Required(params, info.asyncRun)
      && AllWork(world, params, calls)
      && Visited(info.model.stream, info.model.run.current)
      && (step > 0 ==> info.model.publishing)
    }

    /** ... and the log is what the calls have written. */
    ghost predicate Underway(step: nat)
      reads this`calls, info, info.runStatus, info.logwrap, info.runStatus.steps, info.shared
    {
      InStep(step) && Wrote(LinesOf(calls))
    }

    /** A call failed: the run has ended in the step the call belongs to. */
    ghost predicate Broken()
      reads this`calls, info, info.runStatus, info.logwrap, info.runStatus.steps, info.shared
    {
      && cmd.info == info
      && info.Mirrors() && info.Shielded() && Ended(info.model) && info.model.run.status == Failed
      && calls != [] && calls <= Required(params, info.asyncRun)
      && AllWork(world, params, calls[..|calls| - 1]) && !Works(world, params, calls[|calls| - 1])
      && info.model.run.current == (if info.asyncRun then 0 else StepOf(calls[|calls| - 1]))
      && Visited(info.model.stream, info.model.run.current)
      && Wrote(LinesOf(calls) + FailureText(calls[|calls| - 1]))
    }

    /** Lines that tofu, or the runner on its behalf, writes while a call is in progress. */
    method Log(step: nat, lines: seq<string>, ghost before: seq<string>)
      requires InStep(step) && Wrote(before)
      modifies info, info.logwrap, info.runStatus, info.runStatus.steps
      ensures InStep(step) && Wrote(before + lines) && info.Grows()
      ensures info.model == WriteAll(old(info.model), cmd.Disk(), lines)
      ensures info.model.run.changesDetected == old(info.model).run.changesDetected
      ensures ReportsOutputs(old(info.model).run, world.outputs) ==> ReportsOutputs(info.model.run, world.outputs)
      ensures info.model.publishing == old(info.model.publishing)
      ensures info.model.publishing ==>
        |info.model.stream| == |old(info.model.stream)| + CompleteWrites(cmd.Disk(), old(info.model.writeCount), |lines|)
    {
      hide StepsAre, Shows, Distinct, Isolated, Interleaves, Visited, Stream, Follows, Steady, Fits, Completed, LinesOf,
           WriteAll, FailWith, Required, StepNames, StepOf;
      WritingKeepsResults(info.model, cmd.Disk(), lines);
      EveryLineIsPublished(info.model, cmd.Disk(), lines);
      MoreIsWritten(info.model, cmd.Disk(), before, lines);
      ghost var shown := info.model.stream;
      WriteAllKeepsInv(info.model, cmd.Disk(), lines);
      cmd.PrintAll(lines);
      VisitedStays(shown, info.model.stream, info.model.run.current);
    }

    method Fail(call: Call, overrideUserMsg: Option<string>)
      requires InStep(StepOf(call)) && Wrote(LinesOf(calls) + world.outcome(call).log + Hint(call)) && !Works(world, params, call)
      requires |calls| < |Required(params, info.asyncRun)| && Required(params, info.asyncRun)[|calls|] == call
      modifies this`calls, info, info.logwrap, info.runStatus, info.runStatus.steps
      ensures calls == old(calls) + [call] && info.Grows() && Broken()
      ensures info.model == FailWith(old(info.model), cmd.Disk(), world.outcome(call).error, world.context(call), overrideUserMsg)
    {
      hide StepsAre, Shows, Distinct, Isolated, Interleaves, Visited, Stream, Follows, Steady, Fits, Completed, LinesOf,
           WriteAll, FailWith, Required, StepNames, StepOf, AreWritten, FailureText, Hint, FailureLines, Works;
      FailWithEnds(info.model, cmd.Disk(), world.outcome(call).error, world.context(call), overrideUserMsg);
      ghost var before := info.model.stream;
      FailingWritesTheFailure(info.model, cmd.Disk(), world.outcome(call).error, world.context(call), overrideUserMsg,
                              LinesOf(calls) + world.outcome(call).log + Hint(call));
      AFailedCall(calls, call);
      cmd.FailWithUserMsg(world.outcome(call).error, world.context(call), overrideUserMsg);
      VisitedStays(before, info.model.stream, info.model.run.current);
      calls := calls + [call];
      assert calls[..|calls| - 1] == old(calls);
    }

    /** Puts an apply or upload into the trace. */
    method Note(step: nat, e: Event)
      requires Underway(step) && !e.Published?
      modifies info
      ensures Underway(step) && info.Continues() && info.effects == old(info.effects) + [e]
      ensures info.model == old(info.model) && info.trace == old(info.trace) + [e]
    {
      hide StepsAre, Shows, Distinct, Isolated, Interleaves, Visited, Stream, Follows, Steady, Fits, Completed, LinesOf,
           Required, StepNames, StepOf;
      info.Record(e);
    }

    /** What the runner adds to the log of a call that failed. */
    function Hint(call: Call): seq<string> {
      if call == Init && params.behavior != Apply then [HINT_INIT_FAILED + "\n"] else []
    }

    /** Only a failing pre-run script may tell the user something else than the error. */
    function OverrideMessage(call: Call): Option<string> {
      if call == PreRunScript then world.outcome(call).userMessage else None
    }

    lemma WhatTheRunnerAdds(call: Call)
      ensures call == Init && params.behavior in {Detect, Destroy} ==> Hint(call) == ["Check provider and / or backend config\n"]
      ensures call != Init || params.behavior == Apply ==> Hint(call) == []
      ensures call != PreRunScript ==> OverrideMessage(call) == None
      ensures OverrideMessage(PreRunScript) == world.outcome(PreRunScript).userMessage
    {
      assert HINT_INIT_FAILED + "\n" == "Check provider and / or backend config\n";
    }

    method FailWithHint(call: Call)
      requires InStep(StepOf(call)) && Wrote(LinesOf(calls) + world.outcome(call).log) && !Works(world, params, call)
      requires |calls| < |Required(params, info.asyncRun)| && Required(params, info.asyncRun)[|calls|] == call
      modifies this`calls, info, info.logwrap, info.runStatus, info.runStatus.steps
      ensures calls == old(calls) + [call] && info.Grows() && Broken()
      ensures info.model == FailWith(WriteAll(old(info.model), cmd.Disk(), Hint(call)), cmd.Disk(),
                                     world.outcome(call).error, world.context(call), OverrideMessage(call))
    {
      hide StepsAre, Shows, Distinct, Isolated, Interleaves, Visited, Stream, Follows, Steady, Fits, Completed, LinesOf,
           WriteAll, FailWith, Required, StepNames, StepOf, Ended, Broken, ReportsOutputs;
      WriteNothing(info.model, cmd.Disk());
      if call == Init && params.behavior != Apply {
        Log(StepOf(call), [HINT_INIT_FAILED + "\n"], LinesOf(calls) + world.outcome(call).log);
      } else {
        assert LinesOf(calls) + world.outcome(call).log + [] == LinesOf(calls) + world.outcome(call).log;
      }
      Fail(call, if call == PreRunScript then world.outcome(call).userMessage else None);
    }

    method Attempt(call: Call) returns (ok: bool)
      requires Underway(StepOf(call))
      requires |calls| < |Required(params, info.asyncRun)| && Required(params, info.asyncRun)[|calls|] == call
      modifies this`calls, info, info.logwrap, info.runStatus, info.runStatus.steps
      ensures calls == old(calls) + [call] && info.Grows()
      ensures ok == Works(world, params, call)
      ensures ok ==> Underway(StepOf(call)) && info.model.run.changesDetected == old(info.model).run.changesDetected
      ensures !ok ==> Broken()
      ensures var logged := WriteAll(old(info.model), cmd.Disk(), world.outcome(call).log);
        info.model == if ok then logged
                      else FailWith(WriteAll(logged, cmd.Disk(), Hint(call)), cmd.Disk(),
                                    world.outcome(call).error, world.context(call), OverrideMessage(call))
    {
      hide StepsAre, Shows, Distinct, Isolated, Interleaves, Visited, Stream, Follows, Steady, Fits, Completed, LinesOf,
           WriteAll, FailWith, Required, StepNames, StepOf, Working, Ended, Broken, ReportsOutputs, InRange,
           OverrideMessage, Hint;
      OneMoreCall(calls, call);
      Log(StepOf(call), world.outcome(call).log, LinesOf(calls));
      ok := if call == RequireUploadUrl then params.artifactUploadUrl != "" else world.outcome(call).ok;
      if !ok {
        FailWithHint(call);
      } else {
        calls := calls + [call];
      }
    }

    /** The user reads the message, if there is one, at the step. */
    ghost predicate Told(step: nat, userMessage: Option<string>)
      reads info
    {
      userMessage.Some? ==> step < |info.model.run.steps| && info.model.run.steps[step].userMessage == userMessage
    }

    method Advance(step: nat, userMessage: Option<string>)
      requires Underway(step) && (info.asyncRun || step + 1 < |StepNames(params, info.asyncRun)|)
      requires step == 0 ==> info.model.publishing
      modifies info, info.logwrap, info.runStatus, info.runStatus.steps
      ensures Underway(step + 1) && info.Grows()
      ensures info.model == StepMachine.AdvanceStep(old(info.model), cmd.Disk(), userMessage)
      ensures !info.asyncRun ==> Told(step, userMessage)
    {
      hide StepsAre, Shows, Distinct, Isolated, Interleaves, Visited, Stream, Follows, Steady, Fits, Completed, LinesOf,
           Required, StepNames;
      if !info.asyncRun && userMessage.Some? {
        AdvancingShows(info.model, cmd.Disk(), userMessage);
      }
      AdvanceStepKeepsInv(info.model, cmd.Disk(), userMessage);
      SteppingWritesNothing(info.model, cmd.Disk(), userMessage, LinesOf(calls));
      cmd.AdvanceStep(userMessage);
    }

    ghost predicate Fresh()
      reads this`calls, info, info.runStatus, info.logwrap, info.runStatus.steps, info.shared
    {
      && cmd.info == info
      && info.Mirrors() && info.Shielded() && Prepared(info.model)
      && |info.model.run.steps| == |StepNames(params, info.asyncRun)|
      && calls == []
    }

    method Start()
      requires Fresh()
      modifies info, info.logwrap, info.runStatus, info.runStatus.steps
      ensures Underway(0) && info.Grows()
    {
      hide StepsAre, Shows, Distinct, Isolated, Interleaves, Visited, Stream, Follows, Steady, Fits, Completed, LinesOf,
           Required, StepNames;
      StartRunEstablishesInv(info.model);
      NothingIsWritten(info.model, cmd.Disk());
      SteppingWritesNothing(info.model, cmd.Disk(), None, []);
      NoCall();
      cmd.StartRun();
    }

    method AssignOutput(step: nat)
      requires Underway(step)
      modifies info, info.logwrap
      ensures Underway(step) && info.Grows() && info.model.publishing
    {
      hide StepsAre, Shows, Distinct, Isolated, Interleaves, Visited, Stream, Follows, Steady, Fits, Completed, LinesOf,
           Required, StepNames;
      info.OnWrite();
    }

    // The part all three commands have in common, step by step.

    method PrepareSources() returns (ok: bool)
      requires Underway(0) && calls == []
      modifies this`calls, info, info.logwrap, info.runStatus, info.runStatus.steps
      ensures info.Grows()
      ensures ok ==> Underway(0) && calls == PREPARATION[..4]
      ensures calls <= PREPARATION && (!ok ==> Broken())
    {
      hide StepsAre, Shows, Distinct, Isolated, Interleaves, Working, Shaped, WriteAll, FailWith, StepMachine.AdvanceStep,
           InRange, Fits, Hint, OverrideMessage, Attempted, Underway, Broken;
      ok := Attempt(CopySources);
      if !ok { return; }
      ok := Attempt(GetTf);
      if !ok { return; }
      ok := Attempt(BuildTfEnv);
      if !ok { return; }
      ok := Attempt(SetEnv);
      if !ok { return; }
    }

    method PrepareInputs() returns (ok: bool)
      requires Underway(1) && calls == PREPARATION[..4]
      modifies this`calls, info, info.logwrap, info.runStatus, info.runStatus.steps
      ensures info.Grows()
      ensures ok ==> Underway(2) && calls == PREPARATION[..6]
      ensures calls <= PREPARATION && (!ok ==> Broken())
    {
      hide StepsAre, Shows, Distinct, Isolated, Interleaves, Working, Shaped, WriteAll, FailWith, StepMachine.AdvanceStep,
           InRange, Fits, Hint, OverrideMessage, Attempted, Underway, Broken;
      ok := Attempt(SaveInputFiles);
      if !ok { return; }
      ok := Attempt(WriteVars);
      if !ok { return; }
      Advance(1, None);
    }

    method PrepareTerraform() returns (ok: bool)
      requires Underway(2) && calls == PREPARATION[..6]
      modifies this`calls, info, info.logwrap, info.runStatus, info.runStatus.steps
      ensures info.Grows()
      ensures ok ==> Underway(3) && calls == PREPARATION[..8]
      ensures calls <= PREPARATION && (!ok ==> Broken())
    {
      hide StepsAre, Shows, Distinct, Isolated, Interleaves, Working, Shaped, WriteAll, FailWith, StepMachine.AdvanceStep,
           InRange, Fits, Hint, OverrideMessage, Attempted, Underway, Broken;
      ok := Attempt(Init);
      if !ok { return; }
      ok := Attempt(UseWorkspace);
      if !ok { return; }
      Advance(2, None);
    }

    method RunScript() returns (ok: bool)
      requires Underway(3) && calls == PREPARATION[..8]
      modifies this`calls, info, info.logwrap, info.runStatus, info.runStatus.steps
      ensures info.Grows()
      ensures ok ==> Underway(4) && calls == PREPARATION
      ensures ok && !info.asyncRun ==> Told(3, world.outcome(PreRunScript).userMessage)
      ensures calls <= PREPARATION && (!ok ==> Broken())
    {
      hide StepsAre, Shows, Distinct, Isolated, Interleaves, Working, Shaped, WriteAll, FailWith, StepMachine.AdvanceStep,
           InRange, Fits, Hint, OverrideMessage, Attempted, Underway, Broken;
      ok := Attempt(PreRunScript);
      if !ok { return; }
      Advance(3, world.outcome(PreRunScript).userMessage);
    }

    method PrepareFurther() returns (ok: bool)
      requires Underway(1) && calls == PREPARATION[..4]
      modifies this`calls, info, info.logwrap, info.runStatus, info.runStatus.steps
      ensures info.Grows()
      ensures ok ==> Underway(4) && calls == PREPARATION
      ensures ok && !info.asyncRun ==> Told(3, world.outcome(PreRunScript).userMessage)
      ensures calls <= PREPARATION && (!ok ==> Broken())
    {
      hide StepsAre, Shows, Distinct, Isolated, Interleaves, Working, Shaped, Told, Underway, Broken;
      ok := PrepareInputs();
      if !ok { return; }
      ok := PrepareTerraform();
      if !ok { return; }
      ok := RunScript();
    }

    method Prepare() returns (ok: bool)
      requires Fresh()
      modifies this`calls, info, info.logwrap, info.runStatus, info.runStatus.steps
      ensures info.Grows()
      ensures ok ==> Underway(4) && calls == PREPARATION
      ensures ok && !info.asyncRun ==> Told(3, world.outcome(PreRunScript).userMessage)
      ensures calls <= PREPARATION && (!ok ==> Broken())
    {
      hide StepsAre, Shows, Distinct, Isolated, Interleaves, Working, Shaped, WriteAll, FailWith, StepMachine.AdvanceStep,
           InRange, Fits, Hint, OverrideMessage, Attempted, Told, Underway, Broken;
      Start();
      ok := PrepareSources();
      if !ok { return; }
      AssignOutput(0);
      Advance(0, None);
      ok := PrepareFurther();
    }

    // ----- how the three go on -----

    /** Everything worked, and the success is published. */
    ghost predicate Finished()
      reads this`calls, info, info.runStatus, info.logwrap, info.runStatus.steps, info.shared
    {
      && cmd.info == info
      && info.Mirrors() && info.Shielded() && Ended(info.model) && info.model.run.status == Succeeded
      && calls == Required(params, info.asyncRun) && AllWork(world, params, calls)
      && info.model.run.current + 1 == |StepNames(params, info.asyncRun)|
      && ReportsResults()
      && SucceedsAfter(info.trace, info.effects)
      && Visited(info.model.stream, info.model.run.current)
      && Wrote(LinesOf(calls) + LastText())
    }

    /** The outputs of an apply or destroy, or what the plan of a dry run found. */
    ghost predicate ReportsResults()
      reads info
    {
      if params.behavior == Detect then info.model.run.changesDetected == Some(world.changed)
      else ReportsOutputs(info.model.run, world.outputs)
    }

    lemma EverythingIsInTheTrace()
      requires info.Shielded()
      ensures Effects(info.trace) == info.effects && Publications(info.trace) == info.model.stream
    {
    }

    lemma NothingSucceededYet()
      requires info.Shielded() && Working(info.model)
      ensures Effects(info.trace) == info.effects
      ensures forall p :: p in Publications(info.trace) ==> p.run.status != Succeeded
    {
      NothingTerminalBefore(info.model);
    }

    method Complete(step: nat)
      requires InStep(step) && Wrote(LinesOf(calls) + LastText()) && calls == Required(params, info.asyncRun)
      requires info.asyncRun || step + 1 == |StepNames(params, false)|
      requires ReportsResults()
      modifies info, info.logwrap, info.runStatus, info.runStatus.steps
      ensures Finished() && info.Grows()
    {
      hide StepsAre, Shows, Distinct, Isolated, Interleaves, Visited, Stream, Follows, Steady, Fits, Completed, LinesOf, Required;
      CompletingKeepsResults(info.model, cmd.Disk(), None);
      CompleteRunEnds(info.model, cmd.Disk(), None);
      NothingSucceededYet();
      SteppingWritesNothing(info.model, cmd.Disk(), None, LinesOf(calls) + LastText());
      ghost var before, shown := info.trace, info.model.stream;
      cmd.CompleteRun(None);
      EverythingIsInTheTrace();
      SuccessComesAfter(before, info.trace);
      VisitedStays(shown, info.model.stream, info.model.run.current);
    }

    method Collect(step: nat)
      requires Underway(step)
      modifies info, info.logwrap, info.runStatus, info.runStatus.steps
      ensures Underway(step) && info.Grows()
      ensures ReportsOutputs(info.model.run, world.outputs)
    {
      hide StepsAre, Shows, Distinct, Isolated, Interleaves, Visited, Stream, Follows, Fits, Completed, LinesOf, Required,
           StepNames;
      CollectOutputsKeepsInv(info.model, world.outputs);
      cmd.CollectOutput(world.outputs);
    }

    method RecordChanges(step: nat)
      requires Underway(step)
      modifies info, info.logwrap, info.runStatus, info.runStatus.steps
      ensures Underway(step) && info.Grows() && info.model.run.changesDetected == Some(world.changed)
    {
      hide StepsAre, Shows, Distinct, Isolated, Interleaves, Visited, Stream, Follows, Steady, Fits, Completed, LinesOf,
           Required, StepNames;
      ChangesDetectedKeepsInv(info.model, world.changed);
      info.SetChangesDetected(world.changed);
    }

    /** The whole artifact, or a failed run. */
    method FetchPlan() returns (ok: bool)
      requires Underway(4) && calls == PREPARATION
      requires params.behavior == Apply && params.artifactUrl != ""
      modifies this`calls, this`planFile, info, info.logwrap, info.runStatus, info.runStatus.steps
      ensures info.Grows() && calls <= PREPARATION + [CreatePlanFile, DownloadPlan, ClosePlanFile]
      ensures ok ==> Underway(4) && calls == PREPARATION + [CreatePlanFile, DownloadPlan, ClosePlanFile]
      ensures ok ==> planFile == world.artifact
      ensures !ok ==> Broken()
    {
      hide StepsAre, Shows, Distinct, Isolated, Interleaves, Working, Shaped, WriteAll, FailWith, StepMachine.AdvanceStep,
           InRange, Fits, Hint, OverrideMessage, Attempted, Broken, Underway;
      ok := Attempt(CreatePlanFile);
      if !ok { return; }
      planFile := "";
      ok := Attempt(DownloadPlan);
      planFile := if ok then world.artifact else world.artifact[..Min(world.cutOff, |world.artifact|)];
      if !ok { return; }
      ok := Attempt(ClosePlanFile);
    }

    /** One call of tofu apply, on a saved plan or on the sources. */
    method TofuApply(call: Call, plan: Option<string>) returns (ok: bool)
      requires Underway(StepOf(call))
      requires |calls| < |Required(params, info.asyncRun)| && Required(params, info.asyncRun)[|calls|] == call
      modifies this`calls, info, info.logwrap, info.runStatus, info.runStatus.steps
      ensures info.effects == old(info.effects) + [Applying(plan)]
      ensures calls == old(calls) + [call] && info.Continues()
      ensures ok == Works(world, params, call)
      ensures ok ==> Underway(StepOf(call))
      ensures !ok ==> Broken()
    {
      hide StepsAre, Shows, Distinct, Isolated, Interleaves, Working, Shaped, WriteAll, FailWith, StepMachine.AdvanceStep,
           InRange, Fits, Hint, OverrideMessage, Attempted, Broken, Underway;
      Note(StepOf(call), Applying(plan));
      ok := Attempt(call);
    }

    method ApplyChange() returns (ok: bool)
      requires Underway(4) && calls == PREPARATION && info.effects == [] && params.behavior == Apply
      modifies this`calls, this`planFile, info, info.logwrap, info.runStatus, info.runStatus.steps
      ensures info.Continues()
      ensures ok ==> Underway(4) && calls + [ReadOutputs] == Required(params, info.asyncRun)
      ensures !ok ==> Broken()
      ensures params.artifactUrl != "" ==> info.effects == if |calls| < 13 then [] else [Applying(Some(world.artifact))]
      ensures params.artifactUrl == "" ==> info.effects == [Applying(None)] && |calls| == 10
    {
      hide StepsAre, Shows, Distinct, Isolated, Interleaves, Working, Shaped, WriteAll, FailWith, StepMachine.AdvanceStep,
           InRange, Fits, Hint, OverrideMessage, Attempted, Broken, Underway;
      if params.artifactUrl != "" {
        ok := FetchPlan();
        if !ok { return; }
        ok := TofuApply(ApplyPlan, Some(planFile));
      } else {
        ok := TofuApply(ApplyFresh, None);
      }
    }

    method CollectAndComplete()
      requires Underway(5) && calls == Required(params, info.asyncRun) && params.behavior != Detect
      modifies info, info.logwrap, info.runStatus, info.runStatus.steps
      ensures info.Grows() && Finished()
    {
      hide StepsAre, Shows, Distinct, Isolated, Interleaves, Working, Shaped, WriteAll, InRange, Fits, InStep, Wrote,
           LinesOf, Finished;
      Collect(5);
      if params.behavior == Destroy {
        Log(5, world.workspaceLog, LinesOf(calls));
      } else {
        assert LinesOf(calls) + [] == LinesOf(calls);
      }
      Complete(5);
    }

    method ReportOutputs()
      requires Underway(4) && calls + [ReadOutputs] == Required(params, info.asyncRun) && params.behavior != Detect
      modifies this`calls, info, info.logwrap, info.runStatus, info.runStatus.steps
      ensures info.Grows() && (Finished() || Broken())
      ensures calls == Required(params, info.asyncRun)
    {
      hide StepsAre, Shows, Distinct, Isolated, Interleaves, Working, Shaped, WriteAll, FailWith, StepMachine.AdvanceStep,
           InRange, Fits, Hint, OverrideMessage, Attempted, Broken, Underway, Finished;
      Advance(4, None);
      var ok := Attempt(ReadOutputs);
      if !ok { return; }
      CollectAndComplete();
    }

    method ExecuteApply()
      requires Fresh() && info.effects == [] && params.behavior == Apply
      modifies this, info, info.logwrap, info.runStatus, info.runStatus.steps
      ensures info.Continues() && (Finished() || Broken())
      ensures params.artifactUrl != "" ==> info.effects == if |calls| < 13 then [] else [Applying(Some(world.artifact))]
      ensures params.artifactUrl == "" ==> info.effects == if |calls| < 10 then [] else [Applying(None)]
    {
      hide StepsAre, Shows, Distinct, Isolated, Interleaves, Working, Shaped, WriteAll, FailWith, StepMachine.AdvanceStep,
           InRange, Fits, Hint, OverrideMessage, Attempted, Broken, Underway, Finished;
      var ok := Prepare();
      if !ok { return; }
      ok := ApplyChange();
      if !ok { return; }
      ReportOutputs();
    }

    method UploadArtifact(data: string) returns (ok: bool)
      requires Underway(4) && params.behavior == Detect
      requires calls == Required(params, info.asyncRun)[..12]
      modifies this`calls, info, info.logwrap, info.runStatus, info.runStatus.steps
      ensures calls == Required(params, info.asyncRun) && info.Continues()
      ensures ok == Works(world, params, UploadPlan)
      ensures ok ==> Underway(4) && info.model.run.changesDetected == old(info.model).run.changesDetected
      ensures !ok ==> Broken()
      ensures info.effects == old(info.effects) + [Uploading(data)] + if ok then [Uploaded(data)] else []
    {
      hide StepsAre, Shows, Distinct, Isolated, Interleaves, Working, Shaped, WriteAll, FailWith, StepMachine.AdvanceStep,
           InRange, Fits, Hint, OverrideMessage, Attempted, Broken, Underway;
      assert calls + [UploadPlan] == Required(params, info.asyncRun);
      Note(4, Uploading(data));
      ok := Attempt(UploadPlan);
      if ok {
        Note(4, Uploaded(data));
      }
    }

    method MakePlan() returns (ok: bool)
      requires Underway(4) && calls == PREPARATION && params.behavior == Detect
      modifies this`calls, this`planFile, info, info.logwrap, info.runStatus, info.runStatus.steps
      ensures info.Grows()
      ensures ok ==> Underway(4) && calls == Required(params, info.asyncRun)[..12] && planFile == world.plan
      ensures ok ==> info.model.run.changesDetected == Some(world.changed)
      ensures |calls| <= 12
      ensures !ok ==> Broken()
    {
      hide StepsAre, Shows, Distinct, Isolated, Interleaves, Working, Shaped, WriteAll, FailWith, StepMachine.AdvanceStep,
           InRange, Fits, Hint, OverrideMessage, Attempted, Broken, Underway;
      ok := Attempt(PlanOut);
      if !ok { return; }
      planFile := world.plan;
      RecordChanges(4);
      ok := Attempt(RequireUploadUrl);
      if !ok { return; }
      ok := Attempt(ReadPlanFile);
    }

    /** One upload, and whether it succeeded. */
    function UploadOf(data: string, ok: bool): seq<Event> {
      if ok then [Uploading(data), Uploaded(data)] else [Uploading(data)]
    }

    method ExecutePlan()
      requires Fresh() && info.effects == [] && params.behavior == Detect
      modifies this, info, info.logwrap, info.runStatus, info.runStatus.steps
      ensures info.Continues() && (Finished() || Broken())
      ensures info.effects == if |calls| < 13 then [] else UploadOf(world.plan, Works(world, params, UploadPlan))
    {
      hide StepsAre, Shows, Distinct, Isolated, Interleaves, Working, Shaped, WriteAll, FailWith, StepMachine.AdvanceStep,
           InRange, Fits, Hint, OverrideMessage, Attempted, Broken, InStep, Wrote, LinesOf, Finished;
      var ok := Prepare();
      if !ok { return; }
      ok := MakePlan();
      if !ok { return; }
      ok := UploadArtifact(planFile);
      if !ok { return; }
      assert LinesOf(calls) + [] == LinesOf(calls);
      Complete(4);
    }

    method ExecuteDestroy()
      requires Fresh() && info.effects == [] && params.behavior == Destroy
      modifies this, info, info.logwrap, info.runStatus, info.runStatus.steps
      ensures info.Continues() && (Finished() || Broken())
      ensures info.effects == if info.asyncRun && |calls| > 9 then [Applying(None)] else []
    {
      hide StepsAre, Shows, Distinct, Isolated, Interleaves, Working, Shaped, WriteAll, FailWith, StepMachine.AdvanceStep,
           InRange, Fits, Hint, OverrideMessage, Attempted, Broken, Underway, Finished;
      var ok := Prepare();
      if !ok { return; }
      if info.asyncRun {
        ok := TofuApply(ApplyFresh, None);
        if !ok { return; }
      }
      ok := Attempt(DestroyAll);
      if !ok { return; }
      ReportOutputs();
    }

    /** How every execution ends, whatever failed: with a terminal status published, in the step
        where it stopped, after exactly the calls up to the first failure. Every step up to that
        one was published, and the log got what the calls have written, then the failure or what
        deleting the workspace writes, and nothing else. */
    ghost predicate Concluded()
      reads this`calls, info, info.runStatus, info.logwrap, info.runStatus.steps, info.shared
    {
      var required := Required(params, info.asyncRun);
      var status := info.model.run.status;
      && info.Mirrors() && info.Shielded()
      && Ended(info.model) && (status == Succeeded || status == Failed)
      && calls == Attempted(world, params, required) && calls != []
      && (status == Succeeded <==> AllWork(world, params, required))
      && info.model.run.current == (if info.asyncRun then 0 else StepOf(calls[|calls| - 1]))
      && (status == Succeeded ==> ReportsResults())
      && SucceedsAfter(info.trace, info.effects)
      && Visited(info.model.stream, info.model.run.current)
      && Wrote(LinesOf(calls) + if status == Succeeded then LastText() else FailureText(calls[|calls| - 1]))
    }

    lemma EndsConcluded()
      requires Finished() || Broken()
      ensures Concluded() && calls <= Required(params, info.asyncRun)
      ensures info.model.run.status == Succeeded ==> calls == Required(params, info.asyncRun) && AllWork(world, params, calls)
      ensures SucceedsAfter(info.trace, info.effects) && info.model.run.status in {Succeeded, Failed}
      ensures info.model.run.status == Failed ==> forall effects :: SucceedsAfter(info.trace, effects)
    {
      hide Ended, StepsAre, Isolated, Required, StepOf, StepNames, SucceedsAfter, Visited, Wrote, LinesOf, LastText, FailureText;
      TheLastCallIsInTheLastStep(params, info.asyncRun);
      var required := Required(params, info.asyncRun);
      if Broken() {
        assert calls[|calls| - 1] in required;
        NoSuccessBeforeFailure(info.model);
        EverythingIsInTheTrace();
        forall effects
          ensures SucceedsAfter(info.trace, effects)
        {
          NoSuccess(info.trace, effects);
        }
      }
      StoppedAtTheFirstFailure(world, params, required, calls);
    }

    /** Ends as Concluded says, and every SUCCEEDED it publishes stands after all the applies and
        uploads that are listed here: a dry run succeeds only after the one successful upload of
        the plan it made, and an approved plan is applied once, whole, and instead of anything
        else. */
    method Execute()
      requires Fresh() && info.effects == []
      modifies this, info, info.logwrap, info.runStatus, info.runStatus.steps
      ensures Concluded() && info.Continues()
      ensures params.behavior == Detect ==>
        info.effects == if UploadPlan in calls then UploadOf(world.plan, Works(world, params, UploadPlan)) else []
      ensures params.behavior == Detect ==> SucceedsAfter(info.trace, UploadOf(world.plan, true))
      ensures params.behavior == Detect && info.model.run.status == Succeeded ==> params.artifactUploadUrl != ""
      ensures params.behavior == Apply && params.artifactUrl != "" ==>
        info.effects == if ApplyPlan in calls then [Applying(Some(world.artifact))] else []
      ensures params.behavior == Apply && params.artifactUrl == "" ==>
        info.effects == if ApplyFresh in calls then [Applying(None)] else []
      ensures params.behavior == Destroy ==> info.effects == if ApplyFresh in calls then [Applying(None)] else []
    {
      hide StepsAre, Shows, Distinct, Isolated, Interleaves, Working, Shaped, WriteAll, FailWith, StepMachine.AdvanceStep,
           InRange, Fits, Hint, OverrideMessage, Attempted, Underway, Finished, Broken, Concluded, Fresh, StepOf;
      match params.behavior {
        case Apply => ExecuteApply();
        case Detect => ExecutePlan();
        case Destroy => ExecuteDestroy();
      }
      EndsConcluded();
      EffectsComeLast(params, info.asyncRun, calls);
      if params.behavior == Detect && info.model.run.status == Succeeded {
        assert |Required(params, info.asyncRun)| == 13 && UploadPlan in calls && RequireUploadUrl in calls;
      }
    }

    lemma ConcludedStream()
      requires Concluded()
      ensures info.Mirrors() && info.Shielded()
      ensures Stream(info.model.stream) && Terminal(Last(info.model).run.status)
    {
    }

    static lemma TheObserverStarts(stream: seq<Publication>, async: bool)
      requires Stream(stream) && Terminal(stream[|stream| - 1].run.status) && stream[0].run.status == InProgress
      ensures Observer.Start(Observer.Beginning(stream, async))
    {
    }

    /** Before the work routine: nothing but the bare IN_PROGRESS status has been reported. */
    ghost predicate Unstarted()
      reads this, info, info.runStatus, info.logwrap, info.runStatus.steps, info.shared
    {
      && cmd.info == info && calls == [] && info.effects == []
      && info.Mirrors() && info.Shielded() && info.shared == {}
      && info.model == Initial(info.model.run.runId, info.asyncRun)
    }

    /** Registers the run and executes it. Whatever happens, it publishes a stream as the observer
        expects it: in order, from IN_PROGRESS to a terminal status. Without registration that is
        FAILED, and nothing is called. */
    method WorkRoutine(registered: bool)
      requires Unstarted()
      modifies this, info, info.logwrap, info.runStatus
      ensures info.Mirrors() && info.Shielded()
      ensures Stream(info.model.stream) && Terminal(Last(info.model).run.status)
      ensures old(info.model.stream) <= info.model.stream && info.model.stream[0].run.status == InProgress
      ensures !registered ==> calls == [] && Last(info.model).run.status == Failed && Last(info.model).run.steps == []
      ensures Observer.Start(Observer.Beginning(info.model.stream, info.asyncRun))
      ensures registered ==> Concluded()
    {
      hide Shows, Isolated, Interleaves, Stream, Steady, Shaped, Follows, Concluded, Observer.Start;
      info.InitRunSteps(StepNames(params, info.asyncRun));
      if !registered {
        ReportFailedEnds(info.model);
        info.ReportFailed();
      } else {
        Execute();
        ConcludedStream();
      }
      TheObserverStarts(info.model.stream, info.asyncRun);
    }

    /** The status the observer reports at the end of a registered run: ABORTED iff meshStack
        asked for it, else FAILED iff some required call fails; an asynchronous run that worked
        goes on. */
    lemma TheFinalStatusTellsWhatHappened(run: seq<Observer.State>)
      requires Concluded()
      requires Observer.Execution(run) && run[0] == Observer.Beginning(info.model.stream, info.asyncRun)
      requires run[|run| - 1].finals != []
      ensures var s := run[|run| - 1];
        s.finals[0].status ==
          if Observer.AbortAnswered(s) then Aborted
          else if !AllWork(world, params, Required(params, info.asyncRun)) then Failed
          else if info.asyncRun then InProgress
          else Succeeded
    {
      hide StepsAre, Isolated, Required, Stream, AllWork, Wrote, LinesOf, LastText, FailureText, StepOf, Visited,
           Observer.AbortAnswered, SucceedsAfter, Interleaves;
      Observer.ExecutionKeepsInv(run);
      Observer.EveryRunEndsWithOneFinalStatus(run);
    }
  }
}
