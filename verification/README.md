# Building block runners: a verified model

The runners of this repository claim runs from meshStack, execute them with OpenTofu, Azure DevOps or
GitHub, and report a stream of statuses back. This project models the parts where that can go wrong:
who may change a status while somebody else reads it, which calls were made when one of them failed,
what meshStack has applied when an answer is lost, and which inputs end up where. `dafny verify
dfyconfig.toml` checks all of it.

| file | models |
|---|---|
| `Snapshots.dfy` | one published status, how one may follow another, and how step messages cut the log |
| `StepMachine.dfy` | the step machine of a run as a function of its state, and the invariant of every operation |
| `LiveStatus.dfy` | the status objects in memory, the log wrapper, and the copies the observer holds |
| `UpdateLog.dfy` | what the update log holds after failed writes |
| `Failures.dfy` | what a failed run tells its user and its log |
| `Trace.dfy` | publications, applies and uploads of a run in one order |
| `TfCmd.dfy` | the operations of the generic Terraform command on those objects |
| `TfCommands.dfy` | apply, plan and destroy against external calls that may all fail |
| `Observer.dfy` | heartbeats, abort and final status beside the work routine, in every interleaving |
| `Manager.dfy` | the token protocol between manager and worker, and its shutdown |
| `MeshStackRetry.dfy`, `Pollers.dfy` | the Kotlin retry, and what meshStack applies of an Azure DevOps or GitHub run |
| `VarsFile.dfy`, `TerraformVars.dfy` | inputs to files, environment and Terraform variables |
| `JobCreation.dfy`, `RunController.dfy` | jobs and secrets in the cluster, and the capacity of the run controller |
| `TokenCache.dfy` | the API key interceptor's cached token under any number of threads |
| `Envelope.dfy` | the framing of encrypted inputs, Go against Kotlin |

Code that changes objects step by step is modelled by classes and loops; every such method is proved
equal to a function of the old state, and the properties are lemmas about that function. Protocols
between goroutines or threads are step relations, and their properties hold for every finite execution.
External calls, clocks and the network are parameters: a theorem about a parameter is a theorem about
every pattern of failures.

## Main results

- Every published status is well-formed, later ones never contradict earlier ones, and a copy once
  handed out never changes: `StepMachine.AdvanceStepKeepsInv`, `StepMachine.FailWithEnds`,
  `LiveStatus.RunContextInfo.PublishStatus`.
- The step messages partition the update log, and the log is the accepted texts:
  `Snapshots.MessagesPartitionTheLog`, `UpdateLog.MessagesAreTheAcceptedTexts`.
- For every failure pattern an execution ends with a terminal status, after exactly the calls up to
  the first failure, with every step on the way published and exactly what was written in the log; a
  success is published only after all its effects, and no call is made before what it needs has
  worked: `TfCommands.TfCommand.Execute`, `TfCommands.NothingHappensTooEarly`.
- In every interleaving meshStack gets heartbeats and one final status that tells what happened:
  `Observer.EveryRunEndsWithOneFinalStatus`, `TfCommands.TfCommand.TheFinalStatusTellsWhatHappened`.
  A tick while the run goes on sends exactly one heartbeat: `Observer.ATickSendsAHeartbeat`.
- One token, no blocked send, and a shutdown that terminates: `Manager.OneTokenAndNoBlockedSend`,
  `Manager.ShutdownTerminates`. Until then every round comes back after the wait that belongs to its
  fetch: `Manager.ARoundComesBack`.
- At most 24 attempts in ten minutes: `MeshStackRetry.Call`, `MeshStackRetry.AtMost24Tries`.
- SUCCEEDED of an Azure DevOps or GitHub run is that of the remote run. If meshStack has not applied
  what it rejects for good, no terminal status is contradicted, not even by a second pod of the job;
  without that assumption the exact condition is proved: `Pollers.ProcessAzureBlock`,
  `Pollers.ProcessGithubBlock`, `Pollers.ContradictionIff`, `Pollers.RunAzureJob`, `Pollers.RunGithubJob`.
- Every input has one fate and reaches Terraform with its value, and a replayed plan sees the
  variables it was made with:
  `TerraformVars.WorkingDirectory.SaveInputFiles`, `TerraformVars.Vars`,
  `TerraformVars.AnInputReachesTerraform`, `TerraformVars.PlanAndReplayAgree`.
- Every raw expression sets its variable exactly once, to what the parser that applies makes of it:
  `VarsFile.VarsFile.AddRawVariable`, `VarsFile.ARawExpressionIs`.
- A dispatch leaves one job that owns its secrets, or no secret:
  `JobCreation.Cluster.CreateRunnerJob`, `JobCreation.AJobOwnsItsSecrets`, `JobCreation.AFailureLeavesNoSecret`.
- Never more runs in flight than the limit, and every tick fills the room there is:
  `RunController.Controller.DrainRuns`, `RunController.Controller.Run`, `RunController.Controller.AFullCycle`.
- Logins are spaced, and a returned token was unexpired inside the call or obtained by it:
  `TokenCache.LoginsAreSpaced`, `TokenCache.ReturnedTokensAreEarned`.
  A call throws only if its own login failed: `TokenCache.AThrowComesFromAFailedLogin`.
- What Go encrypts both sides open, Kotlin if the modulus is a whole number of bytes: `Envelope.EncryptMeshCertBased`, `Envelope.TheSidesAgree`.

## Where the code falls short

For each of these the exact condition is proved, with an input at which it shows:

- The log shows other bytes than the accepted texts exactly on a disk where a write succeeds after one
  that failed half-way (`UpdateLog.LogIsTheAcceptedTextsIff`, `UpdateLog.ATornWriteShiftsTheLog`).
- A status update that is raised as a plain failure may have been applied, exactly if its first attempt
  was applied and rejected for good, for instance committed and answered with 500
  (`Pollers.RaisedAfterArrivalIff`, `Pollers.AnUpdateCanArriveAndBeRaised`). A run contradicts itself
  exactly if that happens to its SUCCEEDED and an attempt of the FAILED after it is applied
  (`Pollers.ContradictionIff`, `Pollers.AContradictedSuccess`).
- A claimed run that cannot be decrypted gets no report, although no runner will report for it
  (`RunController.Controller.ProcessNextRun`, `RunController.ARunThatDoesNotDecrypt`).
- A failed dispatch leaves the run's job without a secret it mounts exactly if the job is there all the
  same, because its lookup failed or the answer to its creation was lost, and the deletion of the secret
  got through (`JobCreation.AFailureLeavesTheJobEquippedIff`, `JobCreation.ALostAnswerTakesTheSecretsOfTheJob`,
  `JobCreation.AMissedJobLosesItsDocument`).
- A failed dispatch leaves a secret exactly if a create took effect without an answer or a deletion was
  refused (`JobCreation.LeavesSecretsIff`, `JobCreation.ALostAnswerLeavesTheDocument`).
- An input named like one of the three meshStack variables is overwritten where meshStack writes that
  variable (`TerraformVars.InputsSurviveUnlessReserved`,
  `TerraformVars.AnInputCalledLikeTheBuildingBlockIdIsLost`), and a `TF_VAR_` input gives way even to an
  input that sets no Terraform variable (`TerraformVars.ShadowedVariableIsSetIff`,
  `TerraformVars.AnEnvironmentVariableShadowsAndSetsNothing`).
- Kotlin divides the modulus length by eight and rounds down, Go rounds up: Kotlin opens what Go
  encrypted exactly if the length is a multiple of eight (`Envelope.EncryptMeshCertBased`,
  `Envelope.KotlinRejectsAnOddModulus`).
- The token cache offers only tokens the server still accepts, exactly if the login took no longer than
  the buffer allows (`TokenCache.CachedTokensAreAcceptedIff`, `TokenCache.ASlowLoginOffersARejectedToken`).

## Model

| member | source | states |
|---|---|---|
| Snapshots.FollowsIsTransitive | tf-block-runner/tfrun/runcontextinfo.go:69-79 | statuses in order stay in order whatever the observer skips between two reads |
| Snapshots.ExtendStream | tf-block-runner/tfrun/runcontextinfo.go:69-73 | a status that follows the last one follows all before: pointer never back, terminal statuses and finished steps frozen |
| Snapshots.JoinedPrefix | tf-block-runner/tfrun/tfcmd.go:806-839 | the messages of finished steps, joined, are the log up to where the next step starts |
| Snapshots.MessagesPartitionTheLog | tf-block-runner/tfrun/tfcmd.go:806-839 | the messages of steps 0..current, joined, are exactly the log file up to the log size: no gap, no overlap |
| UpdateLog.WritesAreAccepted | tf-block-runner/tfrun/logwrapper.go:35-45 | the accepted log is every completely written text, in order |
| UpdateLog.MoreIsWritten | tf-block-runner/tfrun/logwrapper.go:35-45 | the texts of all writes so far, known before a series, are known after it |
| UpdateLog.SteppingWritesNothing | tf-block-runner/tfrun/tfcmd.go:850-873 | starting, advancing and completing write nothing to the log |
| UpdateLog.FailingWritesTheFailure | tf-block-runner/tfrun/tfcmd.go:105-143 | failing writes the failure lines and nothing else |
| UpdateLog.MessagesAreTheAcceptedTexts | tf-block-runner/tfrun/logwrapper.go:35-45 | unless a write was appended to the remains of a failed one, every published status shows a prefix of the accepted texts, and the last all of them |
| UpdateLog.LogIsTheAcceptedTextsIff | tf-block-runner/tfrun/logwrapper.go:35-45 | the log is the accepted texts, whatever they are, iff no write succeeds after one that failed half-way |
| UpdateLog.ATornWriteShiftsTheLog | tf-block-runner/tfrun/logwrapper.go:35-45 | one byte of "AB", then all of "CD": the log is "AC" |
| StepMachine.PublishKeepsInv | tf-block-runner/tfrun/tfcmd.go:846-848 | publishing a refreshed status keeps the stream in order and shows the live status |
| StepMachine.SlicesAreKept | tf-block-runner/tfrun/tfcmd.go:806-816 | slices already shown stay right when the log grows or the pointer moves |
| StepMachine.SetMessageKeepsInv | tf-block-runner/tfrun/tfcmd.go:806-816 | a message refresh shows the current slice and keeps every published promise |
| StepMachine.SetMessageIsSound | tf-block-runner/tfrun/tfcmd.go:806-816 | the refreshed message is the log from the step's start to its end, or empty after a failed read |
| StepMachine.AppendIsSound | tf-block-runner/tfrun/logwrapper.go:35-45 | a log write, complete or short, never moves the slices of earlier steps |
| StepMachine.WriteKeepsInv | tf-block-runner/tfrun/logwrapper.go:35-51 | a write with the publishing callback in place keeps the stream in order |
| StepMachine.WriteAllKeepsInv | tf-block-runner/tfrun/logwrapper.go:35-51 | any number of tofu writes keeps the stream in order, the run status and the step pointer |
| StepMachine.AWriteIsPublished | tf-block-runner/tfrun/tfcmd.go:346-351 | once the callback is set a complete write is published at once, with the message cut anew; otherwise nothing is |
| StepMachine.EveryLineIsPublished | tf-block-runner/tfrun/tfcmd.go:346-351 | one publication for every line that gets written, and none without the callback |
| StepMachine.CollectOutputsKeepsInv | tf-block-runner/tfrun/tfcmd.go:358-388 | recording outputs touches only the current step |
| StepMachine.ChangesDetectedKeepsInv | tf-block-runner/tfrun/tfplan.go:158-164 | recording detected changes disturbs nothing published |
| StepMachine.StartRunEstablishesInv | tf-block-runner/tfrun/tfcmd.go:850-856 | a run with fresh steps starts in order, in the first step, and that is published |
| StepMachine.NextStepMoves | tf-block-runner/tfrun/tfcmd.go:818-839 | the step is SUCCEEDED, the next IN_PROGRESS and its slice starts at the end of the log |
| StepMachine.MovingKeepsShape | tf-block-runner/tfrun/tfcmd.go:818-839 | after a move everything before the pointer is SUCCEEDED, after it PENDING, and earlier slices end where they did |
| StepMachine.NextStepIsSound | tf-block-runner/tfrun/tfcmd.go:818-839 | a move follows what was published and leaves all messages fresh |
| StepMachine.AdvanceStepKeepsInv | tf-block-runner/tfrun/tfcmd.go:858-864 | a step forward publishes exactly one status, the new present: the pointer one further, the step that is left SUCCEEDED with its slice, the next IN_PROGRESS; in an async run the pointer stays; if every step up to the pointer was published before, so it is after |
| StepMachine.AdvancingShows | tf-block-runner/tfrun/tfcmd.go:806-864 | the message given to a step forward stands in the step that is left |
| StepMachine.WritingKeepsResults | tf-block-runner/tfrun/logwrapper.go:35-51 | tofu's output changes no outputs and no detected changes |
| StepMachine.CompletingKeepsResults | tf-block-runner/tfrun/tfcmd.go:866-873 | nor does completing |
| StepMachine.CompletingIsSound | tf-block-runner/tfrun/tfcmd.go:866-873 | completing on the last step leaves every step SUCCEEDED |
| StepMachine.CompleteRunEnds | tf-block-runner/tfrun/tfcmd.go:866-873 | on the last step completing publishes SUCCEEDED with the whole log |
| StepMachine.FailingKeepsShape | tf-block-runner/tfrun/runstatus.go:55-65 | failing marks all steps from the current one FAILED and moves no slice up to it |
| StepMachine.FailRunIsSound | tf-block-runner/tfrun/runstatus.go:55-65 | failing contradicts no published status |
| StepMachine.FailWithEnds | tf-block-runner/tfrun/tfcmd.go:105-143 | whatever the error and however the context ended, FAILED is published last, with the failure lines in the log |
| Failures.ExitStatusesAreExplained | tf-block-runner/tfrun/tfcmd.go:118-123 | a bare exit status gets a sentence around it, any other error is shown as it is |
| Failures.AFailureIsExplained | tf-block-runner/tfrun/tfcmd.go:105-143 | the failed step tells the user the override message if there is one, else why the context ended, else the error |
| Failures.LaterStepsAreAborted | tf-block-runner/tfrun/runstatus.go:55-65 | every later step is FAILED and says that an earlier one failed |
| Failures.FailureLinesAreAccepted | tf-block-runner/tfrun/tfcmd.go:105-143 | the lines of a failure as the log gets them: the error, then why the context ended |
| Failures.AFailureIsLogged | tf-block-runner/tfrun/tfcmd.go:105-143 | after failing the log holds what it held and those lines |
| StepMachine.NoSuccessBeforeFailure | tf-block-runner/tfrun/tfcmd.go:105-143 | a run that ended in failure never published SUCCEEDED |
| StepMachine.ReportFailedEnds | tf-block-runner/tfrun/runcontextinfo.go:81-85 | a failed registration ends the stream with FAILED |
| StepMachine.NothingTerminalBefore | tf-block-runner/tfrun/tfplan.go:183-190 | while a run works, every status published so far is IN_PROGRESS |
| Trace.NothingFollowsASuccess | tf-block-runner/tfrun/tfplan.go:183-190 | an upload or apply after a published success breaks that order |
| Trace.SuccessComesAfter | tf-block-runner/tfrun/tfplan.go:183-190 | what is published as SUCCEEDED after the effects so far stands after all of them in the one order of events |
| LiveStatus.StepStatus.Copy | tf-block-runner/tfrun/runstatus.go:69-77 | a step copy shows what the step shows |
| LiveStatus.RunStatus.CurrentStepStatus | tf-block-runner/tfrun/runstatus.go:29-35 | the step under the pointer, or none outside the steps |
| LiveStatus.RunStatus.FirstStep | tf-block-runner/tfrun/runstatus.go:37-44 | moves to the first step exactly if there is one |
| LiveStatus.RunStatus.NextStep | tf-block-runner/tfrun/runstatus.go:46-53 | moves on exactly if a step is left |
| LiveStatus.RunStatus.FailRunAndNotFinishedSteps | tf-block-runner/tfrun/runstatus.go:55-65 | the in-place loop leaves exactly the failed run of the step machine |
| LiveStatus.RunStatus.Clone | tf-block-runner/tfrun/runstatus.go:67-78 | the copy shows the same run and shares no step with it |
| LiveStatus.OneStepChanged | tf-block-runner/tfrun/runstatus.go:19-27 | changing one step in place changes exactly that step of the run |
| LiveStatus.LogWrap.Append | tf-block-runner/tfrun/logwrapper.go:35-45 | the log size counts completely written text only |
| LiveStatus.LogWrap.FileContentOrEmpty | tf-block-runner/tfrun/worker.go:279-286 | the slice of the file, or nothing if it cannot be read |
| LiveStatus.IsolateOneMore | tf-block-runner/tfrun/runcontextinfo.go:69-79 | one more published copy disturbs none held before |
| LiveStatus.RunContextInfo.constructor | tf-block-runner/tfrun/runcontextinfo.go:33-67 | the first report is IN_PROGRESS without steps and shares nothing with the live status |
| LiveStatus.RunContextInfo.PublishStatus | tf-block-runner/tfrun/runcontextinfo.go:69-73 | every copy held so far still shows what it showed; the new one shows the live status and none of its steps can be reached by the run |
| LiveStatus.RunContextInfo.Record | tf-block-runner/tfrun/tfplan.go:183-190 | an apply or upload takes its place between the statuses published before and after it |
| LiveStatus.RunContextInfo.SetRunStatus | tf-block-runner/tfrun/tfcmd.go:841-844 | only the run status changes |
| LiveStatus.RunContextInfo.ReportedStatus | tf-block-runner/tfrun/runcontextinfo.go:75-79 | the observer gets the last published status |
| LiveStatus.RunContextInfo.ReportFailed | tf-block-runner/tfrun/runcontextinfo.go:81-85 | only the reported status becomes FAILED; copies held before stay |
| LiveStatus.RunContextInfo.InitRunSteps | tf-block-runner/tfrun/tfapply.go:30-103 | fresh PENDING steps, none shared with a published copy |
| TfCmd.GenericTfCmd.SetCurrentStepStatus | tf-block-runner/tfrun/tfcmd.go:799-804 | the live objects do what the step machine does, published copies stay |
| TfCmd.GenericTfCmd.SetCurrentStepMessage | tf-block-runner/tfrun/tfcmd.go:806-816 | as above, for the message of the current step |
| TfCmd.GenericTfCmd.Println | tf-block-runner/tfrun/tfcmd.go:346-351 | as above, for one write with the callback of assignOutput |
| TfCmd.GenericTfCmd.PrintAll | tf-block-runner/tfrun/logwrapper.go:35-61 | as above, for any number of writes |
| TfCmd.GenericTfCmd.AdvanceStep | tf-block-runner/tfrun/tfcmd.go:858-864 | as above, for a step forward |
| TfCmd.GenericTfCmd.NextStep | tf-block-runner/tfrun/tfcmd.go:818-839 | as above, for the move itself |
| TfCmd.GenericTfCmd.StartRun | tf-block-runner/tfrun/tfcmd.go:850-856 | as above, for the start |
| TfCmd.GenericTfCmd.CompleteRun | tf-block-runner/tfrun/tfcmd.go:866-873 | as above, for success |
| TfCmd.GenericTfCmd.FailWithUserMsg | tf-block-runner/tfrun/tfcmd.go:105-143 | as above, for failure, with the message the user gets |
| TfCmd.GenericTfCmd.CollectOutput | tf-block-runner/tfrun/tfcmd.go:358-388 | as above, for outputs |
| TfCommands.StoppedAtTheFirstFailure | tf-block-runner/tfrun/tfapply.go:105-196 | a prefix that works up to its failing last call is exactly what one attempts |
| TfCommands.NothingHappensTooEarly | tf-block-runner/tfrun/tfapply.go:105-196 | no call before everything it needs has worked: no change before the pre-run script has worked, no plan applied before its download was complete, no upload before the plan was read |
| TfCommands.EffectsComeLast | tf-block-runner/tfrun/tfapply.go:166-181 | an apply or upload is attempted only after all preparation, and a saved plan only after the whole download |
| TfCommands.TheLastCallIsInTheLastStep | tf-block-runner/tfrun/tfapply.go:30-103 | the step names of a run end with the step of its last call |
| TfCommands.TfCommand.Fail | tf-block-runner/tfrun/tfcmd.go:96-143 | a failing call ends the run FAILED in the step it belongs to, with exactly the log lines and message of the failure |
| TfCommands.TfCommand.Attempt | tf-block-runner/tfrun/tfplan.go:135-139 | a call works, its output is in the log and the run goes on, or the run has ended FAILED with its error |
| TfCommands.TfCommand.WhatTheRunnerAdds | tf-block-runner/tfrun/tfplan.go:135-137 | the hint goes with a failing init of a plan or destroy, and only the pre-run script has a message of its own |
| TfCommands.TfCommand.AssignOutput | tf-block-runner/tfrun/tfcmd.go:346-351 | from here on tofu's output publishes |
| TfCommands.TfCommand.Log | tf-block-runner/tfrun/logwrapper.go:35-51 | the lines are in the log after what was there, each published if the callback is set |
| TfCommands.TfCommand.TofuApply | tf-block-runner/tfrun/tfapply.go:233-240 | one apply, of what it is given, begun before its result is known |
| TfCommands.TfCommand.RunScript | tf-block-runner/tfrun/tfapply.go:158-164 | the script's message stands in its step, whether it works or fails |
| TfCommands.TfCommand.Prepare | tf-block-runner/tfrun/tfapply.go:105-161 | the nine preparing calls in order and four steps forward, or a failed run; the script step shows the message of the script |
| TfCommands.TfCommand.FetchPlan | tf-block-runner/tfrun/tfapply.go:216-231 | the plan file holds the whole artifact, or the run has failed |
| TfCommands.TfCommand.ApplyChange | tf-block-runner/tfrun/tfapply.go:166-181 | one apply, of the whole downloaded plan if there is one, else of the sources |
| TfCommands.TfCommand.MakePlan | tf-block-runner/tfrun/tfplan.go:157-181 | the plan is made and read before anything is uploaded, and its changes are recorded |
| TfCommands.TfCommand.UploadArtifact | tf-block-runner/tfrun/tfplan.go:183-190 | the upload is begun and, if it works, done, with nothing but IN_PROGRESS published before and during it |
| TfCommands.TfCommand.ReportOutputs | tf-block-runner/tfrun/tfdestroy.go:183-195 | outputs are read and recorded in the last step, and the run ends |
| TfCommands.TfCommand.ExecuteApply | tf-block-runner/tfrun/tfapply.go:105-196 | ends for every failure pattern; at most one apply, and of what |
| TfCommands.TfCommand.ExecutePlan | tf-block-runner/tfrun/tfplan.go:94-191 | ends for every failure pattern; the one upload is of the plan made, and SUCCEEDED stands after it |
| TfCommands.TfCommand.ExecuteDestroy | tf-block-runner/tfrun/tfdestroy.go:105-195 | ends for every failure pattern; applies first only in an async run |
| TfCommands.TfCommand.EndsConcluded | tf-block-runner/tfrun/tfcmd.go:829-839 | an ended run stands in the step of its last call: no step is missing on the way |
| TfCommands.TfCommand.Execute | tf-block-runner/tfrun/tfapply.go:105-196 | terminal status published, SUCCEEDED iff every required call works and then with the outputs or changes found, after exactly the calls up to the first failure; every step up to the last was published; the log got what the calls have written, in order, then the failure or what deleting the workspace writes; in the order of events every SUCCEEDED stands after the applies and uploads of the run, for a dry run after exactly one successful upload of its plan |
| TfCommands.TfCommand.WorkRoutine | tf-block-runner/tfrun/worker.go:137-185 | registered or not, an ordered stream from IN_PROGRESS to a terminal status: one the observer can start from |
| TfCommands.TfCommand.TheFinalStatusTellsWhatHappened | tf-block-runner/tfrun/worker.go:137-252 | in every interleaving the final status is ABORTED iff an answer asked for it, else FAILED iff a required call fails, else SUCCEEDED, or IN_PROGRESS for an async run |
| Observer.WorkKeepsInv | tf-block-runner/tfrun/worker.go:189-211 | publishing and reading interleave freely |
| Observer.BeatKeepsAnswers | tf-block-runner/tfrun/worker.go:212-221 | an abort is requested iff some answer asked for it |
| Observer.BeatKeepsInv | tf-block-runner/tfrun/worker.go:208-223 | a heartbeat carries a published IN_PROGRESS status not older than the ones before |
| Observer.FinalKeepsInv | tf-block-runner/tfrun/worker.go:228-252 | retries repeat one and the same final status |
| Observer.StepKeepsInv | tf-block-runner/tfrun/worker.go:187-252 | every step of either routine keeps the protocol |
| Observer.ExecutionKeepsInv | tf-block-runner/tfrun/worker.go:187-252 | so does every interleaving |
| Observer.EveryRunEndsWithOneFinalStatus | tf-block-runner/tfrun/worker.go:139-252 | IN_PROGRESS heartbeats, then one final status after the work is done: ABORTED iff an answer asked for it, IN_PROGRESS for a successful async run, never PENDING |
| Observer.AHeartbeatWaits | tf-block-runner/tfrun/worker.go:208-221 | a heartbeat on its way stays what it is, whatever is published meanwhile |
| Observer.ATickSendsAHeartbeat | tf-block-runner/tfrun/worker.go:208-221 | while the last published status is not terminal, a tick and its answer are exactly one heartbeat with the status of the tick, and an abort answer is heeded |
| Observer.TheObserverCanTick | tf-block-runner/tfrun/worker.go:208-221 | a watching observer can always do so |
| Observer.ATickAfterTheEndSendsNothing | tf-block-runner/tfrun/worker.go:208-223 | no heartbeat for a terminal status |
| Observer.TheFinalStatusIsNeverBlocked | tf-block-runner/tfrun/worker.go:225-252 | once the work is done the observer can always move on, and an answer that is not transient brings it nearer to its end |
| Observer.ATransientFailureIsRetried | tf-block-runner/tfrun/worker.go:228-252 | after a transient failure the same final status is sent again |
| Observer.TheWorkIsNeverBlocked | tf-block-runner/tfrun/runcontextinfo.go:69-79 | the work routine can always publish its next status or, after the last, be done: it waits for no reader |
| Observer.TheObserverNeverGoesBack | tf-block-runner/tfrun/worker.go:187-252 | no step takes the observer away from its end |
| Observer.SentStatusesFollowEachOther | tf-block-runner/tfrun/worker.go:187-252 | the statuses as sent never go back behind one another |
| Manager.StepKeepsInv | tf-block-runner/tfrun/manager.go:59-138 | no reachable step panics or loses the token |
| Manager.ExecutionKeepsInv | tf-block-runner/tfrun/manager.go:59-138 | nor does any execution |
| Manager.OneTokenAndNoBlockedSend | tf-block-runner/tfrun/manager.go:85-133 | exactly one token while the manager runs; every send finds room; no unknown token reaches the worker |
| Manager.AtMostOneLateFetch | tf-block-runner/tfrun/manager.go:119-138 | after Stop at most one more fetch begins |
| Manager.FetchesKeepTheDelay | tf-block-runner/tfrun/worker.go:68-93 | no fetch before the delay of the last answer has passed |
| Manager.ShutdownMakesProgress | tf-block-runner/tfrun/manager.go:85-133 | after Stop every step except time's brings the shutdown nearer |
| Manager.ShutdownIsNeverStuck | tf-block-runner/tfrun/manager.go:85-133 | until both loops have ended some step is possible without waiting for the clock |
| Manager.ShutdownTerminates | tf-block-runner/tfrun/manager.go:59-138 | no execution after Stop takes more than 19 steps besides the clock's, and taking all means both loops ended |
| Manager.WaitsAre | tf-block-runner/tfrun/worker.go:68-93 | ten seconds after no run, a conflict or a broken transfer, a minute after any other error, none after a run |
| Manager.TheManagerHandsOut | tf-block-runner/tfrun/manager.go:85-133 | from an answer through its wait to the next work token |
| Manager.ARoundComesBack | tf-block-runner/tfrun/manager.go:85-133 | however a fetch ends, the token is back at the worker as soon as the wait that belongs to it is over, and nothing else has changed |
| MeshStackRetry.Delay | block-runner-core/src/main/kotlin/io/meshcloud/buildingblocks/runner/runclient/MeshStackRetry.kt:57-65 | pauses lie between one second and thirty |
| MeshStackRetry.Call | block-runner-core/src/main/kotlin/io/meshcloud/buildingblocks/runner/runclient/MeshStackRetry.kt:19-46 | tries until the first success, lasting failure or lack of time, and classifies by the last attempt |
| MeshStackRetry.WaitedAddsUp | block-runner-core/src/main/kotlin/io/meshcloud/buildingblocks/runner/runclient/MeshStackRetry.kt:40-43 | the doubled pauses add up to 1, 3, 7, 15, 31 s and 30 s more each time |
| MeshStackRetry.BeginsNoEarlier | block-runner-core/src/main/kotlin/io/meshcloud/buildingblocks/runner/runclient/MeshStackRetry.kt:19-46 | an attempt begins no earlier than the pauses allow, and exactly then if attempts take no time |
| MeshStackRetry.BeginsBeforeTheDeadline | block-runner-core/src/main/kotlin/io/meshcloud/buildingblocks/runner/runclient/MeshStackRetry.kt:20-30 | every attempt begins before ten minutes are over |
| MeshStackRetry.AtMost24Tries | block-runner-core/src/main/kotlin/io/meshcloud/buildingblocks/runner/runclient/MeshStackRetry.kt:19-46 | at most 24 attempts, however long they take |
| MeshStackRetry.TwentyFourTriesHappen | block-runner-core/src/main/kotlin/io/meshcloud/buildingblocks/runner/runclient/MeshStackRetry.kt:19-46 | the bound is reached |
| MeshStackRetry.GivesUpLate | block-runner-core/src/main/kotlin/io/meshcloud/buildingblocks/runner/runclient/MeshStackRetry.kt:28-30 | a transient failure is given up on after 570 s at the earliest |
| MeshStackRetry.UnknownIffRetried | block-runner-core/src/main/kotlin/io/meshcloud/buildingblocks/runner/runclient/MeshStackRetry.kt:30-37 | the outcome is unknown iff the flag is set and a retry failed; else the last failure is raised as it is, or the request returned |
| MeshStackRetry.AnOutageIsOutlasted | block-runner-core/src/main/kotlin/io/meshcloud/buildingblocks/runner/runclient/MeshStackRetry.kt:48-65 | a request outlasts an outage of nine minutes with 423, 502, 503, 504 or broken connections |
| MeshStackRetry.OtherFailuresAreFinal | block-runner-core/src/main/kotlin/io/meshcloud/buildingblocks/runner/runclient/MeshStackRetry.kt:48-52 | any other status or failure ends the request at the first attempt |
| MeshStackRetry.TriesAreUnique | block-runner-core/src/main/kotlin/io/meshcloud/buildingblocks/runner/runclient/MeshStackRetry.kt:19-46 | the answers and their durations determine the number of attempts |
| Pollers.ArrivalsAreCopies | block-runner-core/src/main/kotlin/io/meshcloud/buildingblocks/runner/runclient/HttpBlockRunClient.kt:88-95 | retries apply copies of the one update, and some copy iff some attempt is applied |
| Pollers.RaisedAfterArrivalIff | block-runner-core/src/main/kotlin/io/meshcloud/buildingblocks/runner/runclient/HttpRunTokenRunClientFactory.kt:33-46 | with attempts cut off after 30 s, a failure is raised as it is although the update arrived iff the first attempt was applied and rejected for good |
| Pollers.RaisedAfterArrivalWithoutTimeoutIff | block-runner-core/src/main/kotlin/io/meshcloud/buildingblocks/runner/runclient/MeshStackRetry.kt:27-38 | without the timeout, also iff a first attempt that was applied hung until the retry gives up |
| Pollers.AnUpdateCanArriveAndBeRaised | block-runner-core/src/main/kotlin/io/meshcloud/buildingblocks/runner/runclient/MeshStackRetry.kt:27-38 | such an update: meshStack commits it and answers 500 |
| Pollers.RunClient.UpdateBlockRun | block-runner-core/src/main/kotlin/io/meshcloud/buildingblocks/runner/runclient/HttpBlockRunClient.kt:73-96 | the log grows by this update, with the attempts and the result its calls determine |
| Pollers.OneMoreUpdate | block-runner-core/src/main/kotlin/io/meshcloud/buildingblocks/runner/runclient/HttpBlockRunClient.kt:73-96 | one more series of attempts keeps the log the record of the calls |
| Pollers.RaisedLeavesNothing | block-runner-core/src/main/kotlin/io/meshcloud/buildingblocks/runner/runclient/MeshStackRetry.kt:27-38 | if rejections can be trusted and every end that was sent was raised, none was applied |
| Pollers.ReturnedIsApplied | block-runner-core/src/main/kotlin/io/meshcloud/buildingblocks/runner/runclient/HttpBlockRunClient.kt:88-95 | an update that returned was applied last |
| Pollers.ContradictionIff | azure-devops-block-runner/src/main/kotlin/io/meshcloud/buildingblocks/runner/azuredevops/AzureDevOpsPipelinePoller.kt:69-77 | a concluded run contradicts itself iff its final status is SUCCEEDED, the first attempt of that is applied and rejected for good, and some attempt of the FAILED after it is applied |
| Pollers.ConcludedIsSafe | azure-devops-block-runner/src/main/kotlin/io/meshcloud/buildingblocks/runner/azuredevops/AzureDevOpsPipelinePoller.kt:69-77 | that condition, no contradiction if rejections can be trusted, and then no end applied before a plain exception |
| Pollers.FailureIsSafe | azure-devops-block-runner/src/main/kotlin/io/meshcloud/buildingblocks/runner/azuredevops/AzureDevOpsBlockRunnerService.kt:35-57 | the same for a run that fails before it is polled |
| Pollers.Conclude | azure-devops-block-runner/src/main/kotlin/io/meshcloud/buildingblocks/runner/azuredevops/AzureDevOpsPipelinePoller.kt:69-77 | sends the final status, and FAILED after it exactly if that was raised; then the run is safe in the sense above |
| Pollers.TheLastAnswerCounts | azure-devops-block-runner/src/main/kotlin/io/meshcloud/buildingblocks/runner/azuredevops/AzureDevOpsPipelinePoller.kt:46-65 | the run as last seen is that of the last answered poll, whatever failed after it |
| Pollers.OneMoreRound | azure-devops-block-runner/src/main/kotlin/io/meshcloud/buildingblocks/runner/azuredevops/AzureDevOpsPipelinePoller.kt:46-65 | what one round adds to the progress sent |
| Pollers.CountIsTheNumber | github-block-runner/src/main/kotlin/io/meshcloud/buildingblocks/runner/github/GitHubBlockRunnerService.kt:280-316 | counting rounds by recursion gives their number |
| Pollers.NewsAre | github-block-runner/src/main/kotlin/io/meshcloud/buildingblocks/runner/github/GitHubBlockRunnerService.kt:280-316 | the rounds that send progress are those whose jobs could be read and had changed |
| Pollers.PollPipelineCompletion | azure-devops-block-runner/src/main/kotlin/io/meshcloud/buildingblocks/runner/azuredevops/AzureDevOpsPipelinePoller.kt:21-78 | the status sent is that of the last answered poll if it has completed, and FAILED otherwise, after more than half an hour; before it progress for every answered round with a timeline, none for a round without answer, and if no update fails exactly for the rounds with a timeline or another state; all time goes into polls and updates; a bounded number of rounds |
| Pollers.ProcessAzureBlock | azure-devops-block-runner/src/main/kotlin/io/meshcloud/buildingblocks/runner/azuredevops/AzureDevOpsBlockRunnerService.kt:18-72 | which updates are sent in which case, progress included, and how the run ends; safe; the final status is SUCCEEDED iff the last answered poll saw the pipeline completed and succeeded |
| Pollers.FindWorkflowRun | github-block-runner/src/main/kotlin/io/meshcloud/buildingblocks/runner/github/GitHubBlockRunnerService.kt:236-265 | the first workflow run found within twelve attempts, and the time that takes |
| Pollers.FollowWorkflow | github-block-runner/src/main/kotlin/io/meshcloud/buildingblocks/runner/github/GitHubBlockRunnerService.kt:280-316 | polls until the workflow has completed or half an hour has passed since the trigger, sends one update for each round with news, and returns the last answer |
| Pollers.PollWorkflowCompletion | github-block-runner/src/main/kotlin/io/meshcloud/buildingblocks/runner/github/GitHubBlockRunnerService.kt:224-341 | as for the pipeline, for the workflow run found within twelve attempts, with exactly how much progress is sent; FAILED if none of them finds it |
| Pollers.ReportTrigger | github-block-runner/src/main/kotlin/io/meshcloud/buildingblocks/runner/github/GitHubBlockRunnerService.kt:123-157 | a first status that is raised is followed by FAILED |
| Pollers.TriggerWorkflow | github-block-runner/src/main/kotlin/io/meshcloud/buildingblocks/runner/github/GitHubBlockRunnerService.kt:45-157 | which updates are sent before the poll, inside and outside the try block |
| Pollers.ProcessGithubBlock | github-block-runner/src/main/kotlin/io/meshcloud/buildingblocks/runner/github/GitHubBlockRunnerService.kt:29-173 | as for Azure DevOps |
| Pollers.RunAzureJob | block-runner-core/src/main/kotlin/io/meshcloud/buildingblocks/runner/SingleShotRunner.kt:39-54 | a second pod runs exactly after a plain exception; if rejections can be trusted it cannot contradict the first |
| Pollers.RunGithubJob | block-runner-core/src/main/kotlin/io/meshcloud/buildingblocks/runner/SingleShotRunner.kt:39-54 | the same for GitHub |
| Pollers.DecidedAtOnce | block-runner-core/src/main/kotlin/io/meshcloud/buildingblocks/runner/runclient/MeshStackRetry.kt:25-38 | an update whose first attempt is answered or rejected for good has no second |
| Pollers.AContradictedSuccess | azure-devops-block-runner/src/main/kotlin/io/meshcloud/buildingblocks/runner/azuredevops/AzureDevOpsPipelinePoller.kt:69-77 | a whole run: the pipeline succeeded, SUCCEEDED is committed and answered with 500, FAILED is applied after it |
| VarsFile.VarsFile.AddVariable | tf-block-runner/tfrun/tfcmd_vars.go:34-84 | sets the one attribute its fallbacks lead to, or none and an error; the recursion descends |
| VarsFile.VarsFile.AddRawVariable | tf-block-runner/tfrun/tfcmd_vars.go:86-125 | sets its attribute exactly once for every raw string and never fails: to the unmarshalled value, to the HCL value of a text that is no JSON, or to the text if the reading that applies fails |
| VarsFile.ARawExpressionIs | tf-block-runner/tfrun/tfcmd_vars.go:86-146 | a raw text is what it unmarshals to if it is valid JSON, else what it is as HCL, or the JSON text of that where a string is asked for; the text itself only if the reading that applies fails |
| VarsFile.AVariableIs | tf-block-runner/tfrun/tfcmd_vars.go:34-84 | a value becomes its JSON text, null, its text, its typed value, or what its JSON reads as |
| VarsFile.AListIsReadAsAList | tf-block-runner/tfrun/tfcmd_vars.go:127-138 | `["a","b"]` becomes the list, or its text where a string is asked for |
| VarsFile.JsonIsNeverReadAsHcl | tf-block-runner/tfrun/tfcmd_vars.go:127-146 | what valid JSON becomes does not depend on the HCL parser |
| VarsFile.EncodedVariablesAreStrings | tf-block-runner/tfrun/tfcmd_vars.go:34-58 | an encoded variable is always a string |
| VarsFile.LostIff | tf-block-runner/tfrun/tfcmd_vars.go:34-84 | exactly which values cannot be written |
| TerraformVars.EveryInputHasOneFate | tf-block-runner/tfrun/tfcmd.go:486-612 | one of file, environment, tfvars or shadowed, unless a file is marked as environment |
| TerraformVars.NoTwoInputsWriteOneVariable | tf-block-runner/tfrun/tfcmd.go:596-612 | the variable determines its input, however often names are prefixed |
| TerraformVars.BuildTfEnv | tf-block-runner/tfrun/tfcmd.go:471-527 | fails iff an input cannot be encoded; inputs over the system's variables, the run token over all |
| TerraformVars.TheEnvironmentHolds | tf-block-runner/tfrun/tfcmd.go:471-527 | the run token is the HTTP password, an input is there as JSON if it holds several values and as printed otherwise, everything else is the system's |
| TerraformVars.WorkingDirectory.SaveInputFile | tf-block-runner/tfrun/tfcmd.go:531-574 | one input: saved, refused, or none of its business; no other file changes |
| TerraformVars.WorkingDirectory.SaveInputFiles | tf-block-runner/tfrun/tfcmd.go:529-577 | succeeds iff every file input can be saved; then every input has one fate and exactly the file inputs are in files |
| TerraformVars.TfvarsAreUnique | tf-block-runner/tfrun/tfcmd.go:594-650 | the tfvars do not depend on the order of the inputs |
| TerraformVars.AddingAnInput | tf-block-runner/tfrun/tfcmd.go:596-640 | one more input adds its variable and changes no other |
| TerraformVars.AddInput | tf-block-runner/tfrun/tfcmd.go:596-640 | one round of the loop, each branch |
| TerraformVars.AddInputs | tf-block-runner/tfrun/tfcmd.go:594-640 | succeeds iff every tfvars input decrypts, and leaves exactly their variables |
| TerraformVars.AddMeshStackVars | tf-block-runner/tfrun/tfcmd.go:659-698 | the run-scoped variables are written only where asked, all are declared unless already present |
| TerraformVars.Vars | tf-block-runner/tfrun/tfcmd.go:581-722 | renders the one result its inputs determine |
| TerraformVars.MeshTfvarsAre | tf-block-runner/tfrun/tfcmd.go:659-671 | which of the three variables are written |
| TerraformVars.WhatMeshStackAdds | tf-block-runner/tfrun/tfcmd.go:642-681 | the identity in every mode, the run and its id only where no plan is made or replayed, so also when destroying |
| TerraformVars.WhatIsDeclared | tf-block-runner/tfrun/tfcmd.go:683-698 | each of the three is declared iff the configuration does not, the run and its id as optional |
| TerraformVars.PlanAndReplayAgree | tf-block-runner/tfrun/tfcmd.go:642-698 | a DETECT run and an APPLY run with an artifact render the same variables and declarations, whatever their run ids and documents |
| TerraformVars.PlanAndFreshApplyDiffer | tf-block-runner/tfrun/tfcmd.go:642-698 | a fresh apply renders the same and the two run-scoped variables; equal iff the inputs already set those values |
| TerraformVars.InputsSurviveUnlessReserved | tf-block-runner/tfrun/tfcmd.go:659-681 | an input keeps its value iff meshStack does not write another one of the same name |
| TerraformVars.AnInputIs | tf-block-runner/tfrun/tfcmd.go:596-640 | how each kind of input is stored, and that all but strings become JSON text where the configuration wants a string |
| TerraformVars.AnInputReachesTerraform | tf-block-runner/tfrun/tfcmd.go:596-681 | an input stands in the file with that value, under its own name or the name its prefix leaves |
| TerraformVars.AnInputCalledLikeTheBuildingBlockIdIsLost | tf-block-runner/tfrun/tfcmd.go:663-680 | such an input, in every mode |
| TerraformVars.ShadowedVariableIsSetIff | tf-block-runner/tfrun/tfcmd.go:602-612 | a shadowed variable is set iff the input that shadows it is a Terraform variable |
| TerraformVars.AnEnvironmentVariableShadowsAndSetsNothing | tf-block-runner/tfrun/tfcmd.go:602-612 | `TF_VAR_x` beside an environment variable `x`: Terraform's x is set by neither |
| JobCreation.AJobOwnsItsSecrets | run-controller/controller/kubernetes.go:201-210 | with a dependable API a started job owns all secrets added for it |
| JobCreation.AFailureLeavesNoSecret | run-controller/controller/kubernetes.go:190-199 | with a dependable API a failed dispatch leaves no secret it made |
| JobCreation.WhatAStartedJobReads | run-controller/controller/kubernetes.go:112-199 | a started job mounts its document and, iff one is wanted and could be stored, its token, with their contents |
| JobCreation.TheEstimateIsFromAbove | run-controller/controller/kubernetes.go:293-299 | the estimated size is never too small and at most two bytes too large |
| JobCreation.ALargeRunIsRejected | run-controller/controller/kubernetes.go:91-105 | a document that does not fit is rejected whatever the API answers |
| JobCreation.ADispatchSucceedsIff | run-controller/controller/kubernetes.go:65-215 | exactly which answers of the API start the run |
| JobCreation.OwnedIffUpdated | run-controller/controller/kubernetes.go:452-480 | a mounted secret is owned iff its update got through |
| JobCreation.LeavesSecretsIff | run-controller/controller/kubernetes.go:112-199 | exactly which API failures leave a secret behind |
| JobCreation.ALostAnswerLeavesTheDocument | run-controller/controller/kubernetes.go:112-119 | such a failure, in an empty cluster |
| JobCreation.AStartedJobIsEquipped | run-controller/controller/kubernetes.go:190-214 | a started job finds every secret it mounts |
| JobCreation.AFailureLeavesTheJobEquippedIff | run-controller/controller/kubernetes.go:79-199 | exactly when the run's job is in the cluster after a failed dispatch without a secret it mounts: a lookup that missed it or a lost creation, and a deletion that got through |
| JobCreation.ALostAnswerTakesTheSecretsOfTheJob | run-controller/controller/kubernetes.go:190-199 | a lost creation: the job stays, its document and token are deleted |
| JobCreation.AMissedJobLosesItsDocument | run-controller/controller/kubernetes.go:79-199 | a missed lookup: the running job's document is deleted |
| JobCreation.TheJobFails | run-controller/controller/kubernetes.go:190-199 | the secrets after the cleanup |
| JobCreation.TheJobStarts | run-controller/controller/kubernetes.go:201-214 | the job and its secrets after the owner updates |
| JobCreation.Cluster.CreateServiceAccount | run-controller/controller/kubernetes.go:382-411 | succeeds iff the account is found or created, and what a lost answer leaves |
| JobCreation.Cluster.CreateRunJsonSecret | run-controller/controller/kubernetes.go:411-450 | an existing secret is kept as it is |
| JobCreation.Cluster.CreateWifTokenSecret | run-controller/controller/wiftoken.go:43-91 | a name only if the secret is known to exist; never fails the dispatch |
| JobCreation.Cluster.SetSecretOwnerReference | run-controller/controller/kubernetes.go:452-480 | changes the owner of that secret and nothing else |
| JobCreation.Cluster.CreateRunnerJob | run-controller/controller/kubernetes.go:65-215 | leaves a found job alone, else starts one job or undoes, for every pattern of answers; and which result each pattern gives |
| RunController.InProcessDispatcher.Dispatch | run-controller/inprocess/dispatcher.go:69-82 | counts exactly the goroutines it starts |
| RunController.InProcessDispatcher.EndRun | run-controller/inprocess/dispatcher.go:84-95 | the deferred calls survive a panic and count the run down once: the counter equals the unfinished runs after any ending |
| RunController.RecoveringIsNeeded | run-controller/inprocess/dispatcher.go:85-90 | a panic is survived iff a deferred call recovers it |
| RunController.Controller.Dispatch | run-controller/controller/dispatcher.go:43-49 | accepted iff there is a handler and the run can be started; then it is in flight |
| RunController.ADispatchAddsAtMostOneJob | run-controller/controller/dispatcher.go:43-49 | whatever the cluster answers |
| RunController.CountActiveJobs | run-controller/controller/kubernetes.go:222-249 | the number of unfinished jobs |
| RunController.Controller.Meanwhile | run-controller/inprocess/dispatcher.go:84-95 | completions never raise the number in flight |
| RunController.Controller.AvailableCapacity | run-controller/controller/controller.go:96-109 | all that is free, and nothing if the jobs cannot be counted |
| RunController.Controller.ReportRunFailure | run-controller/controller/controller.go:154-164 | reported iff registered and accepted |
| RunController.Controller.ProcessClaim | run-controller/controller/controller.go:119-142 | dispatched iff it decrypts and its runner can take it; one run more in flight at most; else reported iff it decrypts and the report works |
| RunController.Controller.ProcessNextRun | run-controller/controller/controller.go:111-142 | one claim at most, and exactly when it stays without a report |
| RunController.ARunThatDoesNotDecrypt | run-controller/controller/controller.go:119-125 | such a run: claimed and unreported |
| RunController.Controller.DrainRuns | run-controller/controller/controller.go:80-94 | never more runs in flight than the limit; fills the capacity unless stopped, failing, or finding no run in a fetch of this cycle; all claims of a cycle but the last are dispatched |
| RunController.Controller.Run | run-controller/controller/controller.go:56-78 | every tick before the stop is one cycle, right after the one before; only cycles claim runs; each finds at least the room the one before has left and fills it unless it is stopped, finds no run, or fails to dispatch one; at most one undispatched claim each |
| RunController.Controller.OnTick | run-controller/controller/controller.go:73-75 | a tick is one cycle of drainRuns |
| RunController.Controller.AFullCycle | run-controller/controller/controller.go:80-94 | a cycle that is not stopped and always finds runs it can take claims exactly as many as there is room for, and dispatches them all |
| RunController.Controller.RoomAddsUp | run-controller/controller/controller.go:96-109 | the room and the runs in flight add up to the limit, or there is none if they cannot be counted |
| RunController.Controller.RoomIsLeft | run-controller/controller/controller.go:96-109 | the room a cycle leaves is there for the next one |
| RunController.ATickDispatchesARun | run-controller/controller/controller.go:56-78 | one tick, room for one run and a run to take: it is dispatched |
| RunController.OnlyTheLastFails | run-controller/controller/controller.go:80-94 | a cycle adds at most one undispatched claim |
| TokenCache.AThreadAtRest | block-runner-core/src/main/kotlin/io/meshcloud/buildingblocks/runner/http/auth/ApiKeyAuthInterceptor.kt:84-102 | what a thread knows survives the steps of others |
| TokenCache.AReaderKeepsItsInv | block-runner-core/src/main/kotlin/io/meshcloud/buildingblocks/runner/http/auth/ApiKeyAuthInterceptor.kt:84-102 | each check, with and without the lock |
| TokenCache.ALoginKeepsItsInv | block-runner-core/src/main/kotlin/io/meshcloud/buildingblocks/runner/http/auth/ApiKeyAuthInterceptor.kt:110-147 | each step of a login, failures included |
| TokenCache.LoginsStaySpaced | block-runner-core/src/main/kotlin/io/meshcloud/buildingblocks/runner/http/auth/ApiKeyAuthInterceptor.kt:94-101 | a new login was sent after the last token expired |
| TokenCache.StepKeepsInv | block-runner-core/src/main/kotlin/io/meshcloud/buildingblocks/runner/http/auth/ApiKeyAuthInterceptor.kt:84-147 | every step of every thread |
| TokenCache.ExecutionKeepsInv | block-runner-core/src/main/kotlin/io/meshcloud/buildingblocks/runner/http/auth/ApiKeyAuthInterceptor.kt:84-147 | every interleaving |
| TokenCache.LoginsAreSpaced | block-runner-core/src/main/kotlin/io/meshcloud/buildingblocks/runner/http/auth/ApiKeyAuthInterceptor.kt:84-147 | logins happen only under the lock, and successful ones an effective lifetime apart |
| TokenCache.ReturnedTokensAreEarned | block-runner-core/src/main/kotlin/io/meshcloud/buildingblocks/runner/http/auth/ApiKeyAuthInterceptor.kt:84-102 | a returned token was unexpired inside the call, or the call obtained it |
| TokenCache.ABoundCallReturns | block-runner-core/src/main/kotlin/io/meshcloud/buildingblocks/runner/http/auth/ApiKeyAuthInterceptor.kt:84-102 | a call on its way out with a token ends by returning that token |
| TokenCache.AFoundTokenIsReturned | block-runner-core/src/main/kotlin/io/meshcloud/buildingblocks/runner/http/auth/ApiKeyAuthInterceptor.kt:84-98 | a call that finds an unexpired token, with or without the lock, ends only by returning it, without the lock at once |
| TokenCache.AStoredTokenIsReturned | block-runner-core/src/main/kotlin/io/meshcloud/buildingblocks/runner/http/auth/ApiKeyAuthInterceptor.kt:98-102 | a call whose login is stored ends only by returning what it obtained |
| TokenCache.AThrowComesFromAFailedLogin | block-runner-core/src/main/kotlin/io/meshcloud/buildingblocks/runner/http/auth/ApiKeyAuthInterceptor.kt:110-147 | a call throws only if its own login failed |
| TokenCache.OwnStepsLeadToTheEnd | block-runner-core/src/main/kotlin/io/meshcloud/buildingblocks/runner/http/auth/ApiKeyAuthInterceptor.kt:84-147 | a call ends after at most nine steps of its own, and no other thread moves it |
| TokenCache.NobodyIsStuck | block-runner-core/src/main/kotlin/io/meshcloud/buildingblocks/runner/http/auth/ApiKeyAuthInterceptor.kt:94-102 | a call can go on, unless it waits for the lock; then the owner of the lock can |
| TokenCache.CachedTokensAreAcceptedIff | block-runner-core/src/main/kotlin/io/meshcloud/buildingblocks/runner/http/auth/ApiKeyAuthInterceptor.kt:134-140 | when the buffer suffices for the server to accept every cached token |
| TokenCache.ASlowLoginOffersARejectedToken | block-runner-core/src/main/kotlin/io/meshcloud/buildingblocks/runner/http/auth/ApiKeyAuthInterceptor.kt:134-140 | a login of 31 s for a token of a minute |
| Envelope.LengthRoundTrip | go-meshapi-client/crypto/meshsymmetriccrypto.go:53-66 | four big-endian bytes read back, unsigned always and signed below 2^31 |
| Envelope.PutUint32 | go-meshapi-client/crypto/meshsymmetriccrypto.go:53-54 | the buffer holds the number big-endian |
| Envelope.EncryptSymmetric | go-meshapi-client/crypto/meshsymmetriccrypto.go:42-59 | length, IV and sealed text, in this order |
| Envelope.EncryptMeshCertBased | go-meshapi-client/crypto/meshcertbasedcrypto.go:89-115 | Go opens every envelope to its text; Kotlin does iff the modulus is a whole number of bytes |
| Envelope.BothReadWhatIsSealed | go-meshapi-client/crypto/meshsymmetriccrypto.go:42-76 | both symmetric readers invert sealing |
| Envelope.GoOpensWhatIsSealed | go-meshapi-client/crypto/meshcertbasedcrypto.go:117-152 | the Go round trip |
| Envelope.SplitsAgreeIff | block-runner-core/src/main/kotlin/io/meshcloud/buildingblocks/runner/security/MeshCertDecryptionService.kt:39-43 | the two splits agree iff the modulus length is a multiple of eight, else differ by one byte |
| Envelope.KotlinOpensWhatIsSealedIff | block-runner-core/src/main/kotlin/io/meshcloud/buildingblocks/runner/security/MeshCertDecryptionService.kt:34-51 | the Kotlin round trip, or a rejection |
| Envelope.KotlinRejectsAnOddModulus | block-runner-core/src/main/kotlin/io/meshcloud/buildingblocks/runner/security/MeshCertDecryptionService.kt:39-43 | a modulus of 1025 bits: Go opens the envelope, Kotlin rejects it |
| Envelope.PlainlyIsCorrect | go-meshapi-client/crypto/meshcertbasedcrypto.go:89-115 | what is asked of the libraries can be met |
| Envelope.ByteBuffer.Get | block-runner-core/src/main/kotlin/io/meshcloud/buildingblocks/runner/security/MeshCertDecryptionService.kt:99-109 | reads on from the position or underflows |
| Envelope.DecryptSymmetricPayload | block-runner-core/src/main/kotlin/io/meshcloud/buildingblocks/runner/security/MeshCertDecryptionService.kt:99-120 | reading by position is the reader of the specification, error cases included |
| Envelope.Decrypt | block-runner-core/src/main/kotlin/io/meshcloud/buildingblocks/runner/security/MeshCertDecryptionService.kt:34-51 | the whole Kotlin side is the specified opening |
| Envelope.TheReadersAgree | go-meshapi-client/crypto/meshsymmetriccrypto.go:61-76 | on any data, the only inputs one side reads and the other does not |
| Envelope.WhatTheReadersTake | go-meshapi-client/crypto/meshsymmetriccrypto.go:61-76 | Go takes keys of 16, 24 or 32 bytes and an IV of 12 and crashes on another; Kotlin takes a key of 16 and an IV of 12 to 15 and rejects everything else |
| Envelope.WhatIsTooShort | go-meshapi-client/crypto/meshsymmetriccrypto.go:61-76 | without a length Go crashes and Kotlin rejects |
| Envelope.TheSidesAgree | block-runner-core/src/main/kotlin/io/meshcloud/buildingblocks/runner/security/MeshCertDecryptionService.kt:34-51 | what both sides open is the same text |
| Envelope.TheEmptySecret | block-runner-core/src/main/kotlin/io/meshcloud/buildingblocks/runner/security/MeshCertDecryptionService.kt:35-37 | Kotlin opens the empty secret to the empty text, Go rejects it |

## Left out

- TfCommands.TfCommand.Attempt: one call stands for `init` with its single retry and for the workspace selection with its fallbacks, because only their joint result decides how the run goes on.
- TfCommands.TfCommand.Prepare: written once for the three commands, whose texts repeat it line by line.
- TfCommands.TfCommand.Log: which lines a call writes, the runner's own about it included, is an oracle.
- TfCmd.GenericTfCmd.Println: covers writes to the update log only; local log lines reach no status. The callback is a flag, because the source sets only one.
- LiveStatus.RunStatus.Clone: an outputs map is a value, because the source replaces it and never changes it in place.
- Observer.EveryRunEndsWithOneFinalStatus: the backoff of the final update is repeated attempts until one is not transient; its arithmetic belongs to a library. Process crashes and a log file that cannot be opened are left out.
- MeshStackRetry.Call: sleeps are exact and the clock does not run backwards.
- Pollers.RunClient.UpdateBlockRun: the step details of an update and registering as a source are not modelled. `Trusted`, where a result needs it, says that meshStack has applied what it answered and not applied what it rejected for good at the first attempt.
- Pollers.RunAzureJob: the first pod ends by itself; a pod that is killed is left out.
- TerraformVars.Vars: the two file writes at its end and parsing the configuration are left out; a configuration that does not parse declares nothing.
- TerraformVars.WorkingDirectory.SaveInputFiles: file names are not normalised, so two names for one path count as two files; the decoding of data URLs is an oracle.
- JobCreation.Cluster.CreateRunnerJob: the job's pod template is reduced to the secrets it mounts, and no other client changes the cluster during the call.
- RunController.CountActiveJobs: a job's conditions are reduced to whether it has finished.
- TokenCache.StepKeepsInv: the clock does not run backwards, and a read or write of the cached token is atomic.
- Envelope.EncryptMeshCertBased: RSA, AES and base64 are assumed to invert; no property of their strength is stated.
- HTTP, JSON, YAML, HCL, git, SSH, Kubernetes and OpenTofu themselves: their calls are oracles.
- Config loading, registration, metrics, health endpoints and message wording: many branches, shallow claims.
- The single-run worker, which repeats the routines of the worker.
- The GitLab runner (one trigger without polling), the manual runner, Keycloak tokens, known hosts, binary downloads.
