/** What a failed run tells: its user at the step that failed, its log, and the steps after it. */
module Failures {
  import opened Snapshots
  import opened StepMachine
  import opened UpdateLog

  /** The sentence for an error that says nothing but the exit status of a process. */
  lemma ExitStatusesAreExplained(error: string)
    ensures "exit status " <= error ==>
      UserFacing(error) == "command failed (" + error + ") \U{2014} check the step logs above for error details."
    ensures !("exit status " <= error) ==> UserFacing(error) == error
  {
  }

  lemma CompletedLines(disk: Disk, n: nat, a: string, b: string)
    requires disk.write(n).Complete? && disk.write(n + 1).Complete?
    ensures Completed(disk, n, [a]) == a && Completed(disk, n, [a, b]) == a + b
  {
    assert [a][1..] == [] && [a, b][1..] == [b] && [b][1..] == [];
    assert Completed(disk, n + 1, [b]) == b + "" == b;
    assert Completed(disk, n, [a]) == a + "" == a;
  }

  /** What the log gets: the error, and then why the context ended if it did. */
  function Told(error: string, context: Context): string {
    match context
    case Live => UserFacing(error) + "\n"
    case DeadlineExceeded(notice) => UserFacing(error) + "\n" + notice + "\n"
    case Cancelled(notice) => UserFacing(error) + "\n" + notice + "\n"
  }

  lemma FailureLinesAreAccepted(l: Lifecycle, disk: Disk, error: string, context: Context)
    requires InRange(l) && disk.write(l.writeCount).Complete? && disk.write(l.writeCount + 1).Complete?
    ensures WriteAll(l, disk, FailureLines(error, context)).accepted == l.accepted + Told(error, context)
  {
    hide WriteAll, Completed, UserFacing;
    var lines, n, a := FailureLines(error, context), l.writeCount, UserFacing(error) + "\n";
    WritesAreAccepted(l, disk, lines);
    if context.Live? {
      CompletedLines(disk, n, a, "");
      assert lines == [a];
    } else {
      CompletedLines(disk, n, a, context.notice + "\n");
      assert lines == [a, context.notice + "\n"];
      assert a + (context.notice + "\n") == a + context.notice + "\n";
    }
  }

  /** The user reads the override message if there is one, else why the context ended if it did,
      else the error. */
  lemma AFailureIsExplained(l: Lifecycle, disk: Disk, error: string, context: Context, override: Option<string>)
    requires Working(l)
    ensures var r, c := FailWith(l, disk, error, context, override), l.run.current;
      && |r.run.steps| == |l.run.steps| && 0 <= c < |r.run.steps|
      && r.run.steps[c].userMessage ==
           (if override.Some? then override else match context
            case Live => Some(UserFacing(error))
            case DeadlineExceeded(notice) => Some(notice)
            case Cancelled(notice) => Some(notice))
  {
    SoundHasCurrent(l);
    var failed := l.(run := FailRun(l.run));
    var lines := FailureLines(error, context);
    WritingKeepsResults(failed, disk, lines);
    hide Write, WriteAll, Append, Steady, Stream, Follows, FailureLines, UserFacing, FailRun;
    assert HasCurrent(WriteAll(failed, disk, lines).run);
  }

  /** Every step after the failed one says why it did not run. */
  lemma LaterStepsAreAborted(l: Lifecycle, disk: Disk, error: string, context: Context, override: Option<string>)
    requires Working(l)
    ensures var r := FailWith(l, disk, error, context, override).run;
      && |r.steps| == |l.run.steps|
      && forall i :: l.run.current < i < |r.steps| ==>
           r.steps[i].status == Failed && r.steps[i].systemMessage == Some("Aborted due to failure in an earlier step")
  {
    SoundHasCurrent(l);
    var failed := l.(run := FailRun(l.run));
    WritingKeepsResults(failed, disk, FailureLines(error, context));
    hide Write, WriteAll, Steady, Stream, Follows, FailureLines, UserFacing, Explanation;
  }

  /** The log gets the failure as far as it can be written. */
  lemma AFailureIsLogged(l: Lifecycle, disk: Disk, error: string, context: Context, override: Option<string>)
    requires Working(l) && disk.write(l.writeCount).Complete? && disk.write(l.writeCount + 1).Complete?
    ensures FailWith(l, disk, error, context, override).accepted == l.accepted + Told(error, context)
  {
    SoundHasCurrent(l);
    FailureLinesAreAccepted(l.(run := FailRun(l.run)), disk, error, context);
    hide Write, WriteAll, Steady, Stream, Follows, FailureLines, Told, Explanation;
  }
}
