/** What the update log holds: the texts that were written to it completely, and when a failed
    write makes it something else. */
module UpdateLog {
  import opened Snapshots
  import opened StepMachine

  /** The texts of a series of writes, from the n-th on, that are written completely. */
  function Completed(disk: Disk, n: nat, texts: seq<string>): string
    decreases |texts|
  {
    if texts == [] then ""
    else (if disk.write(n).Complete? then texts[0] else "") + Completed(disk, n + 1, texts[1..])
  }

  lemma AWriteIsAccepted(l: Lifecycle, disk: Disk, text: string)
    requires InRange(l)
    ensures var r := Write(l, disk, text);
      && r.accepted == l.accepted + (if disk.write(l.writeCount).Complete? then text else "")
      && r.writeCount == l.writeCount + 1
  {
  }

  lemma {:induction false} WritesAreAccepted(l: Lifecycle, disk: Disk, texts: seq<string>)
    requires InRange(l)
    ensures var r := WriteAll(l, disk, texts);
      r.accepted == l.accepted + Completed(disk, l.writeCount, texts) && r.writeCount == l.writeCount + |texts|
    decreases |texts|
  {
    if texts != [] {
      hide Write, Fits;
      AWriteIsAccepted(l, disk, texts[0]);
      WritesAreAccepted(Write(l, disk, texts[0]), disk, texts[1..]);
      var first := if disk.write(l.writeCount).Complete? then texts[0] else "";
      assert (l.accepted + first) + Completed(disk, l.writeCount + 1, texts[1..])
          == l.accepted + (first + Completed(disk, l.writeCount + 1, texts[1..]));
    }
  }

  lemma {:induction false} CompletedInTwo(disk: Disk, n: nat, a: seq<string>, b: seq<string>)
    ensures Completed(disk, n, a + b) == Completed(disk, n, a) + Completed(disk, n + |a|, b)
    decreases |a|
  {
    if a == [] {
      assert a + b == b;
    } else {
      assert (a + b)[0] == a[0] && (a + b)[1..] == a[1..] + b;
      CompletedInTwo(disk, n + 1, a[1..], b);
    }
  }

  /** These are the texts of all writes of a run so far, and the accepted log is those of them that
      were written completely. */
  ghost predicate AreWritten(l: Lifecycle, disk: Disk, texts: seq<string>) {
    l.writeCount == |texts| && l.accepted == Completed(disk, 0, texts)
  }

  lemma NothingIsWritten(l: Lifecycle, disk: Disk)
    ensures AreWritten(l, disk, []) <==> l.writeCount == 0 && l.accepted == ""
  {
  }

  lemma MoreIsWritten(l: Lifecycle, disk: Disk, before: seq<string>, texts: seq<string>)
    requires InRange(l) && AreWritten(l, disk, before)
    ensures AreWritten(WriteAll(l, disk, texts), disk, before + texts)
  {
    WritesAreAccepted(l, disk, texts);
    CompletedInTwo(disk, 0, before, texts);
  }

  /** Stepping writes nothing, and failing only the failure lines. */
  lemma SteppingWritesNothing(l: Lifecycle, disk: Disk, m: Option<string>, texts: seq<string>)
    requires InRange(l) && AreWritten(l, disk, texts)
    ensures AreWritten(AdvanceStep(l, disk, m), disk, texts) && AreWritten(CompleteRun(l, disk, m), disk, texts)
    ensures AreWritten(StartRun(l), disk, texts)
  {
  }

  lemma FailingWritesTheFailure(l: Lifecycle, disk: Disk, error: string, context: Context, override: Option<string>, texts: seq<string>)
    requires Sound(l) && AreWritten(l, disk, texts)
    ensures AreWritten(FailWith(l, disk, error, context, override), disk, texts + FailureLines(error, context))
  {
    SoundHasCurrent(l);
    MoreIsWritten(l.(run := FailRun(l.run)), disk, texts, FailureLines(error, context));
    hide WriteAll, Completed, Steady, FailureLines, Explanation;
  }

  /** Unless the log is torn, every published status was cut from the accepted texts, and the
      messages of a status that shows the present are exactly those texts. */
  lemma MessagesAreTheAcceptedTexts(l: Lifecycle)
    requires Inv(l) && !l.torn
    ensures forall i :: 0 <= i < |l.stream| ==> l.stream[i].log <= l.accepted
    ensures Last(l) == Now(l) && !l.lossy ==> Joined(l.run.steps[..l.run.current + 1]) == l.accepted
  {
    forall i | 0 <= i < |l.stream|
      ensures l.stream[i].log <= l.accepted
    {
      assert Follows(l.stream[i], Last(l)) && Follows(Last(l), Now(l));
    }
    if Last(l) == Now(l) && !l.lossy {
      MessagesPartitionTheLog(Last(l));
    }
  }

  // ----- exactly which disks keep the log whole -----

  predicate LeavesRemains(w: WriteResult) {
    w.Short? && w.kept > 0
  }

  /** Some write fails half-way, and a later one succeeds. */
  ghost predicate Tears(disk: Disk) {
    exists n: nat, m: nat :: n < m && LeavesRemains(disk.write(n)) && disk.write(m).Complete?
  }

  function Begun(): Lifecycle {
    Initial("", false)
  }

  ghost predicate Accounted(l: Lifecycle, disk: Disk) {
    && InRange(l) && Whole(l) && !l.torn
    && (l.logSize < |l.file| ==> exists n: nat :: n < l.writeCount && LeavesRemains(disk.write(n)))
  }

  lemma WritingStaysAccounted(l: Lifecycle, disk: Disk, text: string)
    requires Accounted(l, disk) && !Tears(disk)
    ensures Accounted(Write(l, disk, text), disk)
  {
    var n := l.writeCount;
    var r := Write(l, disk, text);
    AppendStaysWhole(l, disk, text);
    assert r.file == Append(l, disk, text).file && r.logSize == Append(l, disk, text).logSize;
    if r.logSize < |r.file| && l.logSize == |l.file| {
      assert LeavesRemains(disk.write(n)) && n < r.writeCount;
    }
  }

  lemma {:induction false} SeriesStaysAccounted(l: Lifecycle, disk: Disk, texts: seq<string>)
    requires Accounted(l, disk) && !Tears(disk)
    ensures Accounted(WriteAll(l, disk, texts), disk)
    decreases |texts|
  {
    if texts != [] {
      WritingStaysAccounted(l, disk, texts[0]);
      SeriesStaysAccounted(Write(l, disk, texts[0]), disk, texts[1..]);
    }
  }

  function Blanks(n: nat): seq<string> {
    seq(n, _ => "")
  }

  lemma {:induction false} BlanksWriteNothing(l: Lifecycle, disk: Disk, n: nat)
    requires InRange(l) && !l.publishing
    ensures var r := WriteAll(l, disk, Blanks(n));
      && r.file == l.file && r.logSize == l.logSize && r.accepted == l.accepted
      && r.writeCount == l.writeCount + n && !r.publishing
    decreases n
  {
    if n > 0 {
      assert Blanks(n)[0] == "" && Blanks(n)[1..] == Blanks(n - 1);
      BlanksWriteNothing(Write(l, disk, ""), disk, n - 1);
    }
  }

  lemma {:induction false} WriteInTwoParts(l: Lifecycle, disk: Disk, a: seq<string>, b: seq<string>)
    requires InRange(l)
    ensures WriteAll(l, disk, a + b) == WriteAll(WriteAll(l, disk, a), disk, b)
    decreases |a|
  {
    if a == [] {
      assert a + b == b;
    } else {
      assert (a + b)[0] == a[0] && (a + b)[1..] == a[1..] + b;
      WriteInTwoParts(Write(l, disk, a[0]), disk, a[1..], b);
    }
  }

  /** "A" on the write that fails half-way, "B" on the one that succeeds later. */
  function Exposing(n: nat, m: nat): seq<string>
    requires n < m
  {
    Blanks(n) + (["A"] + (Blanks(m - n - 1) + ["B"]))
  }

  lemma WriteFirst(l: Lifecycle, disk: Disk, text: string, rest: seq<string>)
    requires InRange(l)
    ensures WriteAll(l, disk, [text] + rest) == WriteAll(Write(l, disk, text), disk, rest)
  {
    assert ([text] + rest)[1..] == rest;
  }

  lemma AWriteUnseen(l: Lifecycle, disk: Disk, text: string)
    requires InRange(l) && !l.publishing
    ensures Write(l, disk, text) == Append(l, disk, text)
  {
  }

  lemma RemainsAreLoggedInstead(disk: Disk, n: nat, m: nat)
    requires n < m && LeavesRemains(disk.write(n)) && disk.write(m).Complete?
    ensures var l := WriteAll(Begun(), disk, Exposing(n, m)); Log(l) == "A" && l.accepted == "B"
  {
    hide WriteAll, Write, SetMessage;
    var between := Blanks(m - n - 1);
    BlanksWriteNothing(Begun(), disk, n);
    var l0 := WriteAll(Begun(), disk, Blanks(n));
    WriteInTwoParts(Begun(), disk, Blanks(n), ["A"] + (between + ["B"]));
    WriteFirst(l0, disk, "A", between + ["B"]);
    AWriteUnseen(l0, disk, "A");
    var l1 := Append(l0, disk, "A");
    assert l1.file == "A" && l1.logSize == 0 && l1.accepted == "" && !l1.publishing;
    WriteInTwoParts(l1, disk, between, ["B"]);
    BlanksWriteNothing(l1, disk, m - n - 1);
    var l2 := WriteAll(l1, disk, between);
    assert ["B"] == ["B"] + [];
    WriteFirst(l2, disk, "B", []);
    AWriteUnseen(l2, disk, "B");
    WriteNothing(Append(l2, disk, "B"), disk);
  }

  /** The log is the accepted texts, whatever is written, exactly on a disk on which no write
      succeeds after one that failed half-way. */
  lemma LogIsTheAcceptedTextsIff(disk: Disk)
    ensures (forall texts :: Log(WriteAll(Begun(), disk, texts)) == WriteAll(Begun(), disk, texts).accepted)
            <==> !Tears(disk)
  {
    if !Tears(disk) {
      forall texts
        ensures Log(WriteAll(Begun(), disk, texts)) == WriteAll(Begun(), disk, texts).accepted
      {
        SeriesStaysAccounted(Begun(), disk, texts);
      }
    } else {
      var n: nat, m: nat :| n < m && LeavesRemains(disk.write(n)) && disk.write(m).Complete?;
      RemainsAreLoggedInstead(disk, n, m);
    }
  }

  /** Such a disk keeps one byte of "AB" and then takes "CD": the log is "AC". */
  lemma ATornWriteShiftsTheLog(readable: nat -> bool)
    ensures var disk := Disk(readable, n => if n == 0 then Short(1) else Complete);
      var l := WriteAll(Begun(), disk, ["AB", "CD"]);
      Log(l) == "AC" && l.accepted == "CD" && l.torn
  {
    var disk := Disk(readable, n => if n == 0 then Short(1) else Complete);
    assert ["AB", "CD"] == ["AB"] + ["CD"] && ["CD"] == ["CD"] + [];
    WriteFirst(Begun(), disk, "AB", ["CD"]);
    var l1 := Write(Begun(), disk, "AB");
    assert l1.file == "A" && l1.logSize == 0;
    WriteFirst(l1, disk, "CD", []);
    WriteNothing(Write(l1, disk, "CD"), disk);
  }
}
