/**
 * What TranscriptionRunner promises about one file and about a console
 * session: the services are called in order on each other's results, the
 * first failure ends processing and is reported once, the topics are shown
 * by descending mentions, and the session reads up to the first "exit".
 */
module RunnerProperties {
  import opened Outcomes
  import opened Text
  import opened Analytics
  import opened Runners

  // One file

  /** A missing file is reported and nothing is called. */
  lemma MissingFileMakesNoCalls(sv: Services, filePath: string)
    ensures var r := Process(sv, filePath);
      (r.outcome == FileNotFound <==> !sv.fileExists(TrimChar(filePath, '"')))
      && (r.outcome == FileNotFound ==> r.calls == [] && r.shown == [NotFound(TrimChar(filePath, '"'))])
  {
  }

  /**
   * The services are called in order, each on what the previous ones
   * returned, and only while they succeed.
   */
  lemma ProcessCallsInOrder(sv: Services, filePath: string)
    ensures var path := TrimChar(filePath, '"');
      var r := Process(sv, filePath);
      && |r.calls| <= 4
      && (|r.calls| >= 1 ==> sv.fileExists(path) && r.calls[0] == Transcribe(path))
      && (|r.calls| >= 2 ==>
           sv.transcribe(path).Ok? && r.calls[1] == Summarize(sv.transcribe(path).value))
      && (|r.calls| >= 3 ==>
           sv.summarize(sv.transcribe(path).value).Ok?
           && r.calls[2] == Extract(sv.transcribe(path).value))
      && (|r.calls| == 4 ==>
           sv.extract(sv.transcribe(path).value).Ok?
           && sv.extract(sv.transcribe(path).value).value.frequentlyMentionedTopics.Some?
           && r.calls[3] == Save(path, sv.transcribe(path).value,
                                 sv.summarize(sv.transcribe(path).value).value,
                                 sv.extract(sv.transcribe(path).value).value))
  {
  }

  /** Processing completes exactly when the file exists and every service succeeds. */
  lemma ProcessCompletesIffAllSucceed(sv: Services, filePath: string)
    ensures var path := TrimChar(filePath, '"');
      var r := Process(sv, filePath);
      r.outcome == Completed <==>
        && sv.fileExists(path)
        && sv.transcribe(path).Ok?
        && var t := sv.transcribe(path).value;
        && sv.summarize(t).Ok?
        && sv.extract(t).Ok?
        && sv.extract(t).value.frequentlyMentionedTopics.Some?
        && sv.save(path, t, sv.summarize(t).value, sv.extract(t).value).Ok?
        && |r.calls| == 4
  {
  }

  /** No notice is shown before the end of a run. */
  predicate NoNotice(shown: seq<Display>) {
    forall i | 0 <= i < |shown| :: !shown[i].CancelledNotice? && !shown[i].ErrorNotice?
  }

  /**
   * How a run ends is what it shows last: a cancellation or an exception is
   * reported once, as the last item, and a completed run shows no notice.
   */
  predicate ReportsOutcomeOnce(r: Run) {
    && |r.shown| > 0
    && NoNotice(r.shown[..|r.shown| - 1])
    && (r.outcome == Completed ==> r.shown[|r.shown| - 1] == Complete)
    && (r.outcome == RunCancelled ==> r.shown[|r.shown| - 1] == CancelledNotice)
    && (r.outcome.RunFailed? ==> r.shown[|r.shown| - 1] == ErrorNotice(r.outcome.message))
    && (r.outcome == Completed || r.outcome == FileNotFound ==> NoNotice(r.shown))
  }

  /** ReportsOutcomeOnce holds for every file processed. */
  lemma ProcessReportsOutcomeOnce(sv: Services, filePath: string)
    ensures ReportsOutcomeOnce(Process(sv, filePath))
  {
    var path := TrimChar(filePath, '"');
    if sv.fileExists(path) {
      TranscriptionRunReportsOutcomeOnce(sv, path);
      PrependKeepsReport([], [Transcribing], TranscriptionRun(sv, path));
    }
  }

  /** Items shown before a run that shows no notice keep its report. */
  lemma PrependKeepsReport(calls: seq<Call>, shown: seq<Display>, r: Run)
    requires NoNotice(shown) && ReportsOutcomeOnce(r)
    ensures ReportsOutcomeOnce(Prepend(calls, shown, r))
  {
    var all := shown + r.shown;
    assert all[..|all| - 1] == shown + r.shown[..|r.shown| - 1];
  }

  /** A caught failure reports itself. */
  lemma FailReports(failure: Outcome<()>)
    requires failure.IsFailure()
    ensures ReportsOutcomeOnce(Fail(failure))
  {
  }

  lemma TranscriptionRunReportsOutcomeOnce(sv: Services, path: string)
    ensures ReportsOutcomeOnce(TranscriptionRun(sv, path)) && TranscriptionRun(sv, path).outcome != FileNotFound
  {
    var t := sv.transcribe(path);
    if t.IsFailure() {
      FailReports(t.PropagateFailure());
      PrependKeepsReport([Transcribe(path)], [], Fail(t.PropagateFailure()));
    } else {
      SummaryRunReportsOutcomeOnce(sv, path, t.value);
      var rest := Prepend([], [TranscriptionHeading, Text(t.value), SummaryHeading], SummaryRun(sv, path, t.value));
      PrependKeepsReport([], [TranscriptionHeading, Text(t.value), SummaryHeading], SummaryRun(sv, path, t.value));
      PrependKeepsReport([Transcribe(path)], [], rest);
    }
  }

  lemma SummaryRunReportsOutcomeOnce(sv: Services, path: string, transcript: string)
    ensures ReportsOutcomeOnce(SummaryRun(sv, path, transcript)) && SummaryRun(sv, path, transcript).outcome != FileNotFound
  {
    var s := sv.summarize(transcript);
    if s.IsFailure() {
      FailReports(s.PropagateFailure());
      PrependKeepsReport([Summarize(transcript)], [], Fail(s.PropagateFailure()));
    } else {
      ExtractionRunReportsOutcomeOnce(sv, path, transcript, s.value);
      var rest := Prepend([], [Text(s.value), AnalyticsHeading], ExtractionRun(sv, path, transcript, s.value));
      PrependKeepsReport([], [Text(s.value), AnalyticsHeading], ExtractionRun(sv, path, transcript, s.value));
      PrependKeepsReport([Summarize(transcript)], [], rest);
    }
  }

  lemma ExtractionRunReportsOutcomeOnce(sv: Services, path: string, transcript: string, summary: string)
    ensures ReportsOutcomeOnce(ExtractionRun(sv, path, transcript, summary))
      && ExtractionRun(sv, path, transcript, summary).outcome != FileNotFound
  {
    var a := sv.extract(transcript);
    if a.IsFailure() {
      FailReports(a.PropagateFailure());
      PrependKeepsReport([Extract(transcript)], [], Fail(a.PropagateFailure()));
    } else if ReportFailure(a.value).IsFailure() {
      AnalyticsReportHasNoNotice(a.value);
      FailReports(ReportFailure(a.value));
      PrependKeepsReport([], AnalyticsReport(a.value), Fail(ReportFailure(a.value)));
      PrependKeepsReport([Extract(transcript)], [], Prepend([], AnalyticsReport(a.value), Fail(ReportFailure(a.value))));
    } else {
      var report := AnalyticsReport(a.value) + [Rule];
      AnalyticsReportHasNoNotice(a.value);
      assert NoNotice(report);
      var saving := SavingRun(sv, path, transcript, summary, a.value);
      assert ReportsOutcomeOnce(saving);
      PrependKeepsReport([], report, saving);
      PrependKeepsReport([Extract(transcript)], [], Prepend([], report, saving));
    }
  }

  /** The analytics block never holds a notice. */
  lemma AnalyticsReportHasNoNotice(a: AnalyticsData)
    ensures NoNotice(AnalyticsReport(a))
  {
    var ordered := OrderByMentionsDesc(a.frequentlyMentionedTopics.GetOr([]));
    MapTopicsAt(TopicRowOf, ordered);
  }

  /**
   * The analytics block: the word count and the speed, then, when there are
   * topics, a heading and one row per topic, ordered by descending mentions
   * and holding exactly the extracted topics. A null list shows only the counts.
   */
  lemma AnalyticsReportShowsTopicsByMentions(a: AnalyticsData)
    ensures var rep := AnalyticsReport(a);
      var ts := a.frequentlyMentionedTopics.GetOr([]);
      && |rep| >= 2 && rep[0] == WordCount(a.wordCount) && rep[1] == Speed(a.speakingSpeedWpm)
      && (ts == [] <==> |rep| == 2)
      && (ts != [] ==>
           && |rep| == 3 + |ts| && rep[2] == TopicsHeading
           && RowsByMentions(rep[3..])
           && multiset(rep[3..]) == multiset(MapTopics(TopicRowOf, ts)))
  {
    var ts := a.frequentlyMentionedTopics.GetOr([]);
    if ts != [] {
      var rows := MapTopics(TopicRowOf, OrderByMentionsDesc(ts));
      TopicRowsAreByMentions(ts);
      MapTopicsOfOrderIsPermutation(TopicRowOf, ts);
      assert AnalyticsReport(a)[3..] == rows;
    }
  }

  /** Topic rows, each after the ones with at least as many mentions. */
  predicate RowsByMentions(rows: seq<Display>) {
    && (forall i | 0 <= i < |rows| :: rows[i].TopicRow?)
    && (forall i, j | 0 <= i < j < |rows| :: rows[i].mentions >= rows[j].mentions)
  }

  /** The rows of the ordered topics: one per topic, by descending mentions. */
  lemma TopicRowsAreByMentions(ts: seq<TopicFrequency>)
    ensures |MapTopics(TopicRowOf, OrderByMentionsDesc(ts))| == |ts|
    ensures RowsByMentions(MapTopics(TopicRowOf, OrderByMentionsDesc(ts)))
  {
    var ordered := OrderByMentionsDesc(ts);
    OrderByMentionsDescIsPermutation(ts);
    OrderByMentionsDescIsSorted(ts);
    MapTopicsAt(TopicRowOf, ordered);
  }

  /**
   * A run ends as the catch clauses report `f`: an OperationCanceledException
   * as a cancellation, any other exception with its own message.
   */
  predicate EndsReporting<T>(r: Run, f: Outcome<T>) {
    && |r.shown| > 0
    && (f.Cancelled? ==> r.outcome == RunCancelled && r.shown[|r.shown| - 1] == CancelledNotice)
    && (f.Error? ==> r.outcome == RunFailed(f.message) && r.shown[|r.shown| - 1] == ErrorNotice(f.message))
  }

  /** A transcriber failure ends the run after its one call and is reported as what it threw. */
  lemma TranscriptionFailureReported(sv: Services, filePath: string)
    requires sv.fileExists(TrimChar(filePath, '"')) && sv.transcribe(TrimChar(filePath, '"')).IsFailure()
    ensures var path := TrimChar(filePath, '"');
      var r := Process(sv, filePath);
      r.calls == [Transcribe(path)] && EndsReporting(r, sv.transcribe(path))
  {
  }

  /** A summarizer failure ends the run before the extractor is called and is reported as what it threw. */
  lemma SummaryFailureReported(sv: Services, filePath: string)
    requires var path := TrimChar(filePath, '"');
      sv.fileExists(path) && sv.transcribe(path).Ok? && sv.summarize(sv.transcribe(path).value).IsFailure()
    ensures var path := TrimChar(filePath, '"');
      var t := sv.transcribe(path).value;
      var r := Process(sv, filePath);
      r.calls == [Transcribe(path), Summarize(t)] && EndsReporting(r, sv.summarize(t))
  {
  }

  /** An extractor failure ends the run before saving and is reported as what it threw. */
  lemma ExtractionFailureReported(sv: Services, filePath: string)
    requires var path := TrimChar(filePath, '"');
      && sv.fileExists(path) && sv.transcribe(path).Ok?
      && sv.summarize(sv.transcribe(path).value).Ok?
      && sv.extract(sv.transcribe(path).value).IsFailure()
    ensures var path := TrimChar(filePath, '"');
      var t := sv.transcribe(path).value;
      var r := Process(sv, filePath);
      r.calls == [Transcribe(path), Summarize(t), Extract(t)] && EndsReporting(r, sv.extract(t))
  {
  }

  /**
   * Analytics whose topic list is null: the counts are shown, then `Any()`
   * throws ArgumentNullException, which is reported as an error; the saver
   * is never called.
   */
  lemma NullTopicsFailBeforeSaving(sv: Services, filePath: string)
    requires var path := TrimChar(filePath, '"');
      && sv.fileExists(path) && sv.transcribe(path).Ok?
      && sv.summarize(sv.transcribe(path).value).Ok?
      && sv.extract(sv.transcribe(path).value).Ok?
      && sv.extract(sv.transcribe(path).value).value.frequentlyMentionedTopics.None?
    ensures var path := TrimChar(filePath, '"');
      var t := sv.transcribe(path).value;
      var a := sv.extract(t).value;
      var r := Process(sv, filePath);
      && r.calls == [Transcribe(path), Summarize(t), Extract(t)]
      && r.outcome == RunFailed(NullSourceMessage)
      && |r.shown| >= 3
      && r.shown[|r.shown| - 3..] == [WordCount(a.wordCount), Speed(a.speakingSpeedWpm), ErrorNotice(NullSourceMessage)]
  {
  }

  /** A saver failure is the last thing that happens and is reported as what it threw. */
  lemma SaveFailureReported(sv: Services, filePath: string)
    requires var path := TrimChar(filePath, '"');
      && sv.fileExists(path) && sv.transcribe(path).Ok?
      && var t := sv.transcribe(path).value;
      && sv.summarize(t).Ok? && sv.extract(t).Ok?
      && sv.extract(t).value.frequentlyMentionedTopics.Some?
      && sv.save(path, t, sv.summarize(t).value, sv.extract(t).value).IsFailure()
    ensures var path := TrimChar(filePath, '"');
      var t := sv.transcribe(path).value;
      var r := Process(sv, filePath);
      && r.calls == [Transcribe(path), Summarize(t), Extract(t), Save(path, t, sv.summarize(t).value, sv.extract(t).value)]
      && EndsReporting(r, sv.save(path, t, sv.summarize(t).value, sv.extract(t).value))
  {
  }

  // The console session

  /** Surrounding white space on a console line does not change what it asks for. */
  lemma SurroundingWhitespaceIgnored(line: string)
    ensures CommandOf(Trim(line)) == CommandOf(line)
  {
    TrimByIdempotent(line, IsWhiteSpace);
  }

  /** A line asks to quit exactly when, trimmed, it is "exit" in any ASCII case. */
  lemma ExitLineQuits(line: string)
    ensures CommandOf(line).Quit? <==> EqualsIgnoreCase(Trim(line), "exit")
  {
  }

  /** The paths of the files a session processes: the Open commands before the first "exit". */
  function OpenedPaths(commands: seq<Command>, pos: nat): seq<string>
    requires pos <= |commands|
    decreases |commands| - pos
  {
    if pos == |commands| || commands[pos].Quit? then []
    else if commands[pos].Open? then [commands[pos].path] + OpenedPaths(commands, pos + 1)
    else OpenedPaths(commands, pos + 1)
  }

  /** The calls made when each of the paths is processed in turn. */
  function CallsOf(process: string -> Run, paths: seq<string>): seq<Call> {
    if paths == [] then [] else process(paths[0]).calls + CallsOf(process, paths[1..])
  }

  /**
   * The services are called only for the files the session opens: "help"
   * and blank lines make no calls, and nothing after "exit" is processed.
   */
  lemma {:induction false} SessionCallsAreProcessingCalls(process: string -> Run, commands: seq<Command>, pos: nat)
    requires pos <= |commands|
    ensures Interactive(process, commands, pos).calls == CallsOf(process, OpenedPaths(commands, pos))
    decreases |commands| - pos
  {
    if pos < |commands| && !commands[pos].Quit? {
      SessionCallsAreProcessingCalls(process, commands, pos + 1);
      if commands[pos].Open? {
        var paths := OpenedPaths(commands, pos);
        assert paths[1..] == OpenedPaths(commands, pos + 1);
      }
    }
  }

  /**
   * The session reads up to and including the first "exit", or every line
   * when there is none, and its last display is a prompt.
   */
  lemma {:induction false} SessionReadsUpToFirstExit(process: string -> Run, commands: seq<Command>, pos: nat)
    requires pos <= |commands|
    ensures var s := Interactive(process, commands, pos);
      && (forall i | pos <= i < s.read && commands[i].Quit? :: i == s.read - 1)
      && (s.read < |commands| ==> pos < s.read && commands[s.read - 1].Quit?)
      && |s.shown| > 0 && s.shown[|s.shown| - 1] == Prompt
    decreases |commands| - pos
  {
    if pos < |commands| && !commands[pos].Quit? {
      SessionReadsUpToFirstExit(process, commands, pos + 1);
    }
  }

  /**
   * Without an "exit" line the session still ends: at the end of input,
   * having read every line, after one last prompt.
   */
  lemma SessionEndsAtEndOfInput(sv: Services, lines: seq<string>)
    requires forall i | 0 <= i < |lines| :: !CommandOf(lines[i]).Quit?
    ensures var s := ConsoleSession(sv, lines);
      s.read == |lines| && |s.shown| > 0 && s.shown[|s.shown| - 1] == Prompt
  {
    CommandsAt(lines);
    SessionReadsUpToFirstExit(ProcessWith(sv), Commands(lines), 0);
  }

  /**
   * On input that holds an "exit" line the loop as written and the session
   * agree: once it has had enough passes to reach that line, the loop as
   * written has finished, having read, called and shown exactly what the
   * session does.
   */
  lemma {:induction false} AsWrittenAgreesUpToExit(process: string -> Run, commands: seq<Command>, pos: nat, k: nat, n: nat)
    requires pos <= k < |commands| && commands[k].Quit? && n > k - pos
    ensures var p := IterateAsWritten(process, commands, pos, n);
      var s := Interactive(process, commands, pos);
      p.finished && p.pos == s.read && p.calls == s.calls && p.shown == s.shown
    decreases k - pos
  {
    if !commands[pos].Quit? {
      var next: nat, m: nat := pos + 1, n - 1;
      AsWrittenAgreesUpToExit(process, commands, next, k, m);
      AsWrittenStep(process, commands, pos, n, next, m);
    }
  }

  /** One pass of the loop as written over a console line other than "exit". */
  lemma AsWrittenStep(process: string -> Run, commands: seq<Command>, pos: nat, n: nat, next: nat, m: nat)
    requires pos < |commands| && next == pos + 1 && n == m + 1 && !commands[pos].Quit?
    ensures var rest := IterateAsWritten(process, commands, next, m);
      var response := Respond(process, commands[pos]);
      IterateAsWritten(process, commands, pos, n)
        == Progress(rest.pos, rest.finished, response.0 + rest.calls, [Prompt] + response.1 + rest.shown)
  {
    var rest := IterateAsWritten(process, commands, next, m);
    if commands[pos].ShowHelp? {
      assert [Prompt] + [Help] + rest.shown == [Prompt, Help] + rest.shown;
    } else if commands[pos].Skip? {
      assert [Prompt] + [] + rest.shown == [Prompt] + rest.shown;
    }
  }

  /** The commands of joined lines are the joined commands. */
  lemma {:induction false} CommandsAppend(a: seq<string>, b: seq<string>)
    ensures Commands(a + b) == Commands(a) + Commands(b)
  {
    if a != [] {
      assert (a + b)[0] == a[0];
      assert (a + b)[1..] == a[1..] + b;
      CommandsAppend(a[1..], b);
      calc {
        Commands(a + b);
        [CommandOf(a[0])] + Commands(a[1..] + b);
        [CommandOf(a[0])] + (Commands(a[1..]) + Commands(b));
        ([CommandOf(a[0])] + Commands(a[1..])) + Commands(b);
        Commands(a) + Commands(b);
      }
    } else {
      assert a + b == b;
    }
  }

  /** Commands after the first "exit" change nothing. */
  lemma {:induction false} InteractiveIgnoresAfterExit(process: string -> Run, commands: seq<Command>, more: seq<Command>, pos: nat, k: nat)
    requires pos <= k < |commands| && commands[k].Quit?
    ensures Interactive(process, commands + more, pos) == Interactive(process, commands, pos)
    decreases k - pos
  {
    assert (commands + more)[pos] == commands[pos];
    if !commands[pos].Quit? {
      InteractiveIgnoresAfterExit(process, commands, more, pos + 1, k);
    }
  }

  /** Console lines after an "exit" line are never read and change nothing. */
  lemma LinesAfterExitAreIgnored(sv: Services, lines: seq<string>, more: seq<string>, k: nat)
    requires k < |lines| && CommandOf(lines[k]).Quit?
    ensures ConsoleSession(sv, lines + more) == ConsoleSession(sv, lines)
  {
    CommandsAppend(lines, more);
    CommandsAt(lines);
    InteractiveIgnoresAfterExit(ProcessWith(sv), Commands(lines), Commands(more), 0, k);
  }
}
