/**
 * TranscriptionRunner: the console workflow. One file is processed by
 * transcribing it, summarizing and analysing the transcript, showing the
 * results and saving them; the session either processes the first
 * command-line argument once or reads paths from the console until "exit".
 *
 * The four services are oracles: each is a function from its arguments to
 * the value it returns or the exception it throws. The console is modelled
 * by what is shown (a trace of Display items) and the lines read.
 */
module Runners {
  import opened Outcomes
  import opened Text
  import opened Analytics

  /** A call the runner makes to one of its services. */
  datatype Call =
    | Transcribe(path: string)
    | Summarize(transcript: string)
    | Extract(transcript: string)
    | Save(path: string, transcript: string, summary: string, analytics: AnalyticsData)

  /** What the runner shows on the console, item by item. */
  datatype Display =
    | Banner
    | Help
    | Prompt
    | NotFound(path: string)
    | Transcribing
    | TranscriptionHeading
    | Text(text: string)
    | SummaryHeading
    | AnalyticsHeading
    | WordCount(count: int)
    | Speed(wpm: Double)
    | TopicsHeading
    | TopicRow(topic: string, mentions: int)
    | Rule
    | Complete
    | CancelledNotice
    | ErrorNotice(message: string)

  /** The services the runner is given, and File.Exists. */
  datatype Services = Services(
    fileExists: string -> bool,
    transcribe: string -> Outcome<string>,
    summarize: string -> Outcome<string>,
    extract: string -> Outcome<AnalyticsData>,
    save: (string, string, string, AnalyticsData) -> Outcome<()>)

  /** How processing one file ended. */
  datatype RunOutcome = FileNotFound | Completed | RunCancelled | RunFailed(message: string)

  /** The calls made and the items shown while processing one file. */
  datatype Run = Run(calls: seq<Call>, shown: seq<Display>, outcome: RunOutcome)

  /** The notice the catch clauses show for a failure. */
  function Notice(failure: Outcome<()>): Display
    requires failure.IsFailure()
  {
    if failure.Cancelled? then CancelledNotice else ErrorNotice(failure.message)
  }

  function Caught(failure: Outcome<()>): RunOutcome
    requires failure.IsFailure()
  {
    if failure.Cancelled? then RunCancelled else RunFailed(failure.message)
  }

  function TopicRowOf(t: TopicFrequency): Display {
    TopicRow(t.topic, t.mentions)
  }

  /**
   * The analytics block as far as it gets: the counts, then the topics by
   * descending mentions when there are any. A null topic list stops it after
   * the counts, where `Any()` throws.
   */
  function AnalyticsReport(a: AnalyticsData): seq<Display> {
    [WordCount(a.wordCount), Speed(a.speakingSpeedWpm)]
    + match a.frequentlyMentionedTopics
      case None => []
      case Some(ts) => TopicsReport(ts)
  }

  /** The topic lines of the analytics block: none for an empty list. */
  function TopicsReport(ts: seq<TopicFrequency>): seq<Display> {
    if |ts| > 0 then [TopicsHeading] + MapTopics(TopicRowOf, OrderByMentionsDesc(ts)) else []
  }

  /** What showing the analytics block throws: `Any()` on a null topic list. */
  function ReportFailure(a: AnalyticsData): Outcome<()> {
    if a.frequentlyMentionedTopics.None? then Error(NullSourceMessage) else Ok(())
  }

  /** r preceded by the given calls and displays. */
  function Prepend(calls: seq<Call>, shown: seq<Display>, r: Run): Run {
    Run(calls + r.calls, shown + r.shown, r.outcome)
  }

  /** A step threw: the catch clause reports it and processing ends. */
  function Fail(failure: Outcome<()>): Run
    requires failure.IsFailure()
  {
    Run([], [Notice(failure)], Caught(failure))
  }

  /** ProcessFileAsync, as a function of the services' answers. */
  function Process(sv: Services, filePath: string): Run {
    ProcessPath(sv, TrimChar(filePath, '"'))
  }

  /** ProcessFileAsync once the surrounding quotes are removed from the path. */
  function ProcessPath(sv: Services, path: string): Run {
    if !sv.fileExists(path) then Run([], [NotFound(path)], FileNotFound)
    else Prepend([], [Transcribing], TranscriptionRun(sv, path))
  }

  /**
   * ProcessFileAsync from the transcription step on: the transcriber is
   * called; a failure is reported by the catch clauses and ends the run; a
   * transcript is shown and summarized.
   */
  function TranscriptionRun(sv: Services, path: string): Run {
    var t := sv.transcribe(path);
    Prepend([Transcribe(path)], [],
      if t.IsFailure() then Fail(t.PropagateFailure())
      else Prepend([], [TranscriptionHeading, Text(t.value), SummaryHeading], SummaryRun(sv, path, t.value)))
  }

  /** ProcessFileAsync from the summarization step on. */
  function SummaryRun(sv: Services, path: string, transcript: string): Run {
    var s := sv.summarize(transcript);
    Prepend([Summarize(transcript)], [],
      if s.IsFailure() then Fail(s.PropagateFailure())
      else Prepend([], [Text(s.value), AnalyticsHeading], ExtractionRun(sv, path, transcript, s.value)))
  }

  /** ProcessFileAsync from the analytics step on. */
  function ExtractionRun(sv: Services, path: string, transcript: string, summary: string): Run {
    var a := sv.extract(transcript);
    Prepend([Extract(transcript)], [],
      if a.IsFailure() then Fail(a.PropagateFailure())
      else if ReportFailure(a.value).IsFailure() then Prepend([], AnalyticsReport(a.value), Fail(ReportFailure(a.value)))
      else Prepend([], AnalyticsReport(a.value) + [Rule], SavingRun(sv, path, transcript, summary, a.value)))
  }

  /** ProcessFileAsync from the saving step on. */
  function SavingRun(sv: Services, path: string, transcript: string, summary: string, analytics: AnalyticsData): Run {
    var saved := sv.save(path, transcript, summary, analytics);
    Prepend([Save(path, transcript, summary, analytics)], [],
      if saved.IsFailure() then Fail(saved) else Run([], [Complete], Completed))
  }

  // The interactive session

  /** What one console line asks for. */
  datatype Command = Quit | ShowHelp | Skip | Open(path: string)

  /** The meaning of a trimmed input line. */
  function ParseCommand(input: string): Command {
    if EqualsIgnoreCase(input, "exit") then Quit
    else if EqualsIgnoreCase(input, "help") then ShowHelp
    else if IsBlank(input) then Skip
    else Open(input)
  }

  /** The command a console line carries: the line trimmed, then parsed. */
  function CommandOf(line: string): Command {
    ParseCommand(Trim(line))
  }

  /** The commands of the console lines, in order. */
  function Commands(lines: seq<string>): seq<Command> {
    if lines == [] then [] else [CommandOf(lines[0])] + Commands(lines[1..])
  }

  /** The i-th command is the one the i-th line carries. */
  lemma {:induction false} CommandsAt(lines: seq<string>)
    ensures |Commands(lines)| == |lines|
    ensures forall i | 0 <= i < |lines| :: Commands(lines)[i] == CommandOf(lines[i])
  {
    if lines != [] {
      CommandsAt(lines[1..]);
      assert forall i | 1 <= i < |lines| :: lines[1..][i - 1] == lines[i];
    }
  }

  /** What the session from command `pos` on calls and shows, and how many lines it reads. */
  datatype Session = Session(read: nat, calls: seq<Call>, shown: seq<Display>)

  /**
   * What the loop body does for a command other than "exit", given what
   * processing a path does: the calls and the displays.
   */
  function Respond(process: string -> Run, c: Command): (seq<Call>, seq<Display>)
    requires !c.Quit?
  {
    match c
    case ShowHelp => ([], [Help])
    case Skip => ([], [])
    case Open(path) => (process(path).calls, process(path).shown)
  }

  /**
   * The interactive loop from command `pos`, given what processing a path
   * does: one prompt per command until "exit" or the end of input.
   */
  function Interactive(process: string -> Run, commands: seq<Command>, pos: nat): (s: Session)
    requires pos <= |commands|
    ensures pos <= s.read <= |commands|
    decreases |commands| - pos
  {
    if pos == |commands| then Session(pos, [], [Prompt])
    else if commands[pos].Quit? then Session(pos + 1, [], [Prompt])
    else
      var (called, displayed) := Respond(process, commands[pos]);
      var rest := Interactive(process, commands, pos + 1);
      Session(rest.read, called + rest.calls, [Prompt] + displayed + rest.shown)
  }

  /** ProcessFileAsync with the runner's services, as a function of the path. */
  function ProcessWith(sv: Services): string -> Run {
    path => Process(sv, path)
  }

  /** ProcessWith applies ProcessFileAsync to every path. */
  lemma ProcessWithProcesses(sv: Services)
    ensures forall path {:trigger Process(sv, path)} :: ProcessWith(sv)(path) == Process(sv, path)
  {
  }

  /** The interactive session over the console lines. */
  function ConsoleSession(sv: Services, lines: seq<string>): (s: Session)
    ensures s.read <= |lines|
  {
    CommandsAt(lines);
    Interactive(ProcessWith(sv), Commands(lines), 0)
  }

  /** The runner: its services, the calls made so far and everything shown. */
  class Runner {
    const services: Services
    var calls: seq<Call>
    var shown: seq<Display>

    constructor (services: Services)
      ensures this.services == services && calls == [] && shown == []
    {
      this.services := services;
      calls := [];
      shown := [];
    }

    /** The catch clauses: the failure is reported and nothing else happens. */
    method Report(failure: Outcome<()>)
      requires failure.IsFailure()
      modifies this
      ensures calls == old(calls) && shown == old(shown) + [Notice(failure)]
    {
      if failure.Cancelled? {
        shown := shown + [CancelledNotice];
      } else {
        shown := shown + [ErrorNotice(failure.message)];
      }
    }

    /** The analytics block of ProcessFileAsync; `r` is what it throws, if anything. */
    method ShowAnalytics(a: AnalyticsData) returns (r: Outcome<()>)
      modifies this
      ensures r == ReportFailure(a)
      ensures calls == old(calls) && shown == old(shown) + AnalyticsReport(a)
    {
      shown := shown + [WordCount(a.wordCount), Speed(a.speakingSpeedWpm)];
      if a.frequentlyMentionedTopics.None? {
        return Error(NullSourceMessage);
      }
      ShowTopics(a.frequentlyMentionedTopics.value);
      return Ok(());
    }

    /** The topic rows of the analytics block, most mentioned first, under their heading. */
    method ShowTopics(topics: seq<TopicFrequency>)
      modifies this
      ensures calls == old(calls) && shown == old(shown) + TopicsReport(topics)
    {
      if |topics| > 0 {
        shown := shown + [TopicsHeading];
        ShowTopicRows(OrderByMentionsDesc(topics));
      }
    }

    /** The foreach over the ordered topics: one row per topic, in order. */
    method ShowTopicRows(ordered: seq<TopicFrequency>)
      modifies this
      ensures calls == old(calls) && shown == old(shown) + MapTopics(TopicRowOf, ordered)
    {
      ghost var rows := MapTopics(TopicRowOf, ordered);
      assert |rows| == |ordered| by { MapTopicsAt(TopicRowOf, ordered); }
      for i := 0 to |ordered|
        invariant calls == old(calls)
        invariant shown == old(shown) + rows[..i]
      {
        MapTopicsIndex(TopicRowOf, ordered, i);
        shown := shown + [TopicRowOf(ordered[i])];
        assert rows[..i + 1] == rows[..i] + [rows[i]];
      }
      assert rows[..|ordered|] == rows;
    }

    /** ProcessFileAsync. */
    method ProcessFile(filePath: string)
      modifies this
      ensures calls == old(calls) + Process(services, filePath).calls
      ensures shown == old(shown) + Process(services, filePath).shown
    {
      var path := TrimChar(filePath, '"');
      ProcessUnquoted(path);
    }

    /** ProcessFileAsync after its first statement. */
    method ProcessUnquoted(path: string)
      modifies this
      ensures calls == old(calls) + ProcessPath(services, path).calls
      ensures shown == old(shown) + ProcessPath(services, path).shown
    {
      if !services.fileExists(path) {
        shown := shown + [NotFound(path)];
        return;
      }
      shown := shown + [Transcribing];
      TranscribeStage(path);
    }

    /** The transcription step of ProcessFileAsync and everything after it. */
    method TranscribeStage(path: string)
      modifies this
      ensures calls == old(calls) + TranscriptionRun(services, path).calls
      ensures shown == old(shown) + TranscriptionRun(services, path).shown
    {
      calls := calls + [Transcribe(path)];
      var transcript := services.transcribe(path);
      if transcript.IsFailure() {
        Report(transcript.PropagateFailure());
        return;
      }
      var t := transcript.value;
      shown := shown + [TranscriptionHeading, Text(t)];
      shown := shown + [SummaryHeading];
      SummarizeStage(path, t);
    }

    /** The summarization step of ProcessFileAsync and everything after it. */
    method SummarizeStage(path: string, transcript: string)
      modifies this
      ensures calls == old(calls) + SummaryRun(services, path, transcript).calls
      ensures shown == old(shown) + SummaryRun(services, path, transcript).shown
    {
      calls := calls + [Summarize(transcript)];
      var summary := services.summarize(transcript);
      if summary.IsFailure() {
        Report(summary.PropagateFailure());
        return;
      }
      var s := summary.value;
      shown := shown + [Text(s)];
      shown := shown + [AnalyticsHeading];
      ExtractStage(path, transcript, s);
    }

    /** The analytics step of ProcessFileAsync and everything after it. */
    method ExtractStage(path: string, transcript: string, summary: string)
      modifies this
      ensures calls == old(calls) + ExtractionRun(services, path, transcript, summary).calls
      ensures shown == old(shown) + ExtractionRun(services, path, transcript, summary).shown
    {
      calls := calls + [Extract(transcript)];
      var analytics := services.extract(transcript);
      if analytics.IsFailure() {
        Report(analytics.PropagateFailure());
        return;
      }
      var a := analytics.value;
      var shownAll := ShowAnalytics(a);
      if shownAll.IsFailure() {
        Report(shownAll);
        return;
      }
      shown := shown + [Rule];
      SaveStage(path, transcript, summary, a);
    }

    /** The saving step of ProcessFileAsync and the closing message. */
    method SaveStage(path: string, transcript: string, summary: string, analytics: AnalyticsData)
      modifies this
      ensures calls == old(calls) + SavingRun(services, path, transcript, summary, analytics).calls
      ensures shown == old(shown) + SavingRun(services, path, transcript, summary, analytics).shown
    {
      calls := calls + [Save(path, transcript, summary, analytics)];
      var saved := services.save(path, transcript, summary, analytics);
      if saved.IsFailure() {
        Report(saved);
        return;
      }
      shown := shown + [Complete];
    }

    /**
     * ExecuteAsync: the banner, then either the first argument processed once
     * or the interactive loop over the console lines. Returns how many lines
     * were read.
     */
    method Execute(args: seq<string>, lines: seq<string>) returns (read: nat)
      modifies this
      ensures |args| > 0 ==>
        read == 0
        && calls == old(calls) + Process(services, args[0]).calls
        && shown == old(shown) + [Banner, Help] + Process(services, args[0]).shown
      ensures |args| == 0 ==>
        var s := ConsoleSession(services, lines);
        read == s.read && calls == old(calls) + s.calls && shown == old(shown) + [Banner, Help] + s.shown
    {
      shown := shown + [Banner, Help];
      if |args| > 0 {
        ProcessFile(args[0]);
        return 0;
      }
      read := Interact(lines);
    }

    /** The interactive part of ExecuteAsync, reading from `lines`. */
    method Interact(lines: seq<string>) returns (read: nat)
      modifies this
      ensures var s := ConsoleSession(services, lines);
        read == s.read && calls == old(calls) + s.calls && shown == old(shown) + s.shown
    {
      ghost var process := ProcessWith(services);
      ProcessWithProcesses(services);
      ghost var commands := Commands(lines);
      CommandsAt(lines);
      ghost var total := Interactive(process, commands, 0);
      ghost var rest := total;
      var pos := 0;
      var done := false;
      while !done
        invariant pos <= |lines|
        invariant !done ==> rest == Interactive(process, commands, pos)
        invariant done ==> rest == Session(pos, [], [])
        invariant rest.read == total.read
        invariant calls + rest.calls == old(calls) + total.calls
        invariant shown + rest.shown == old(shown) + total.shown
        decreases |lines| - pos, !done
      {
        var stop, next, left := Iteration(lines, commands, process, pos);
        pos, done, rest := next, stop, left;
      }
      read := pos;
    }

    /**
     * One pass of the interactive loop at command `pos`: it ends the session
     * (`stop`, having read `next` lines), or the session carries on at
     * `next`, what is still to come being `left`.
     */
    method Iteration(lines: seq<string>, ghost commands: seq<Command>, ghost process: string -> Run, pos: nat)
      returns (stop: bool, next: nat, ghost left: Session)
      requires commands == Commands(lines) && |commands| == |lines| && pos <= |lines|
      requires forall path {:trigger Process(services, path)} :: process(path) == Process(services, path)
      modifies this
      ensures pos <= next <= |lines| && (!stop ==> next == pos + 1)
      ensures stop ==> left == Session(next, [], []) && next == Interactive(process, commands, pos).read
      ensures !stop ==> left == Interactive(process, commands, next)
      ensures left.read == Interactive(process, commands, pos).read
      ensures calls + left.calls == old(calls) + Interactive(process, commands, pos).calls
      ensures shown + left.shown == old(shown) + Interactive(process, commands, pos).shown
    {
      if pos == |lines| {
        shown := shown + [Prompt];
        return true, pos, Session(pos, [], []);
      }
      var command := NextCommand(lines, pos);
      if command.Quit? {
        shown := shown + [Prompt];
        return true, pos + 1, Session(pos + 1, [], []);
      }
      left := Carry(commands, process, pos, command);
      return false, pos + 1, left;
    }

    /** A loop pass for a command other than "exit": the prompt, then the response. */
    method Carry(ghost commands: seq<Command>, ghost process: string -> Run, pos: nat, command: Command)
      returns (ghost left: Session)
      requires pos < |commands| && commands[pos] == command && !command.Quit?
      requires forall path {:trigger Process(services, path)} :: process(path) == Process(services, path)
      modifies this
      ensures left == Interactive(process, commands, pos + 1)
      ensures left.read == Interactive(process, commands, pos).read
      ensures calls + left.calls == old(calls) + Interactive(process, commands, pos).calls
      ensures shown + left.shown == old(shown) + Interactive(process, commands, pos).shown
    {
      shown := shown + [Prompt];
      ghost var calls0, shown0 := calls, shown;
      RespondTo(process, command);
      ghost var response := Respond(process, command);
      left := Interactive(process, commands, pos + 1);
      assert calls + left.calls == calls0 + (response.0 + left.calls);
      assert shown + left.shown == shown0 + (response.1 + left.shown);
    }

    /** Console.ReadLine()?.Trim() and its meaning, for a line that is there. */
    method NextCommand(lines: seq<string>, pos: nat) returns (c: Command)
      requires pos < |lines|
      ensures |Commands(lines)| == |lines| && c == Commands(lines)[pos]
    {
      CommandsAt(lines);
      c := CommandOf(lines[pos]);
    }

    /** The body of the interactive loop for a command that does not end it. */
    method RespondTo(ghost process: string -> Run, command: Command)
      requires !command.Quit?
      requires forall path {:trigger Process(services, path)} :: process(path) == Process(services, path)
      modifies this
      ensures calls == old(calls) + Respond(process, command).0
      ensures shown == old(shown) + Respond(process, command).1
    {
      match command
      case ShowHelp =>
        shown := shown + [Help];
      case Skip =>
      case Open(path) =>
        ProcessFile(path);
    }
  }

  // The loop as written

  /** Console.ReadLine: the next line, or null at the end of input. */
  function LineAt(lines: seq<string>, pos: nat): Option<string> {
    if pos < |lines| then Some(lines[pos]) else None
  }

  /**
   * `Console.ReadLine()?.Trim() ?? string.Empty`, parsed: a line gives its
   * command; null (the end of input) becomes the empty string, which is blank.
   */
  function ReadCommandAsWritten(line: Option<string>): Command {
    match line
    case None => ParseCommand("")
    case Some(l) => CommandOf(l)
  }

  /** The command the loop as written reads at `pos`, given the commands of the console lines. */
  function CommandReadAt(commands: seq<Command>, pos: nat): Command {
    if pos < |commands| then commands[pos] else ParseCommand("")
  }

  /** Over the commands of the console lines, CommandReadAt is what each Console.ReadLine yields. */
  lemma CommandReadAtIsConsoleRead(lines: seq<string>, pos: nat)
    ensures |Commands(lines)| == |lines|
    ensures CommandReadAt(Commands(lines), pos) == ReadCommandAsWritten(LineAt(lines, pos))
  {
    CommandsAt(lines);
  }

  /**
   * `n` iterations of the loop as written from command `pos`, given what
   * processing a path does; `finished` once "exit" was read. Past the last
   * line every read is null.
   */
  datatype Progress = Progress(pos: nat, finished: bool, calls: seq<Call>, shown: seq<Display>)

  function IterateAsWritten(process: string -> Run, commands: seq<Command>, pos: nat, n: nat): Progress
    requires pos <= |commands|
    decreases n
  {
    if n == 0 then Progress(pos, false, [], [])
    else
      var next := if pos < |commands| then pos + 1 else pos;
      match CommandReadAt(commands, pos)
      case Quit => Progress(next, true, [], [Prompt])
      case ShowHelp =>
        var rest := IterateAsWritten(process, commands, next, n - 1);
        rest.(shown := [Prompt, Help] + rest.shown)
      case Open(path) =>
        var rest := IterateAsWritten(process, commands, next, n - 1);
        rest.(calls := process(path).calls + rest.calls, shown := [Prompt] + process(path).shown + rest.shown)
      case Skip =>
        var rest := IterateAsWritten(process, commands, next, n - 1);
        rest.(shown := [Prompt] + rest.shown)
  }

  /** The loop as written never ends once the input is exhausted: it only prompts, forever. */
  lemma {:induction false} AsWrittenSpinsAtEndOfInput(sv: Services, lines: seq<string>, n: nat)
    ensures |Commands(lines)| == |lines|
    ensures var p := IterateAsWritten(ProcessWith(sv), Commands(lines), |lines|, n);
      !p.finished && p.pos == |lines| && p.calls == [] && p.shown == seq(n, _ => Prompt)
  {
    CommandsAt(lines);
    assert ParseCommand("") == Skip;
    if n > 0 {
      AsWrittenSpinsAtEndOfInput(sv, lines, n - 1);
      assert [Prompt] + seq(n - 1, _ => Prompt) == seq(n, _ => Prompt);
    }
  }
}
