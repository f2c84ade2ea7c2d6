/**
 * MarkdownResultSaver.SaveAsync: three Markdown files named after the audio
 * file and the current second, written one after another into "Transcripts"
 * under the application's base directory, then listed on the console.
 */
module ResultSaving {
  import opened Outcomes
  import opened Text
  import opened Paths
  import opened Analytics
  import opened Timestamps

  const OutputFolder: string := "Transcripts"
  const Bullet: string := " \U{2022} "

  /** What the saver can observe of the disk and the console. */
  datatype Disk = Disk(
    directories: set<string>,
    files: map<string, string>,
    attempts: seq<string>,   // the files opened for writing, in order
    console: seq<string>)

  /**
   * The file system and console the saver runs against. `faults` is the
   * oracle for I/O failures: creating the directory or opening a file at one
   * of its paths throws, with the exception message it maps to.
   */
  class FileSystem {
    var directories: set<string>
    var files: map<string, string>
    var attempts: seq<string>
    var console: seq<string>
    const faults: map<string, string>

    constructor (directories: set<string>, files: map<string, string>, faults: map<string, string>)
      ensures Snapshot() == Disk(directories, files, [], []) && this.faults == faults
    {
      this.directories := directories;
      this.files := files;
      this.attempts := [];
      this.console := [];
      this.faults := faults;
    }

    function Snapshot(): Disk
      reads this
    {
      Disk(directories, files, attempts, console)
    }

    /** Directory.CreateDirectory: throws at a faulty path, otherwise the directory exists afterwards. */
    method CreateDirectory(path: string) returns (r: Outcome<()>)
      modifies this
      ensures path in faults ==> r == Error(faults[path]) && Snapshot() == old(Snapshot())
      ensures path !in faults ==> r == Ok(()) && Snapshot() == old(Snapshot()).(directories := old(directories) + {path})
    {
      if path in faults {
        return Error(faults[path]);
      }
      directories := directories + {path};
      return Ok(());
    }

    /**
     * File.WriteAllTextAsync with a cancellation token: a cancelled token
     * throws before the file is touched; otherwise the file is opened and
     * either the open throws or the file holds exactly `text`.
     */
    method WriteAllText(path: string, text: string, cancelled: bool) returns (r: Outcome<()>)
      modifies this
      ensures var e := WriteOne(old(Snapshot()), faults, cancelled, FileWrite(path, text, true));
        r == e.outcome && Snapshot() == e.disk
    {
      if cancelled {
        return Cancelled;
      }
      attempts := attempts + [path];
      if path in faults {
        return Error(faults[path]);
      }
      files := files[path := text];
      return Ok(());
    }

    /** new StreamWriter(path): the open throws, or the file exists and is empty. */
    method CreateText(path: string) returns (r: Outcome<()>)
      modifies this
      ensures var e := WriteOne(old(Snapshot()), faults, false, FileWrite(path, "", false));
        r == e.outcome && Snapshot() == e.disk
    {
      attempts := attempts + [path];
      if path in faults {
        return Error(faults[path]);
      }
      files := files[path := ""];
      return Ok(());
    }

    /** StreamWriter.WriteLineAsync on an open file: appends the line and "\n". */
    method WriteLine(path: string, line: string)
      requires path in files
      modifies this
      ensures files == old(files)[path := old(files)[path] + line + "\n"]
      ensures directories == old(directories) && attempts == old(attempts) && console == old(console)
    {
      files := files[path := files[path] + line + "\n"];
    }

    /** Console.WriteLine. */
    method PrintLine(line: string)
      modifies this
      ensures console == old(console) + [line]
      ensures directories == old(directories) && files == old(files) && attempts == old(attempts)
    {
      console := console + [line];
    }
  }

  /** One file the saver writes, and whether the write observes the cancellation token. */
  datatype FileWrite = FileWrite(path: string, text: string, observesToken: bool)

  /** What a step leaves behind: its outcome and the disk afterwards. */
  datatype Effect = Effect(outcome: Outcome<()>, disk: Disk)

  /** A write fails when the token stops it or the open throws. */
  predicate Fails(faults: map<string, string>, cancelled: bool, w: FileWrite) {
    (w.observesToken && cancelled) || w.path in faults
  }

  /** One write, as the file system performs it. */
  function WriteOne(d: Disk, faults: map<string, string>, cancelled: bool, w: FileWrite): Effect {
    if w.observesToken && cancelled then Effect(Cancelled, d)
    else if w.path in faults then Effect(Error(faults[w.path]), d.(attempts := d.attempts + [w.path]))
    else Effect(Ok(()), d.(attempts := d.attempts + [w.path], files := d.files[w.path := w.text]))
  }

  /** Writes in order; the first exception ends the sequence and is passed on. */
  function WriteAll(d: Disk, faults: map<string, string>, cancelled: bool, ws: seq<FileWrite>): Effect
    decreases |ws|
  {
    if ws == [] then Effect(Ok(()), d)
    else
      var first := WriteOne(d, faults, cancelled, ws[0]);
      if !first.outcome.Ok? then first else WriteAll(first.disk, faults, cancelled, ws[1..])
  }

  /** The index of the first write that fails, or |ws| when none does. */
  function FirstFailure(faults: map<string, string>, cancelled: bool, ws: seq<FileWrite>): (k: nat)
    ensures k <= |ws|
    ensures forall j | 0 <= j < k :: !Fails(faults, cancelled, ws[j])
    ensures k < |ws| ==> Fails(faults, cancelled, ws[k])
  {
    if ws == [] then 0
    else if Fails(faults, cancelled, ws[0]) then 0
    else 1 + FirstFailure(faults, cancelled, ws[1..])
  }

  function PathsOf(ws: seq<FileWrite>): seq<string> {
    if ws == [] then [] else [ws[0].path] + PathsOf(ws[1..])
  }

  /** The files after the given writes all succeed, in order. */
  function ApplyWrites(files: map<string, string>, ws: seq<FileWrite>): map<string, string>
    decreases |ws|
  {
    if ws == [] then files else ApplyWrites(files[ws[0].path := ws[0].text], ws[1..])
  }

  /**
   * The outcome is Ok exactly when no write fails; otherwise it is the
   * exception of the first failing write. Directories and console are untouched.
   */
  lemma {:induction false} WriteAllStopsAtFirstFailure(d: Disk, faults: map<string, string>, cancelled: bool, ws: seq<FileWrite>)
    ensures var e := WriteAll(d, faults, cancelled, ws); var k := FirstFailure(faults, cancelled, ws);
      (e.outcome.Ok? <==> k == |ws|)
      && (k < |ws| ==> e.outcome == (if ws[k].observesToken && cancelled then Cancelled else Error(faults[ws[k].path])))
      && e.disk.directories == d.directories && e.disk.console == d.console
    decreases |ws|
  {
    if ws != [] {
      var first := WriteOne(d, faults, cancelled, ws[0]);
      if first.outcome.Ok? {
        WriteAllStopsAtFirstFailure(first.disk, faults, cancelled, ws[1..]);
        assert ws[1..][FirstFailure(faults, cancelled, ws[1..])..] == ws[1 + FirstFailure(faults, cancelled, ws[1..])..];
      }
    }
  }

  /** Exactly the writes before the first failure take effect, in order. */
  lemma {:induction false} WriteAllAppliesPrefix(d: Disk, faults: map<string, string>, cancelled: bool, ws: seq<FileWrite>)
    ensures WriteAll(d, faults, cancelled, ws).disk.files == ApplyWrites(d.files, ws[..FirstFailure(faults, cancelled, ws)])
    decreases |ws|
  {
    if ws != [] {
      var first := WriteOne(d, faults, cancelled, ws[0]);
      if first.outcome.Ok? {
        WriteAllAppliesPrefix(first.disk, faults, cancelled, ws[1..]);
        var k := FirstFailure(faults, cancelled, ws[1..]);
        assert ws[..k + 1][0] == ws[0];
        assert ws[..k + 1][1..] == ws[1..][..k];
      } else {
        assert ws[..0] == [];
      }
    }
  }

  /**
   * The files opened are those of the writes before the first failure, then
   * the failing one unless the token stopped it before the open.
   */
  lemma WriteAllAttempts(d: Disk, faults: map<string, string>, cancelled: bool, ws: seq<FileWrite>)
    ensures var k := FirstFailure(faults, cancelled, ws);
      WriteAll(d, faults, cancelled, ws).disk.attempts
        == d.attempts + PathsOf(ws[..k]) + (if k < |ws| && !(ws[k].observesToken && cancelled) then [ws[k].path] else [])
  {
    WriteAllOpens(d, faults, cancelled, ws);
    OpenedUpToFirstFailure(faults, cancelled, ws);
  }

  /** The files the writes open, in order, until one fails. */
  function Opened(faults: map<string, string>, cancelled: bool, ws: seq<FileWrite>): seq<string> {
    if ws == [] || (ws[0].observesToken && cancelled) then []
    else if ws[0].path in faults then [ws[0].path]
    else [ws[0].path] + Opened(faults, cancelled, ws[1..])
  }

  lemma {:induction false} WriteAllOpens(d: Disk, faults: map<string, string>, cancelled: bool, ws: seq<FileWrite>)
    ensures WriteAll(d, faults, cancelled, ws).disk.attempts == d.attempts + Opened(faults, cancelled, ws)
    decreases |ws|
  {
    if ws != [] && !Fails(faults, cancelled, ws[0]) {
      var first := WriteOne(d, faults, cancelled, ws[0]);
      WriteAllOpens(first.disk, faults, cancelled, ws[1..]);
      assert first.disk.attempts == d.attempts + [ws[0].path];
    }
  }

  lemma {:induction false} OpenedUpToFirstFailure(faults: map<string, string>, cancelled: bool, ws: seq<FileWrite>)
    ensures var k := FirstFailure(faults, cancelled, ws);
      Opened(faults, cancelled, ws)
        == PathsOf(ws[..k]) + (if k < |ws| && !(ws[k].observesToken && cancelled) then [ws[k].path] else [])
    decreases |ws|
  {
    if ws != [] {
      if Fails(faults, cancelled, ws[0]) {
        assert ws[..0] == [];
      } else {
        var more := ws[1..];
        OpenedUpToFirstFailure(faults, cancelled, more);
        var k := FirstFailure(faults, cancelled, more);
        PathsOfPrefix(ws, k);
      }
    }
  }

  /** The paths of a non-empty prefix: the first path, then the paths of the rest's prefix. */
  lemma PathsOfPrefix(ws: seq<FileWrite>, k: nat)
    requires k < |ws|
    ensures PathsOf(ws[..k + 1]) == [ws[0].path] + PathsOf(ws[1..][..k])
  {
    assert ws[..k + 1][0] == ws[0] && ws[..k + 1][1..] == ws[1..][..k];
  }

  /** With pairwise distinct paths, each applied write leaves its own text and other files untouched. */
  lemma {:induction false} ApplyWritesLookup(files: map<string, string>, ws: seq<FileWrite>, p: string)
    requires forall i, j | 0 <= i < j < |ws| :: ws[i].path != ws[j].path
    ensures (forall j | 0 <= j < |ws| :: ws[j].path != p) ==>
      (p in ApplyWrites(files, ws) <==> p in files) && (p in files ==> ApplyWrites(files, ws)[p] == files[p])
    ensures forall j | 0 <= j < |ws| && ws[j].path == p :: p in ApplyWrites(files, ws) && ApplyWrites(files, ws)[p] == ws[j].text
    decreases |ws|
  {
    if ws != [] {
      ApplyWritesLookup(files[ws[0].path := ws[0].text], ws[1..], p);
      forall j | 1 <= j < |ws| ensures ws[j].path == ws[1..][j - 1].path {
      }
    }
  }

  // The three documents

  /** `{kind}_{base}_{timestamp}.md`. */
  function OutputFileName(kind: string, baseName: string, timestamp: string): string {
    kind + "_" + baseName + "_" + timestamp + ".md"
  }

  function TopicLine(t: TopicFrequency): string {
    "  - " + t.topic + ": " + IntToString(t.mentions)
  }

  function TopicLines(ts: seq<TopicFrequency>): (ls: seq<string>)
    ensures |ls| == |ts| && forall i | 0 <= i < |ts| :: ls[i] == TopicLine(ts[i])
  {
    MapTopicsAt(TopicLine, ts);
    MapTopics(TopicLine, ts)
  }

  const WordCountLabel: string := "- **Word count:** "
  const SpeedLabel: string := "- **Speaking speed (WPM):** "

  /** The fixed lines that open the analytics file; `formatSpeed` is the "F2" number format. */
  function AnalyticsHeader(a: AnalyticsData, formatSpeed: Double -> string): seq<string> {
    ["# Analytics", "", WordCountLabel + IntToString(a.wordCount),
     SpeedLabel + formatSpeed(a.speakingSpeedWpm), "- **Top topics:**"]
  }

  /**
   * The lines of the analytics file. A null topic list stops it after the
   * fixed lines: OrderByDescending throws there.
   */
  function AnalyticsLines(a: AnalyticsData, formatSpeed: Double -> string): seq<string> {
    AnalyticsHeader(a, formatSpeed)
    + match a.frequentlyMentionedTopics
      case None => []
      case Some(ts) => TopicLines(OrderByMentionsDesc(ts))
  }

  /** What a StreamWriter holds after WriteLine of each line in turn. */
  function JoinLines(ls: seq<string>): string {
    if ls == [] then "" else JoinLines(ls[..|ls| - 1]) + ls[|ls| - 1] + "\n"
  }

  lemma JoinLinesSnoc(ls: seq<string>, i: nat)
    requires i < |ls|
    ensures JoinLines(ls[..i + 1]) == JoinLines(ls[..i]) + ls[i] + "\n"
  {
    assert ls[..i + 1][..i] == ls[..i];
  }

  lemma {:induction false} JoinLinesAppend(a: seq<string>, b: seq<string>)
    ensures JoinLines(a + b) == JoinLines(a) + JoinLines(b)
    decreases |b|
  {
    if b == [] {
      assert a + b == a;
    } else {
      var b' := b[..|b| - 1];
      assert (a + b)[..|a + b| - 1] == a + b';
      JoinLinesAppend(a, b');
    }
  }

  /** Where SaveAsync puts the `kind` document for the audio file at `now`. */
  function OutputPath(baseDirectory: string, audioFilePath: string, now: DateTime, kind: string): string
    requires ValidDateTime(now)
  {
    var outputDir := Combine(baseDirectory, OutputFolder);
    Combine(outputDir, OutputFileName(kind, GetFileNameWithoutExtension(audioFilePath), FormatTimestamp(now)))
  }

  /** Everything SaveAsync derives from its arguments before touching the disk. */
  datatype SavePlan = SavePlan(
    outputDirectory: string,
    transcriptPath: string,
    summaryPath: string,
    analyticsPath: string,
    transcriptText: string,
    summaryText: string,
    analyticsLines: seq<string>,
    topicsNull: bool)   // the topic list is null, so writing the analytics file throws after its fixed lines

  function Plan(baseDirectory: string, audioFilePath: string, now: DateTime, transcript: string, summary: string,
                analytics: AnalyticsData, formatSpeed: Double -> string): SavePlan
    requires ValidDateTime(now)
  {
    SavePlan(
      Combine(baseDirectory, OutputFolder),
      OutputPath(baseDirectory, audioFilePath, now, "translation"),
      OutputPath(baseDirectory, audioFilePath, now, "summary"),
      OutputPath(baseDirectory, audioFilePath, now, "analytics"),
      "# Transcript\n\n" + transcript,
      "# Summary\n\n" + summary,
      AnalyticsLines(analytics, formatSpeed),
      analytics.frequentlyMentionedTopics.None?)
  }

  /** The three writes in source order; only the first two observe the token. */
  function PlannedWrites(p: SavePlan): seq<FileWrite> {
    [FileWrite(p.transcriptPath, p.transcriptText, true),
     FileWrite(p.summaryPath, p.summaryText, true),
     FileWrite(p.analyticsPath, JoinLines(p.analyticsLines), false)]
  }

  /** The console listing printed after the last write. */
  function SavedListing(transcriptPath: string, summaryPath: string, analyticsPath: string): seq<string> {
    ["Files saved:", Bullet + transcriptPath, Bullet + summaryPath, Bullet + analyticsPath]
  }

  /**
   * SaveAsync's effect: create the directory, write the three files, then
   * list them. A null topic list throws once the analytics file is written.
   */
  function SaveEffect(d: Disk, faults: map<string, string>, cancelled: bool, p: SavePlan): Effect {
    if p.outputDirectory in faults then Effect(Error(faults[p.outputDirectory]), d)
    else
      var e := WriteAll(d.(directories := d.directories + {p.outputDirectory}), faults, cancelled, PlannedWrites(p));
      if !e.outcome.Ok? then e
      else if p.topicsNull then Effect(Error(NullSourceMessage), e.disk)
      else Effect(Ok(()), e.disk.(console := e.disk.console + SavedListing(p.transcriptPath, p.summaryPath, p.analyticsPath)))
  }

  /**
   * The analytics file: a StreamWriter is opened at `path` and the lines are
   * written one WriteLineAsync at a time, the topics in descending order of
   * mentions. The file holds exactly JoinLines(AnalyticsLines(...)) afterwards;
   * with a null topic list that is the fixed lines, and the call then throws.
   */
  method WriteAnalyticsFile(fs: FileSystem, path: string, analytics: AnalyticsData, formatSpeed: Double -> string)
    returns (r: Outcome<()>)
    modifies fs
    ensures var e := WriteOne(old(fs.Snapshot()), fs.faults, false,
                              FileWrite(path, JoinLines(AnalyticsLines(analytics, formatSpeed)), false));
      && r == (if e.outcome.Ok? && analytics.frequentlyMentionedTopics.None? then Error(NullSourceMessage) else e.outcome)
      && fs.Snapshot() == e.disk
  {
    r := fs.CreateText(path);
    if !r.Ok? {
      return;
    }
    ghost var opened0 := fs.files;
    assert opened0 == old(fs.files)[path := ""];
    var header := AnalyticsHeader(analytics, formatSpeed);
    AppendLines(fs, path, header);
    assert "" + JoinLines(header) == JoinLines(header);
    assert fs.files == opened0[path := JoinLines(header)];
    if analytics.frequentlyMentionedTopics.None? {
      assert AnalyticsLines(analytics, formatSpeed) == header;
      return Error(NullSourceMessage);
    }
    var topics := OrderByMentionsDesc(analytics.frequentlyMentionedTopics.value);
    AppendLines(fs, path, TopicLines(topics));
    JoinLinesAppend(header, TopicLines(topics));
    assert fs.files == opened0[path := JoinLines(header) + JoinLines(TopicLines(topics))];
    assert JoinLines(header) + JoinLines(TopicLines(topics)) == JoinLines(AnalyticsLines(analytics, formatSpeed));
    assert fs.files == old(fs.files)[path := JoinLines(AnalyticsLines(analytics, formatSpeed))];
  }

  /** WriteLineAsync of each line in turn to the open file at `path`. */
  method AppendLines(fs: FileSystem, path: string, ls: seq<string>)
    requires path in fs.files
    modifies fs
    ensures fs.files == old(fs.files)[path := old(fs.files)[path] + JoinLines(ls)]
    ensures fs.directories == old(fs.directories) && fs.attempts == old(fs.attempts) && fs.console == old(fs.console)
  {
    ghost var start := old(fs.files)[path];
    assert ls[..0] == [] && start + "" == start;
    assert fs.files == old(fs.files)[path := start + JoinLines(ls[..0])];
    for k := 0 to |ls|
      invariant fs.files == old(fs.files)[path := start + JoinLines(ls[..k])]
      invariant fs.directories == old(fs.directories) && fs.attempts == old(fs.attempts) && fs.console == old(fs.console)
    {
      fs.WriteLine(path, ls[k]);
      JoinLinesSnoc(ls, k);
      assert start + JoinLines(ls[..k]) + ls[k] + "\n" == start + JoinLines(ls[..k + 1]);
    }
    assert ls[..|ls|] == ls;
  }

  /** The closing console listing of the three saved files. */
  method ReportSaved(fs: FileSystem, transcriptPath: string, summaryPath: string, analyticsPath: string)
    modifies fs
    ensures fs.console == old(fs.console) + SavedListing(transcriptPath, summaryPath, analyticsPath)
    ensures fs.directories == old(fs.directories) && fs.files == old(fs.files) && fs.attempts == old(fs.attempts)
  {
    fs.PrintLine("Files saved:");
    fs.PrintLine(Bullet + transcriptPath);
    fs.PrintLine(Bullet + summaryPath);
    fs.PrintLine(Bullet + analyticsPath);
  }

  /** SaveAsync. `now` is DateTime.Now and `cancelled` the state of the cancellation token. */
  method SaveAsync(fs: FileSystem, baseDirectory: string, audioFilePath: string, transcript: string, summary: string,
                   analytics: AnalyticsData, now: DateTime, formatSpeed: Double -> string, cancelled: bool)
    returns (r: Outcome<()>)
    requires ValidDateTime(now)
    modifies fs
    ensures var e := SaveEffect(old(fs.Snapshot()), fs.faults, cancelled,
                                Plan(baseDirectory, audioFilePath, now, transcript, summary, analytics, formatSpeed));
      r == e.outcome && fs.Snapshot() == e.disk
  {
    var plan := Plan(baseDirectory, audioFilePath, now, transcript, summary, analytics, formatSpeed);
    r := CarryOut(fs, plan, analytics, formatSpeed, cancelled);
  }

  /** The disk work of SaveAsync once the directory and file names are known. */
  method CarryOut(fs: FileSystem, p: SavePlan, analytics: AnalyticsData, formatSpeed: Double -> string, cancelled: bool)
    returns (r: Outcome<()>)
    requires p.analyticsLines == AnalyticsLines(analytics, formatSpeed)
    requires p.topicsNull == analytics.frequentlyMentionedTopics.None?
    modifies fs
    ensures var e := SaveEffect(old(fs.Snapshot()), fs.faults, cancelled, p);
      r == e.outcome && fs.Snapshot() == e.disk
  {
    ghost var ws := PlannedWrites(p);
    ghost var d0 := fs.Snapshot();
    r := fs.CreateDirectory(p.outputDirectory);
    if !r.Ok? {
      return;
    }
    ghost var d1 := fs.Snapshot();

    r := fs.WriteAllText(p.transcriptPath, p.transcriptText, cancelled);
    ghost var e1 := WriteOne(d1, fs.faults, cancelled, ws[0]);
    assert WriteAll(d1, fs.faults, cancelled, ws) == if e1.outcome.Ok? then WriteAll(e1.disk, fs.faults, cancelled, ws[1..]) else e1;
    if !r.Ok? {
      return;
    }
    ghost var d2 := fs.Snapshot();

    r := fs.WriteAllText(p.summaryPath, p.summaryText, cancelled);
    ghost var e2 := WriteOne(d2, fs.faults, cancelled, ws[1]);
    assert ws[1..][0] == ws[1] && ws[1..][1..] == ws[2..];
    assert WriteAll(d2, fs.faults, cancelled, ws[1..]) == if e2.outcome.Ok? then WriteAll(e2.disk, fs.faults, cancelled, ws[2..]) else e2;
    if !r.Ok? {
      return;
    }
    ghost var d3 := fs.Snapshot();

    r := WriteAnalyticsFile(fs, p.analyticsPath, analytics, formatSpeed);
    ghost var e3 := WriteOne(d3, fs.faults, cancelled, ws[2]);
    assert ws[2..][0] == ws[2] && ws[2..][1..] == [];
    assert WriteAll(d3, fs.faults, cancelled, ws[2..]) == if e3.outcome.Ok? then WriteAll(e3.disk, fs.faults, cancelled, []) else e3;
    if !r.Ok? {
      return;
    }
    ReportSaved(fs, p.transcriptPath, p.summaryPath, p.analyticsPath);
  }

  // Properties of a save

  /**
   * The save succeeds exactly when nothing throws: the directory and all
   * three files open, the token is not cancelled and the topic list is not null.
   */
  lemma SaveSucceedsExactly(d: Disk, faults: map<string, string>, cancelled: bool, p: SavePlan)
    ensures SaveEffect(d, faults, cancelled, p).outcome.Ok?
        <==> p.outputDirectory !in faults && !cancelled
             && p.transcriptPath !in faults && p.summaryPath !in faults && p.analyticsPath !in faults
             && !p.topicsNull
  {
    if p.outputDirectory !in faults {
      WriteAllStopsAtFirstFailure(d.(directories := d.directories + {p.outputDirectory}), faults, cancelled, PlannedWrites(p));
      PlannedFirstFailure(faults, cancelled, p);
    }
  }

  /** Where the three planned writes stop: the token or the transcript, the summary, the analytics file, or nowhere. */
  lemma PlannedFirstFailure(faults: map<string, string>, cancelled: bool, p: SavePlan)
    ensures FirstFailure(faults, cancelled, PlannedWrites(p))
         == if cancelled || p.transcriptPath in faults then 0
            else if p.summaryPath in faults then 1
            else if p.analyticsPath in faults then 2
            else 3
  {
    var ws := PlannedWrites(p);
    assert ws[1..] == [ws[1], ws[2]];
    assert ws[1..][1..] == [ws[2]];
    assert ws[1..][1..][1..] == [];
  }

  /**
   * Files are opened in the order transcript, summary, analytics; the first
   * failure stops the sequence, and all three are opened when the save succeeds.
   */
  lemma SaveOpensFilesInOrder(d: Disk, faults: map<string, string>, cancelled: bool, p: SavePlan)
    ensures var e := SaveEffect(d, faults, cancelled, p);
      |d.attempts| <= |e.disk.attempts| && e.disk.attempts[..|d.attempts|] == d.attempts
      && e.disk.attempts[|d.attempts|..] <= [p.transcriptPath, p.summaryPath, p.analyticsPath]
      && (e.outcome.Ok? ==> e.disk.attempts[|d.attempts|..] == [p.transcriptPath, p.summaryPath, p.analyticsPath])
  {
    var ws := PlannedWrites(p);
    if p.outputDirectory !in faults {
      var d1 := d.(directories := d.directories + {p.outputDirectory});
      WriteAllAttempts(d1, faults, cancelled, ws);
      WriteAllStopsAtFirstFailure(d1, faults, cancelled, ws);
      var k := FirstFailure(faults, cancelled, ws);
      assert ws[..0] == [];
      assert ws[..1] == [ws[0]];
      assert ws[..2] == [ws[0], ws[1]];
      assert ws[..3] == ws;
      PlannedFirstFailure(faults, cancelled, p);
      assert [ws[0]][1..] == [] && [ws[0], ws[1]][1..] == [ws[1]];
      assert ws[1..] == [ws[1], ws[2]] && ws[1..][1..] == [ws[2]] && [ws[2]][1..] == [];
      assert PathsOf(ws[..1]) == [ws[0].path];
      assert PathsOf(ws[..2]) == [ws[0].path, ws[1].path];
      assert PathsOf(ws[1..][1..]) == [ws[2].path];
      assert PathsOf(ws[1..]) == [ws[1].path, ws[2].path];
      assert PathsOf(ws) == [ws[0].path, ws[1].path, ws[2].path];
      var after := WriteAll(d1, faults, cancelled, ws).disk.attempts;
      assert after[|d.attempts|..] == after[|d1.attempts|..];
    }
  }

  /**
   * When the directory and the three files open and the token is not
   * cancelled, each file holds exactly its document and every other file is
   * kept; then the listing of the three paths is printed, or, for a null
   * topic list, ArgumentNullException is thrown and nothing is printed.
   */
  lemma SavedFilesHoldDocuments(d: Disk, faults: map<string, string>, cancelled: bool, p: SavePlan)
    requires p.transcriptPath != p.summaryPath && p.transcriptPath != p.analyticsPath && p.summaryPath != p.analyticsPath
    requires p.outputDirectory !in faults && !cancelled
    requires p.transcriptPath !in faults && p.summaryPath !in faults && p.analyticsPath !in faults
    ensures var e := SaveEffect(d, faults, cancelled, p);
      && p.transcriptPath in e.disk.files && e.disk.files[p.transcriptPath] == p.transcriptText
      && p.summaryPath in e.disk.files && e.disk.files[p.summaryPath] == p.summaryText
      && p.analyticsPath in e.disk.files && e.disk.files[p.analyticsPath] == JoinLines(p.analyticsLines)
      && e.disk.directories == d.directories + {p.outputDirectory}
      && e.outcome == (if p.topicsNull then Error(NullSourceMessage) else Ok(()))
      && e.disk.console == d.console + (if p.topicsNull then [] else SavedListing(p.transcriptPath, p.summaryPath, p.analyticsPath))
    ensures var e := SaveEffect(d, faults, cancelled, p);
      forall f | f in d.files && f != p.transcriptPath && f != p.summaryPath && f != p.analyticsPath ::
        f in e.disk.files && e.disk.files[f] == d.files[f]
  {
    var ws := PlannedWrites(p);
    var d1 := d.(directories := d.directories + {p.outputDirectory});
    PlannedFirstFailure(faults, cancelled, p);
    WriteAllStopsAtFirstFailure(d1, faults, cancelled, ws);
    WriteAllAppliesPrefix(d1, faults, cancelled, ws);
    assert ws[..3] == ws;
    var files := ApplyWrites(d.files, ws);
    assert SaveEffect(d, faults, cancelled, p).disk.files == files;
    assert forall i, j | 0 <= i < j < |ws| :: ws[i].path != ws[j].path;
    ApplyWritesLookup(d.files, ws, p.transcriptPath);
    assert ws[0].path == p.transcriptPath;
    ApplyWritesLookup(d.files, ws, p.summaryPath);
    assert ws[1].path == p.summaryPath;
    ApplyWritesLookup(d.files, ws, p.analyticsPath);
    assert ws[2].path == p.analyticsPath;
    forall f | f in d.files && f != p.transcriptPath && f != p.summaryPath && f != p.analyticsPath
      ensures f in files && files[f] == d.files[f]
    {
      ApplyWritesLookup(d.files, ws, f);
    }
  }

  /**
   * A failed save prints nothing; a save whose token is already cancelled
   * creates the directory but opens and writes no file.
   */
  lemma FailedSaveReportsNothing(d: Disk, faults: map<string, string>, cancelled: bool, p: SavePlan)
    requires !SaveEffect(d, faults, cancelled, p).outcome.Ok?
    ensures SaveEffect(d, faults, cancelled, p).disk.console == d.console
    ensures cancelled && p.outputDirectory !in faults ==>
      var e := SaveEffect(d, faults, cancelled, p);
      e.outcome == Cancelled && e.disk.files == d.files && e.disk.attempts == d.attempts
  {
    if p.outputDirectory !in faults {
      WriteAllStopsAtFirstFailure(d.(directories := d.directories + {p.outputDirectory}), faults, cancelled, PlannedWrites(p));
    }
  }

  lemma {:induction false} LastIndexOfAfter(x: string, y: string, c: char)
    requires c !in y
    ensures LastIndexOf(x + [c] + y, c) == |x|
    decreases |y|
  {
    var s := x + [c] + y;
    if y != [] {
      assert s[..|s| - 1] == x + [c] + y[..|y| - 1];
      LastIndexOfAfter(x, y[..|y| - 1], c);
    }
  }

  /** A plan's file name: `{kind}_{base}_{yyyyMMdd_HHmmss}.md` inside the output directory. */
  lemma PlannedFileName(outputDir: string, kind: string, baseName: string, now: DateTime)
    requires ValidDateTime(now) && outputDir != [] && kind != [] && kind[0] != Separator
    requires Separator !in kind && Separator !in baseName
    ensures var path := Combine(outputDir, OutputFileName(kind, baseName, FormatTimestamp(now)));
      outputDir <= path && GetFileName(path) == OutputFileName(kind, baseName, FormatTimestamp(now))
  {
    var ts := FormatTimestamp(now);
    var name := OutputFileName(kind, baseName, ts);
    forall i | 0 <= i < |ts| ensures ts[i] != Separator {
      if i < 8 {
        assert ts[i] == ts[..8][i];
      } else if i > 8 {
        assert ts[i] == ts[9..][i - 9];
      }
    }
    assert Separator !in name by {
      assert forall i | 0 <= i < |name| :: name[i] in kind || name[i] == '_' || name[i] in baseName
                                          || name[i] in ts || name[i] in ".md";
    }
    var path := Combine(outputDir, name);
    if outputDir[|outputDir| - 1] == Separator {
      assert path == outputDir[..|outputDir| - 1] + [Separator] + name;
      LastIndexOfAfter(outputDir[..|outputDir| - 1], name, Separator);
    } else {
      LastIndexOfAfter(outputDir, name, Separator);
    }
  }

  /** Each document is named `{kind}_{base}_{yyyyMMdd_HHmmss}.md` and lies inside the output directory. */
  lemma PlannedPathNamed(baseDirectory: string, audioFilePath: string, now: DateTime, kind: string)
    requires ValidDateTime(now) && kind in ["translation", "summary", "analytics"]
    ensures var path := OutputPath(baseDirectory, audioFilePath, now, kind);
      Combine(baseDirectory, OutputFolder) <= path
      && GetFileName(path) == OutputFileName(kind, GetFileNameWithoutExtension(audioFilePath), FormatTimestamp(now))
  {
    PlannedFileName(Combine(baseDirectory, OutputFolder), kind, GetFileNameWithoutExtension(audioFilePath), now);
  }

  /** The three documents of one save never collide. */
  lemma PlannedPathsDistinct(baseDirectory: string, audioFilePath: string, now: DateTime)
    requires ValidDateTime(now)
    ensures var t, s, a := OutputPath(baseDirectory, audioFilePath, now, "translation"),
                          OutputPath(baseDirectory, audioFilePath, now, "summary"),
                          OutputPath(baseDirectory, audioFilePath, now, "analytics");
      t != s && t != a && s != a
  {
    PlannedPathNamed(baseDirectory, audioFilePath, now, "translation");
    PlannedPathNamed(baseDirectory, audioFilePath, now, "summary");
    PlannedPathNamed(baseDirectory, audioFilePath, now, "analytics");
    assert GetFileName(OutputPath(baseDirectory, audioFilePath, now, "translation"))[0] == 't';
    assert GetFileName(OutputPath(baseDirectory, audioFilePath, now, "summary"))[0] == 's';
    assert GetFileName(OutputPath(baseDirectory, audioFilePath, now, "analytics"))[0] == 'a';
  }

  /** Saves of the same audio file at different seconds never overwrite each other. */
  lemma PlannedPathsIdentifyTime(baseDirectory: string, audioFilePath: string, now1: DateTime, now2: DateTime, kind: string)
    requires ValidDateTime(now1) && ValidDateTime(now2)
    requires kind in ["translation", "summary", "analytics"]
    requires OutputPath(baseDirectory, audioFilePath, now1, kind) == OutputPath(baseDirectory, audioFilePath, now2, kind)
    ensures now1 == now2
  {
    PlannedPathNamed(baseDirectory, audioFilePath, now1, kind);
    PlannedPathNamed(baseDirectory, audioFilePath, now2, kind);
    var prefix := kind + "_" + GetFileNameWithoutExtension(audioFilePath) + "_";
    var n1 := OutputFileName(kind, GetFileNameWithoutExtension(audioFilePath), FormatTimestamp(now1));
    var n2 := OutputFileName(kind, GetFileNameWithoutExtension(audioFilePath), FormatTimestamp(now2));
    assert n1 == n2;
    assert n1[|prefix|..|prefix| + 15] == FormatTimestamp(now1);
    assert n2[|prefix|..|prefix| + 15] == FormatTimestamp(now2);
    FormatTimestampInjective(now1, now2);
  }

  /**
   * After a successful SaveAsync the transcript, summary and analytics files
   * hold their documents under their planned names.
   */
  lemma SaveAsyncWritesDocuments(d: Disk, faults: map<string, string>, cancelled: bool, baseDirectory: string,
                                 audioFilePath: string, transcript: string, summary: string, analytics: AnalyticsData,
                                 now: DateTime, formatSpeed: Double -> string)
    requires ValidDateTime(now)
    requires SaveEffect(d, faults, cancelled, Plan(baseDirectory, audioFilePath, now, transcript, summary, analytics, formatSpeed)).outcome.Ok?
    ensures var files := SaveEffect(d, faults, cancelled, Plan(baseDirectory, audioFilePath, now, transcript, summary, analytics, formatSpeed)).disk.files;
      var t, s, a := OutputPath(baseDirectory, audioFilePath, now, "translation"),
                     OutputPath(baseDirectory, audioFilePath, now, "summary"),
                     OutputPath(baseDirectory, audioFilePath, now, "analytics");
      && t in files && files[t] == "# Transcript\n\n" + transcript
      && s in files && files[s] == "# Summary\n\n" + summary
      && a in files && files[a] == JoinLines(AnalyticsLines(analytics, formatSpeed))
  {
    var p := Plan(baseDirectory, audioFilePath, now, transcript, summary, analytics, formatSpeed);
    PlannedPathsDistinct(baseDirectory, audioFilePath, now);
    SaveSucceedsExactly(d, faults, cancelled, p);
    SavedFilesHoldDocuments(d, faults, cancelled, p);
  }

  // Properties of the analytics document

  /** Every input topic gets exactly one line: the topic lines are a rearrangement of the input's. */
  lemma TopicLinesArePermutation(s: seq<TopicFrequency>)
    ensures multiset(TopicLines(OrderByMentionsDesc(s))) == multiset(TopicLines(s))
  {
    MapTopicsOfOrderIsPermutation(TopicLine, s);
  }

  /**
   * The analytics document: five fixed lines, then one line per topic from
   * most to fewest mentions; the word-count line reads back as the count.
   */
  lemma AnalyticsDocumentLayout(a: AnalyticsData, formatSpeed: Double -> string)
    ensures var ls := AnalyticsLines(a, formatSpeed);
      && |ls| == 5 + |a.frequentlyMentionedTopics.GetOr([])|
      && ls[0] == "# Analytics" && ls[1] == "" && ls[4] == "- **Top topics:**"
      && ls[3] == SpeedLabel + formatSpeed(a.speakingSpeedWpm)
      && WordCountLabel <= ls[2]
      && var n := ls[2][|WordCountLabel|..];
         |n| >= 1 && (if n[0] == '-' then AllDigits(n[1..]) else AllDigits(n)) && ParseInt(n) == a.wordCount
    ensures var ts := OrderByMentionsDesc(a.frequentlyMentionedTopics.GetOr([]));
      forall i | 0 <= i < |ts| :: AnalyticsLines(a, formatSpeed)[5 + i] == TopicLine(ts[i])
  {
    var ls := AnalyticsLines(a, formatSpeed);
    var ts := OrderByMentionsDesc(a.frequentlyMentionedTopics.GetOr([]));
    OrderByMentionsDescIsPermutation(a.frequentlyMentionedTopics.GetOr([]));
    assert ls[2][|WordCountLabel|..] == IntToString(a.wordCount);
    IntToStringRoundTrip(a.wordCount);
  }
}
