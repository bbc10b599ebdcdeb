/** The `Logger` facade: the four handlers it attaches to the root logger and
    the routing they produce, the two stream adapters it installs, the
    messages its leveled methods compose, and the line layout of its
    formatter. */
module Facade {
  import opened Wrappers
  import opened Levels
  import opened Logging
  import opened Adapter
  import Strings

  const MEGABYTE: int := 1024 * 1024

  /** Rotation settings of a file handler: the file, the size at which it
      rolls over and how many rolled-over files are kept. */
  datatype Rotation = Rotation(filename: string, maxBytes: int, backupCount: int)

  /** The handlers the constructor attaches, in the order it attaches them:
      log.txt from DEBUG, errors.txt from ERROR, stdout from `logLevel` with
      the filter `levelno <= WARNING`, stderr from ERROR. */
  function Configured(logLevel: int): seq<Handler> {
    [ Handler(LogFile, DEBUG, None),
      Handler(ErrorFile, ERROR, None),
      Handler(Stdout, logLevel, Some(WARNING)),
      Handler(Stderr, ERROR, None) ]
  }

  /** The routing the configuration is meant to give, written out sink by sink. */
  function ExpectedSinks(level: int, logLevel: int): seq<Sink> {
    if level < DEBUG then [] else
      [LogFile]
      + (if ERROR <= level then [ErrorFile] else [])
      + (if logLevel <= level <= WARNING then [Stdout] else [])
      + (if ERROR <= level then [Stderr] else [])
  }

  /** The four configured handlers, behind a root logger at DEBUG, route
      every level exactly as written out in ExpectedSinks. */
  lemma RouteConfigured(level: int, logLevel: int)
    ensures Route(DEBUG, Configured(logLevel), level) == ExpectedSinks(level, logLevel)
  {
    var hs := Configured(logLevel);
    if DEBUG <= level {
      assert hs[1..][1..][1..][1..] == [];
      assert Route(DEBUG, hs[1..][1..][1..], level) == (if ERROR <= level then [Stderr] else []);
      assert Route(DEBUG, hs[1..][1..], level)
        == (if logLevel <= level <= WARNING then [Stdout] else []) + (if ERROR <= level then [Stderr] else []);
    }
  }

  /** The sinks, in handler order, that receive a record at `level` once the
      constructor has configured a pristine root logger with console level
      `logLevel`. */
  function SinksFor(level: int, logLevel: int): (sinks: seq<Sink>)
    ensures LogFile in sinks <==> DEBUG <= level
    ensures ErrorFile in sinks <==> ERROR <= level
    ensures Stderr in sinks <==> ERROR <= level
    ensures Stdout in sinks <==> DEBUG <= level && logLevel <= level <= WARNING
    ensures !(Stdout in sinks && Stderr in sinks)
    ensures forall i, j :: 0 <= i < j < |sinks| ==> sinks[i] != sinks[j]
  {
    RouteConfigured(level, logLevel);
    Route(DEBUG, Configured(logLevel), level)
  }

  /** Where each leveled method's record goes, and where the two captured
      streams' records go. */
  lemma SinksForLevels(logLevel: int)
    ensures SinksFor(DEBUG, logLevel) == if logLevel <= DEBUG then [LogFile, Stdout] else [LogFile]
    ensures SinksFor(INFO, logLevel) == if logLevel <= INFO then [LogFile, Stdout] else [LogFile]
    ensures SinksFor(WARNING, logLevel) == if logLevel <= WARNING then [LogFile, Stdout] else [LogFile]
    ensures SinksFor(ERROR, logLevel) == [LogFile, ErrorFile, Stderr]
  {
    RouteConfigured(DEBUG, logLevel);
    RouteConfigured(INFO, logLevel);
    RouteConfigured(WARNING, logLevel);
    RouteConfigured(ERROR, logLevel);
  }

  /** Text written to the captured stdout is logged at INFO and so shows on
      the console's stdout (when `logLevel` allows) and in log.txt only; text
      written to the captured stderr is logged at ERROR and goes to log.txt,
      errors.txt and stderr. */
  lemma CapturedStreamsRouting(logLevel: int, buf: string)
    ensures forall r :: r in Emitted(INFO, buf) ==>
      r.level == INFO && SinksFor(r.level, logLevel) == if logLevel <= INFO then [LogFile, Stdout] else [LogFile]
    ensures forall r :: r in Emitted(ERROR, buf) ==>
      r.level == ERROR && SinksFor(r.level, logLevel) == [LogFile, ErrorFile, Stderr]
  {
    SinksForLevels(logLevel);
    if buf != "^" {
      EmitLinesAt(INFO, Strings.SplitLines(Strings.RStrip(buf)));
      EmitLinesAt(ERROR, Strings.SplitLines(Strings.RStrip(buf)));
    }
  }

  /** The message of `d`, `i` and `w`: the tag in brackets, a tab, the text. */
  function Tagged(tag: string, text: string): string {
    "[" + tag + "]\t" + text
  }

  /** `str(error)` in the f-string: the literal "None" when no error is given. */
  function ErrorText(error: Option<string>): string {
    match error
    case None => "None"
    case Some(e) => e
  }

  /** The message of `e`. */
  function ErrorMessage(tag: string, text: string, error: Option<string>): string {
    Tagged(tag, text) + "\nError:" + ErrorText(error)
  }

  /** The first position at or after `from` holding `c`, or |s|. */
  function IndexOf(s: string, c: char, from: nat): (k: nat)
    requires from <= |s|
    ensures from <= k <= |s|
    ensures forall i :: from <= i < k ==> s[i] != c
    ensures k < |s| ==> s[k] == c
    decreases |s| - from
  {
    if from == |s| || s[from] == c then from else IndexOf(s, c, from + 1)
  }

  /** Reads a tag and a text back out of a message "[tag]\ttext"; the tag
      ends at the first ']'. */
  function ParseTagged(m: string): Option<(string, string)> {
    if |m| == 0 || m[0] != '[' then None
    else
      var k := IndexOf(m, ']', 1);
      if k + 1 < |m| && m[k + 1] == '\t' then Some((m[1..k], m[k + 2..])) else None
  }

  /** A bracket-free tag and any text can be read back from the composed message. */
  lemma ParseTaggedOfTagged(tag: string, text: string)
    requires ']' !in tag
    ensures ParseTagged(Tagged(tag, text)) == Some((tag, text))
  {
    var m := Tagged(tag, text);
    assert forall i :: 1 <= i < |tag| + 1 ==> m[i] == tag[i - 1];
    assert m[|tag| + 1] == ']' && m[|tag| + 2] == '\t';
    assert m[1..|tag| + 1] == tag;
    assert m[|tag| + 3..] == text;
  }

  /** Every message that reads back as (tag, text) is exactly Tagged(tag, text). */
  lemma TaggedOfParseTagged(m: string)
    requires ParseTagged(m).Some?
    ensures ']' !in ParseTagged(m).value.0
    ensures Tagged(ParseTagged(m).value.0, ParseTagged(m).value.1) == m
  {
    var k := IndexOf(m, ']', 1);
    var tag := m[1..k];
    assert forall i :: 0 <= i < |tag| ==> tag[i] == m[i + 1];
    assert m == [m[0]] + tag + [m[k], m[k + 1]] + m[k + 2..];
  }

  /** The error message is the tagged text followed by "\nError:" and the
      error's text, "None" when there is none. */
  lemma ErrorMessageReadsBack(tag: string, text: string, error: Option<string>)
    requires ']' !in tag
    ensures ParseTagged(ErrorMessage(tag, text, error))
      == Some((tag, text + "\nError:" + ErrorText(error)))
  {
    assert ErrorMessage(tag, text, error) == Tagged(tag, text + "\nError:" + ErrorText(error));
    ParseTaggedOfTagged(tag, text + "\nError:" + ErrorText(error));
  }

  /** Without an error, `e`'s message ends in "\nError:None". */
  lemma ErrorMessageDefault(tag: string, text: string)
    ensures ErrorMessage(tag, text, None) == Tagged(tag, text) + "\nError:None"
  {
  }

  predicate EndsWith(s: string, suffix: string) {
    |suffix| <= |s| && s[|s| - |suffix|..] == suffix
  }

  /** The formatter's layout `%(asctime)s <app> [%(process)d]: [%(levelname)s] %(message)s`;
      the timestamp is passed in already rendered. The application name is
      spliced into the format itself, so it is printed verbatim only when it
      holds no '%'. */
  function FormatLine(asctime: string, appName: string, pid: int, r: Record): string
    requires '%' !in appName
  {
    LinePrefix(asctime, appName, pid) + ("[" + LevelName(r.level) + "] " + r.message)
  }

  function LinePrefix(asctime: string, appName: string, pid: int): string
    requires '%' !in appName
  {
    asctime + " " + appName + " [" + Decimal(pid) + "]: "
  }

  lemma NoBracketInLevelName(level: int)
    ensures ']' !in LevelName(level)
  {
    var d := NatDigits(if level < 0 then -level else level);
    assert forall i :: 0 <= i < |d| ==> d[i] != ']';
  }

  /** A name without ']' is delimited by the first "] " that follows it. */
  lemma BracketDelimited(n1: string, m1: string, n2: string, m2: string)
    requires ']' !in n1 && ']' !in n2
    requires n1 + "] " + m1 == n2 + "] " + m2
    ensures n1 == n2 && m1 == m2
  {
    var s := n1 + "] " + m1;
    assert forall i :: 0 <= i < |n1| ==> s[i] == n1[i] && n1[i] in n1;
    assert forall i :: 0 <= i < |n2| ==> s[i] == n2[i] && n2[i] in n2;
    assert s[|n1|] == ']' && s[|n2|] == ']';
    var k := IndexOf(s, ']', 0);
    assert k == |n1| && k == |n2|;
    assert n1 == s[..k] == n2;
    assert m1 == s[k + 2..] == m2;
  }

  /** With the timestamp, application name and process id fixed, the formatted
      line determines the record: level and message can be read back. */
  lemma FormatLineInjective(asctime: string, appName: string, pid: int, r1: Record, r2: Record)
    requires '%' !in appName
    requires FormatLine(asctime, appName, pid, r1) == FormatLine(asctime, appName, pid, r2)
    ensures r1 == r2
  {
    var p := LinePrefix(asctime, appName, pid);
    var s1 := "[" + LevelName(r1.level) + "] " + r1.message;
    var s2 := "[" + LevelName(r2.level) + "] " + r2.message;
    assert s1 == (p + s1)[|p|..] && s2 == (p + s2)[|p|..];
    assert s1[1..] == LevelName(r1.level) + "] " + r1.message;
    assert s2[1..] == LevelName(r2.level) + "] " + r2.message;
    NoBracketInLevelName(r1.level);
    NoBracketInLevelName(r2.level);
    BracketDelimited(LevelName(r1.level), r1.message, LevelName(r2.level), r2.message);
    LevelNameInjective(r1.level, r2.level);
  }

  /** The formatted line ends with the bracketed level name and the message. */
  lemma FormatLineEnds(asctime: string, appName: string, pid: int, r: Record)
    requires '%' !in appName
    ensures EndsWith(FormatLine(asctime, appName, pid, r), "[" + LevelName(r.level) + "] " + r.message)
  {
    var tail := "[" + LevelName(r.level) + "] " + r.message;
    assert FormatLine(asctime, appName, pid, r)[|LinePrefix(asctime, appName, pid)|..] == tail;
  }

  /** "[ERROR] " followed by `e`'s message, spelled out. */
  lemma ErrorTail(tag: string, text: string, error: Option<string>)
    ensures "[" + LevelName(ERROR) + "] " + ErrorMessage(tag, text, error)
      == "[ERROR] [" + tag + "]\t" + text + "\nError:" + ErrorText(error)
  {
    assert LevelName(ERROR) == "ERROR";
    assert "[" + "ERROR" + "] " + ((("[" + tag + "]\t") + text) + "\nError:" + ErrorText(error))
      == "[ERROR] [" + tag + "]\t" + text + "\nError:" + ErrorText(error);
  }

  /** The line the formatter writes for an `e` call ends with the level and
      the full message, with the error's text last. */
  lemma ErrorLineEnds(asctime: string, appName: string, pid: int,
                      tag: string, text: string, error: Option<string>)
    requires '%' !in appName
    ensures EndsWith(FormatLine(asctime, appName, pid, Record(ERROR, ErrorMessage(tag, text, error))),
                     "[ERROR] [" + tag + "]\t" + text + "\nError:" + ErrorText(error))
  {
    FormatLineEnds(asctime, appName, pid, Record(ERROR, ErrorMessage(tag, text, error)));
    ErrorTail(tag, text, error);
  }

  /** An error logged by a "svc" logger with default settings ends its line
      with "[ERROR] [Boot]\tfailed to bind port\nError:ConnectionRefused" and
      is written to log.txt, errors.txt and stderr but not to stdout. */
  lemma ErrorScenario(asctime: string, pid: int)
    ensures var r := Record(ERROR, ErrorMessage("Boot", "failed to bind port", Some("ConnectionRefused")));
      && EndsWith(FormatLine(asctime, "svc", pid, r),
                  "[ERROR] [" + "Boot" + "]\t" + "failed to bind port" + "\nError:" + "ConnectionRefused")
      && SinksFor(r.level, DEBUG) == [LogFile, ErrorFile, Stderr]
  {
    ErrorLineEnds(asctime, "svc", pid, "Boot", "failed to bind port", Some("ConnectionRefused"));
    SinksForLevels(DEBUG);
  }

  class Logger {
    /** The process-wide root logger, shared with everything else that logs. */
    const root: RootLogger
    const appName: string
    const outputDirectory: string
    const logLevel: int
    const logFile: Rotation
    const errorFile: Rotation
    /** The adapters installed in place of the process's stdout and stderr. */
    const stdout: StreamToLogger
    const stderr: StreamToLogger

    /** The root logger holds exactly this facade's configuration (the case
        after a single construction on a root logger without handlers). */
    ghost predicate Installed()
      reads root
    {
      root.level == DEBUG && root.handlers == Configured(logLevel)
    }

    constructor (root: RootLogger, appName: string, outputDirectory: string,
                 logLevel: int := DEBUG, logFileMaxBytes: int := 1 * MEGABYTE,
                 logBackupCount: int := 10, errorBackupCount: int := 2)
      modifies root
      ensures this.root == root && this.appName == appName
      ensures this.outputDirectory == outputDirectory && this.logLevel == logLevel
      ensures logFile == Rotation(outputDirectory + "/log.txt", logFileMaxBytes, logBackupCount)
      ensures errorFile == Rotation(outputDirectory + "/errors.txt", logFileMaxBytes, errorBackupCount)
      ensures root.level == DEBUG
      ensures root.handlers == old(root.handlers) + Configured(logLevel)
      ensures root.submitted == old(root.submitted) && root.deliveries == old(root.deliveries)
      ensures old(root.handlers) == [] ==> Installed()
      ensures fresh(stdout) && stdout.logger == root && stdout.level == INFO && stdout.linebuf == ""
      ensures fresh(stderr) && stderr.logger == root && stderr.level == ERROR && stderr.linebuf == ""
    {
      this.root := root;
      this.appName := appName;
      this.outputDirectory := outputDirectory;
      this.logLevel := logLevel;
      logFile := Rotation(outputDirectory + "/log.txt", logFileMaxBytes, logBackupCount);
      errorFile := Rotation(outputDirectory + "/errors.txt", logFileMaxBytes, errorBackupCount);
      stdout := new StreamToLogger(root, INFO);
      stderr := new StreamToLogger(root, ERROR);
      new;
      root.SetLevel(DEBUG);
      root.AddHandler(Handler(LogFile, DEBUG, None));
      root.AddHandler(Handler(ErrorFile, ERROR, None));
      root.AddHandler(Handler(Stdout, logLevel, Some(WARNING)));
      root.AddHandler(Handler(Stderr, ERROR, None));
    }

    /** `d`: one DEBUG record "[tag]\ttext". */
    method D(tag: string, text: string)
      modifies root
      ensures root.submitted == old(root.submitted) + [Record(DEBUG, Tagged(tag, text))]
      ensures root.deliveries == old(root.deliveries)
        + Deliver(Route(root.level, root.handlers, DEBUG), Record(DEBUG, Tagged(tag, text)))
      ensures Installed() ==>
        root.deliveries == old(root.deliveries) + Deliver(SinksFor(DEBUG, logLevel), Record(DEBUG, Tagged(tag, text)))
      ensures root.level == old(root.level) && root.handlers == old(root.handlers)
    {
      root.Log(DEBUG, Tagged(tag, text));
    }

    /** `i`: one INFO record "[tag]\ttext". */
    method I(tag: string, text: string)
      modifies root
      ensures root.submitted == old(root.submitted) + [Record(INFO, Tagged(tag, text))]
      ensures root.deliveries == old(root.deliveries)
        + Deliver(Route(root.level, root.handlers, INFO), Record(INFO, Tagged(tag, text)))
      ensures Installed() ==>
        root.deliveries == old(root.deliveries) + Deliver(SinksFor(INFO, logLevel), Record(INFO, Tagged(tag, text)))
      ensures root.level == old(root.level) && root.handlers == old(root.handlers)
    {
      root.Log(INFO, Tagged(tag, text));
    }

    /** `w`: one WARNING record "[tag]\ttext". */
    method W(tag: string, text: string)
      modifies root
      ensures root.submitted == old(root.submitted) + [Record(WARNING, Tagged(tag, text))]
      ensures root.deliveries == old(root.deliveries)
        + Deliver(Route(root.level, root.handlers, WARNING), Record(WARNING, Tagged(tag, text)))
      ensures Installed() ==>
        root.deliveries == old(root.deliveries) + Deliver(SinksFor(WARNING, logLevel), Record(WARNING, Tagged(tag, text)))
      ensures root.level == old(root.level) && root.handlers == old(root.handlers)
    {
      root.Log(WARNING, Tagged(tag, text));
    }

    /** `e`: one ERROR record "[tag]\ttext\nError:<error>". */
    method E(tag: string, text: string, error: Option<string> := None)
      modifies root
      ensures root.submitted == old(root.submitted) + [Record(ERROR, ErrorMessage(tag, text, error))]
      ensures root.deliveries == old(root.deliveries)
        + Deliver(Route(root.level, root.handlers, ERROR), Record(ERROR, ErrorMessage(tag, text, error)))
      ensures Installed() ==>
        root.deliveries == old(root.deliveries) + Deliver(SinksFor(ERROR, logLevel), Record(ERROR, ErrorMessage(tag, text, error)))
      ensures root.level == old(root.level) && root.handlers == old(root.handlers)
    {
      root.Log(ERROR, ErrorMessage(tag, text, error));
    }
  }
}
