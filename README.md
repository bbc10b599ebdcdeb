# A verified model of the dandroid126 logging utility

The utility configures Python's process-wide root logger for one
application. It attaches four handlers: a rotating `log.txt`, a rotating
`errors.txt`, the console's stdout and the console's stderr. It replaces
the process's stdout and stderr with `StreamToLogger` adapters, and it
offers the leveled methods `d`, `i`, `w` and `e`, which prefix each message
with a caller tag. This project models three things in Dafny:

- **The stream adapter** (`adapter.dfy`). `StreamToLogger` is a class
  bound to a shared `RootLogger` object. Its `Write` method strips trailing
  whitespace from the buffer, splits the result into lines, and logs each
  line with its own trailing whitespace stripped. Nothing is logged when
  the untrimmed buffer is exactly `"^"`. `Write` is proved against the
  specification function `Emitted`, and the listed properties are lemmas
  about `Emitted`. `rstrip()` and `splitlines()` are written out in
  `strings.dfy` over the full Python character sets.
- **Routing** (`logging.dfy`, `facade.dfy`). `Route` is the library's rule
  for which handlers a record reaches. The record must pass the logger's
  level, then each handler's level, then its filter. `Configured` is the
  handler list the constructor attaches. `SinksFor(level, logLevel)` is the
  resulting routing; its contract states which sinks a record reaches.
  `ExpectedSinks` spells out the same routing sink by sink, and
  `RouteConfigured` proves the two agree.
- **Message composition and layout** (`facade.dfy`, `levels.dfy`):
  - `Tagged` is the message `"[tag]\ttext"`, and `ParseTagged` is its
    proved inverse.
  - `ErrorMessage` appends `"\nError:"` and the error's text, which is
    `"None"` when no error is given.
  - `FormatLine` is the formatter's layout for an application name without
    `%`. The timestamp is passed in already rendered, and the process id is
    printed with `%d`.

The `Logger` class does what `Logger.__init__` does. It sets the root
level to DEBUG, appends the four handlers, and creates the two adapters at
INFO and ERROR. Its methods `D`, `I`, `W` and `E` each log one record.
Routing holds when the root logger carries exactly this configuration
(`Installed()`): then each method's ensures gives the record's deliveries
as `SinksFor` of the method's level.

An interior blank line is emitted as an empty message (logger.py:38-40;
`EmittedOfLines`, `EmittedBlankLine`). Every `splitlines` boundary ends a
line, and `"\r\n"` counts as one boundary (`SplitLinesAtBreak`,
`EmittedAtBreak`).

`StreamToLogger.Write` delegates its loop to `StreamToLogger.LogLines`.
`LogLines` runs the same per-line loop, taking the loop-invariant
`not buf == "^"` test as the flag `emit`. Splitting it out keeps the proof
small; the behaviour is unchanged.

## Model

| member | source | states |
|---|---|---|
| `Strings.IsSpace` | src/dandroid126_utils/logger.py:38 | the characters `rstrip()` removes: Python's `str.isspace` set (ASCII 0x09-0x0D, 0x1C-0x20, and the Unicode separators) |
| `Strings.IsLineBreak` | src/dandroid126_utils/logger.py:38 | the single-character boundaries of `splitlines()`: \n \r \v \f 0x1C-0x1E, NEL, U+2028, U+2029 |
| `Strings.LineBreakIsSpace` | src/dandroid126_utils/logger.py:38 | every `splitlines()` boundary character is whitespace to `rstrip()`, so a trailing boundary is stripped before splitting |
| `Strings.RStrip` | src/dandroid126_utils/logger.py:38 | `rstrip()` returns a prefix of its input that does not end in whitespace, and everything it cuts off is whitespace (Python's `isspace` set) |
| `Strings.RStripUnique` | src/dandroid126_utils/logger.py:38 | those three properties determine `rstrip()`'s result uniquely |
| `Strings.RStripIdempotent` | src/dandroid126_utils/logger.py:40 | stripping an already stripped line changes nothing |
| `Strings.RStripEmptyIff` | src/dandroid126_utils/logger.py:38 | a buffer strips to the empty string exactly when it is empty or all whitespace |
| `Strings.RStripAppendSpace` | src/dandroid126_utils/logger.py:38 | trailing whitespace appended to text that does not end in whitespace is exactly what `rstrip()` removes |
| `Strings.RStripSpaceTail` | src/dandroid126_utils/logger.py:38 | whitespace appended to any string does not change what `rstrip()` returns |
| `Strings.FirstBreak` | src/dandroid126_utils/logger.py:38 | the position of the first `splitlines` boundary: no boundary before it, and a boundary at it unless it is the end |
| `Strings.SplitLines` | src/dandroid126_utils/logger.py:38 | no piece of `splitlines()` contains a line boundary; the result is empty exactly when the input is (the pieces themselves are fixed by `SplitLinesAtBreak` and `SplitLinesOne`) |
| `Strings.SplitLinesAtBreak` | src/dandroid126_utils/logger.py:38 | for every input: `splitlines()` cuts at the first whole boundary (`\r\n` as one, a lone `\r`, or any other boundary character) and carries on after it |
| `Strings.SplitLinesOne` | src/dandroid126_utils/logger.py:38 | a non-empty text without boundaries is a single line |
| `Strings.SplitLinesNewlineCr` | src/dandroid126_utils/logger.py:38 | for boundary-free `a` and non-empty boundary-free `b`, `a + "\n\r" + b` splits as `a`, `""`, `b`: `\n\r` is two boundaries |
| `Strings.SplitJoin` | src/dandroid126_utils/logger.py:38 | `splitlines()` gives back the boundary-free lines that `"\n".join` put together, when the last line is non-empty |
| `Strings.JoinLinesNoTrailingSpace` | src/dandroid126_utils/logger.py:38 | joined lines end in whitespace only if the last line does |
| `Levels.LevelName` | src/dandroid126_utils/logger.py:73 | `%(levelname)s`: the library's name for the standard levels, `"Level N"` for any other |
| `Levels.DecimalRoundTrip` | src/dandroid126_utils/logger.py:73 | supporting fact, not a promise of the utility: the library's `%d` rendering of the process id reads back as the same integer; it serves `FormatLineInjective` |
| `Levels.LevelNameInjective` | src/dandroid126_utils/logger.py:73 | supporting fact about the library: distinct levels print under distinct `%(levelname)s` names; it serves `FormatLineInjective` |
| `Logging.Handles` | src/dandroid126_utils/logger.py:77-93 | the handler test of the library: the record's level reaches the handler's level and passes its filter |
| `Logging.Route` | src/dandroid126_utils/logger.py:70-99 | the library's dispatch: nothing below the logger's level, otherwise each handler in order that handles the record |
| `Logging.RouteMembers` | src/dandroid126_utils/logger.py:70-99 | a record reaches a sink iff it passes the logger's level and some handler on that sink passes its level and filter; at most one delivery per handler |
| `Logging.RootLogger.constructor` | src/dandroid126_utils/logger.py:69 | the root logger starts at WARNING with no handlers and nothing logged |
| `Logging.RootLogger.SetLevel` | src/dandroid126_utils/logger.py:70 | sets the level and changes nothing else |
| `Logging.RootLogger.AddHandler` | src/dandroid126_utils/logger.py:96-99 | appends the handler to the end of the list and changes nothing else |
| `Logging.RootLogger.Log` | src/dandroid126_utils/logger.py:40 | appends the record to the submitted records and delivers it to the sinks the routing rule selects, in handler order |
| `Adapter.StreamToLogger.constructor` | src/dandroid126_utils/logger.py:13-26 | the adapter keeps its logger and level (INFO by default), and `linebuf` is `""` and is a constant |
| `Adapter.StreamToLogger.Write` | src/dandroid126_utils/logger.py:28-40 | the logger's records grow by exactly `Emitted(level, buf)`; its deliveries grow by each of those records handed, in order, to the sinks that the routing rule selects for the adapter's level; the logger's level and handlers are unchanged |
| `Adapter.StreamToLogger.LogLines` | src/dandroid126_utils/logger.py:38-40 | the loop logs one stripped record per line, in order, when the sentinel test passes, and nothing otherwise |
| `Adapter.StreamToLogger.Flush` | src/dandroid126_utils/logger.py:42-49 | flushing leaves the logger unchanged, however often it is called |
| `Adapter.EmitLines` | src/dandroid126_utils/logger.py:38-40 | the loop of `write`: one `log(level, line.rstrip())` per line, in order |
| `Adapter.Emitted` | src/dandroid126_utils/logger.py:38-40 | the records one `write(buf)` logs: none when `buf` is exactly `"^"`, otherwise `EmitLines` of `buf.rstrip().splitlines()` |
| `Adapter.EmitLinesAt` | src/dandroid126_utils/logger.py:38-40 | one record per line, at the adapter's level, carrying that line stripped |
| `Adapter.EmittedRecords` | src/dandroid126_utils/logger.py:38-40 | unless the buffer is `"^"`: one record per line of `buf.rstrip().splitlines()`, in order, at the configured level. Each message is a prefix of its line (leading whitespace kept), the cut-off part is whitespace, and the message has no line boundary and no trailing whitespace |
| `Adapter.EmittedNothingIff` | src/dandroid126_utils/logger.py:38-39 | a write emits nothing iff the buffer is `"^"` or is empty or all whitespace |
| `Adapter.EmittedOfLines` | src/dandroid126_utils/logger.py:38-40 | lines joined by `"\n"` and followed by any whitespace are logged line for line, blank interior lines as empty messages; the only exception is the buffer `"^"` |
| `Adapter.EmittedLastLine` | src/dandroid126_utils/logger.py:38-40 | a non-blank boundary-free line followed only by whitespace is logged as exactly one record, the line stripped |
| `Adapter.EmittedBeforeLine` | src/dandroid126_utils/logger.py:38-40 | when non-whitespace text follows the first whole boundary, the line before it is one stripped record and the rest is logged line by line |
| `Adapter.EmittedAtBreak` | src/dandroid126_utils/logger.py:38-40 | for every buffer that is not blank both before and after its first whole line boundary: the line before the boundary becomes one stripped record, and the rest is logged line by line; a buffer blank on both sides logs nothing (`EmittedNothingIff`) |
| `Adapter.EmittedCrlf` | src/dandroid126_utils/logger.py:38-40 | `"a\r\nb\r\n"` logs `"a"`, `"b"` |
| `Adapter.EmittedLoneCr` | src/dandroid126_utils/logger.py:38-40 | `"a\rb"` logs `"a"`, `"b"` |
| `Adapter.EmittedLineSeparator` | src/dandroid126_utils/logger.py:38-40 | `"a"` U+2028 `"b"` logs `"a"`, `"b"` |
| `Adapter.SentinelIsExact` | src/dandroid126_utils/logger.py:39-40 | `"^"` emits nothing, but `"^\n"` emits the record `"^"` and `" ^"` emits `" ^"` |
| `Adapter.EmittedBlankLine` | src/dandroid126_utils/logger.py:38-40 | `"a\n\n  b \n"` emits `"a"`, `""`, `"  b"` |
| `Facade.Configured` | src/dandroid126_utils/logger.py:75-99 | the four handlers in the order they are added: log.txt from DEBUG, errors.txt from ERROR, stdout from `logLevel` with the filter `levelno <= WARNING`, stderr from ERROR |
| `Facade.RouteConfigured` | src/dandroid126_utils/logger.py:70-99 | the four configured handlers behind a root at DEBUG route every level as `ExpectedSinks` writes out sink by sink |
| `Facade.SinksFor` | src/dandroid126_utils/logger.py:70-99 | for any level: log.txt iff level ≥ DEBUG; errors.txt and stderr iff ≥ ERROR; stdout iff ≥ DEBUG and `logLevel` ≤ level ≤ WARNING; never both stdout and stderr; no sink twice |
| `Facade.SinksForLevels` | src/dandroid126_utils/logger.py:70-99 | DEBUG, INFO and WARNING records go to log.txt and, when `logLevel` allows, to stdout; ERROR records go to log.txt, errors.txt and stderr |
| `Facade.CapturedStreamsRouting` | src/dandroid126_utils/logger.py:100-101 | text captured from stdout is logged at INFO (log.txt, and stdout when `logLevel` ≤ INFO); text captured from stderr is logged at ERROR (log.txt, errors.txt, stderr) |
| `Facade.Tagged` | src/dandroid126_utils/logger.py:114 | the message of `d`, `i` and `w` (lines 114, 127, 140): `"[" + tag + "]\t" + text` |
| `Facade.ErrorText` | src/dandroid126_utils/logger.py:154 | `{error}` in the f-string: the error's text, or `"None"` when there is none |
| `Facade.ErrorMessage` | src/dandroid126_utils/logger.py:154 | the message of `e`: the tagged text, `"\nError:"`, then the error's text |
| `Facade.IndexOf` | src/dandroid126_utils/logger.py:114 | the first position of a character: none before it, the character at it unless it is the end |
| `Facade.ParseTaggedOfTagged` | src/dandroid126_utils/logger.py:114 | the tag (if it has no `]`) and the text can be read back from `"[" + tag + "]\t" + text` |
| `Facade.TaggedOfParseTagged` | src/dandroid126_utils/logger.py:114 | every message that reads back as (tag, text) is exactly `"[" + tag + "]\t" + text` |
| `Facade.ErrorMessageReadsBack` | src/dandroid126_utils/logger.py:154 | for a tag without `]`: `e`'s message reads back as the tag and the text followed by `"\nError:"` and the error text |
| `Facade.ErrorMessageDefault` | src/dandroid126_utils/logger.py:142-154 | without an error, `e`'s message ends in `"\nError:None"` for every tag |
| `Facade.LinePrefix` | src/dandroid126_utils/logger.py:73 | the part of the layout before the level: timestamp, application name, `[pid]:` |
| `Facade.FormatLine` | src/dandroid126_utils/logger.py:73 | the formatted line for an application name without `%`: prefix, then `"[" + levelname + "] " + message` |
| `Facade.FormatLineEnds` | src/dandroid126_utils/logger.py:73 | for an application name without `%`: every formatted line ends with `"[" + levelname + "] " + message` |
| `Facade.FormatLineInjective` | src/dandroid126_utils/logger.py:73 | supporting fact about the layout, not a promise of the utility: for a fixed timestamp, `%`-free application name and pid, the formatted line determines the record's level and message |
| `Facade.ErrorLineEnds` | src/dandroid126_utils/logger.py:73 | for an application name without `%`: the line for an `e` call ends with `"[ERROR] [tag]\ttext\nError:" + error text` |
| `Facade.ErrorScenario` | src/dandroid126_utils/logger.py:154 | `e("Boot", "failed to bind port", ConnectionRefused)` from app "svc" ends its line as expected and reaches log.txt, errors.txt and stderr only |
| `Facade.Logger.constructor` | src/dandroid126_utils/logger.py:53-101 | stores the settings and the two rotation configurations, sets the root level to DEBUG, appends the four handlers, and installs fresh adapters at INFO and ERROR on the same root. The configuration is `Installed()` when the root had no handlers |
| `Facade.Logger.D` | src/dandroid126_utils/logger.py:103-114 | one DEBUG record `"[tag]\ttext"`, delivered as routing says; `SinksFor(DEBUG, logLevel)` when installed |
| `Facade.Logger.I` | src/dandroid126_utils/logger.py:116-127 | one INFO record `"[tag]\ttext"`, delivered as routing says; `SinksFor(INFO, logLevel)` when installed |
| `Facade.Logger.W` | src/dandroid126_utils/logger.py:129-140 | one WARNING record `"[tag]\ttext"`, delivered as routing says; `SinksFor(WARNING, logLevel)` when installed |
| `Facade.Logger.E` | src/dandroid126_utils/logger.py:142-154 | one ERROR record `"[tag]\ttext\nError:<error>"` (`"None"` by default), delivered as routing says; `SinksFor(ERROR, logLevel)` when installed |

## Left out

- Facade.FormatLine: models the application name only when it holds no `%`. The name is spliced into the formatter's `%`-style template (logger.py:73), so `%%` would print as `%`, `%(levelname)s` would print the level name, and a stray `%` would make every format call fail. `FormatLine`, `LinePrefix`, `FormatLineEnds`, `FormatLineInjective` and `ErrorLineEnds` require a `%`-free name.
- Facade.Logger.constructor: its contract describes the source only for the first construction on a given root. A later construction's console handlers (logger.py:86, 92) write into the adapters the earlier one installed (logger.py:100-101), which log those lines again through the root. The model records them as plain `Stdout`/`Stderr` deliveries instead.
- Directory creation (`os.makedirs`, logger.py:65-66): filesystem I/O. The output directory is kept only as the prefix of the two file names.
- Writing formatted lines to files and consoles: I/O. A `Delivery(sink, record)` stands for each write.
- `RotatingFileHandler` rotation (byte threshold, renaming of backups): library file I/O. The `maxBytes` and `backupCount` settings are recorded in `Rotation` values, but nothing uses them.
- The `asctime` timestamp and the process id: clock and OS values. `FormatLine` takes them as parameters.
- Replacing `sys.stdout` and `sys.stderr` (logger.py:100-101): global process state. The two adapters are fields of `Logger`. Written text reaches them only through explicit `Write` calls.
- Thread safety of the logging engine: the library owns that concurrency.
- `str()` of arbitrary objects: the error is `Option<string>`, with `None` printed as `"None"`. Non-string `tag` and `text` arguments are not modelled.
- Library behaviour the utility never triggers:
  - `logging.disable`;
  - the last-resort handler used when a logger has no handlers;
  - propagation to parent loggers;
  - `addHandler`'s check for a handler object that is already attached. Each handler the utility adds is a new object.
