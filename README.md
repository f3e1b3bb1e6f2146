# Logging engine of `log/` — a Dafny model

The `log` package is one process-wide logger. It has a level registry
(`currentLevel` and the `Debug`/`Debugf` bindings), a console deduplicator
(one slot `latestLogLevel`, `latestLogMessage`, `latestCounter`), a file sink
(the ever-growing buffer `currentFileLogs`, an optional open `logFile` and its
`logFilePath`), a formatter `formatLog` with one shape per destination, and the
dispatcher `logInternal`. Each leveled call goes through the dispatcher in a
fixed order:

1. the FILE line is handed to `logToFile`, which buffers it and writes it
   when a file is open;
2. the record is filtered against the level, with REQUEST judged as INFO;
3. the deduplicator decides between a fresh line and an in-place rewrite of
   the previous line with a `(Nx)` counter;
4. PANIC escalates.

The model has these parts:

- `Logging.Logger` (logger.dfy) is a class with one field per package variable.
  Each entry point is a method with `modifies this`. Each method is proved to
  move the object's `State()` exactly as the matching function of `Engine` says.
  The public entry points also keep `Valid()`: `Debug` is bound exactly when
  the level is DEBUG or above, and an open handle is the one on `logFilePath`.
  The replay loop of `InitFileLogging` is a `while` loop in `ReplayEntries`,
  proved by its loop invariant.
- `Engine` (engine.dfy) is the same engine as a state machine over values. It
  holds the level, a flag for the `Debug` binding, the dedup slot, the file
  sink, an ordered trace `Os.Io` of the logger's own output and file calls
  (stdout prints, the stderr diagnostic of a failed write, successful opens,
  file writes and closes; not `MkdirAll`, and not what `log.Panicln` and
  `log.Panicf` print), and a "terminal" view of stdout alone: a sequence of
  lines in which a rewrite replaces the last line.
- The pure parts live in their own modules:
  - `Levels`: level.go's enum, names, colors and name parser;
  - `Format`: `formatLog`;
  - `Dedup`: the `dedupConsoleLog` rule;
  - `FileLog`: `logToFile`, the replay and the open path of `InitFileLogging`;
  - `Text` and `Ansi`: the `%d` rendering, `strings.ToLower` and the escape
    codes.
- `Properties` (properties.dfy) proves what the engine promises about orders,
  branches, failure cases and a run of repeated records.
- `FileLock` (filelock.dfy) models the mutex `logFileMu` as lock-operation
  traces. It shows where the code as written deadlocks. See "## Findings".

Opaque inputs. The environment of one record is an `Engine.Env`:

- the local and UTC timestamps, already printed;
- the caller `(file, line)` that `findCaller` would report (`("???", 0)` is a
  possible value);
- the outcome of the file write.

The message arrives already formatted. `MkdirAll` and `OpenFile` answer with
a `FileLog.OpenResult`. The writes of one replay all get the same
`WriteResult`.

Reentrancy. `InitFileLogging` and `CloseFile` hold `logFileMu` while they call
`logInternal` or `logToFile`, and both of those lock `logFileMu` again. The
main model (`Engine`, `Logging.Logger`) gives these paths their sequential
effect, as if the lock were reentrant. `FileLock` proves a corrected lock
discipline deadlock-free; that it has the same effects in the same order is
argued in its comments, not proved. `FileLock` also proves that the code as
written deadlocks.

Three behaviours of the code a reader might not expect, which the model keeps:

- PANIC is console-eligible under every threshold that is not negative, not
  literally always. `SetLevel` accepts any `LogLevel`, and a negative level
  hides even PANIC (`Levels.EligibilityByTier`).
- A successful open issues `OpenFile` before closing the old handle. So the
  trace shows `Opened(new)` before `Closed(old)`.
- The replay appends to the buffer it walks, so the buffer ends as old ++ old.
  A later `InitFileLogging` therefore replays every earlier line twice.

## Model

| member | source | states |
|---|---|---|
| Text.Decimal | log/log.go:133 | the `%d` text of a counter or line number is non-empty, all digits, and has no leading zero |
| Text.DecimalRoundTrip | log/log.go:199 | reading back the decimal text of `n` gives `n` |
| Text.DecimalInjective | log/log.go:199 | different counters never print alike, so `(Nx)` identifies N |
| Text.LowerChar | log/level.go:43 | a lowered character is never an ASCII capital |
| Text.ToLower | log/level.go:43 | lowering keeps the length of the name |
| Text.ToLowerIdempotent | log/level.go:43 | lowering twice is lowering once |
| Levels.TierOrder | log/level.go:11-18 | PANIC=0 < ERROR < WARN < INFO < DEBUG < REQUEST=5, and the tiers are exactly these six |
| Levels.LevelName | log/level.go:20-27 | a level has a non-empty name iff it is one of the six tiers; any other level reads as the map's zero value "" |
| Levels.LevelColor | log/level.go:29-36 | a level has a color iff it is one of the six tiers |
| Levels.ColorsBySeverity | log/level.go:29-36 | red exactly for PANIC and ERROR, yellow exactly for WARN and DEBUG, blue only for INFO, dark grey only for REQUEST |
| Levels.NamesDistinct | log/level.go:20-27 | no two tiers share a label (REQUEST's is "REQ") |
| Levels.ParseLevel | log/level.go:45-58 | a parsed name yields a tier other than REQUEST |
| Levels.ParseLevelIff | log/level.go:43-58 | a name parses to `l` iff `l` is a non-REQUEST tier and the lowered name equals the lowered label of `l` |
| Levels.ParseIgnoresCase | log/level.go:43 | a name and its lower case parse alike |
| Levels.ParseLevelName | log/level.go:45-55 | every non-REQUEST tier parses back from its own label |
| Levels.EffectiveLevel | log/log.go:176-179 | the filter level is INFO iff the record is INFO or REQUEST, and otherwise it is the record's own level |
| Levels.ConsoleEligible | log/log.go:182 | under a threshold of DEBUG or above every tier reaches the console; under a negative threshold none does |
| Levels.EligibilityMonotone | log/log.go:182 | raising the threshold never hides a record that was shown |
| Levels.EligibilityByTier | log/log.go:175-184 | a tier reaches the console iff it is at most the threshold (REQUEST as INFO); PANIC iff the threshold is non-negative, DEBUG iff the threshold is at least DEBUG |
| Format.FormatLog | log/log.go:111-163 | every shape ends with the message |
| Format.DebugLineInsertsCaller | log/log.go:121-138 | the STDOUT_DEBUG line is the STDOUT line with "file:line " inserted after the timestamp |
| Format.ConsoleIgnoresCallerAndUtc | log/log.go:121-138 | the STDOUT line ignores the caller, and no console line depends on the UTC time |
| Format.FileUsesUtcOnly | log/log.go:139-159 | the FILE line depends on the UTC time only; STDERR is the FILE shape with the local time in place of UTC |
| Format.FileLineIsPlain | log/log.go:139-149 | a FILE line carries no escape code when its inputs carry none |
| Format.ConsoleLineStartsGrey | log/log.go:121-138 | both console shapes begin with dark grey and the local timestamp |
| Dedup.Step | log/deduplication.go:15-40 | a suppression bumps the counter by one; a console record that is not suppressed leaves the counter at 1 |
| Dedup.FileNeverSuppressed | log/deduplication.go:23-25 | FILE is never suppressed and leaves the slot alone |
| Dedup.ConsoleRule | log/deduplication.go:27-39 | on the console: suppressed iff not DEBUG and level and message repeat the slot; then only the counter moves up by one; otherwise the slot becomes (level, message, 1) |
| Dedup.DebugNeverSuppressed | log/deduplication.go:27-37 | DEBUG is never suppressed yet takes over the slot |
| Dedup.InitialSlotQuirk | log/deduplication.go:8-10 | from the zero slot (PANIC, "", 0), a first PANIC "" console record counts as a repeat with counter 1 |
| Dedup.IdenticalRun | log/deduplication.go:27-39 | after a different slot, N identical non-DEBUG records give false then N-1 trues and leave the counter at N |
| Dedup.DebugBreaksRun | log/deduplication.go:27-37 | a DEBUG record between two identical records makes the second one print fresh |
| FileLog.LogToFile | log/file.go:18-29 | the line is always appended to the buffer, and nothing else in the sink changes |
| FileLog.LogToFileIo | log/file.go:23-28 | no handle: no OS call; handle: exactly one write of line+"\n", or on failure exactly one stderr diagnostic, with the handle kept |
| FileLog.WriteFailureText | log/file.go:27 | the write-failure diagnostic starts with the red code and ends with a newline |
| FileLog.Replay | log/file.go:62-66 | the replay keeps handle and path, and makes exactly one OS call per entry when a handle is open, none otherwise |
| FileLog.ReplayAppends | log/file.go:62-66 | the replay appends each entry once, in order, and leaves handle and path alone |
| FileLog.ReplayWrites | log/file.go:62-66 | with every write succeeding, the replay writes each entry with its newline to the open file, in order |
| FileLog.OpenAndReplay | log/file.go:45-68 | succeeds iff mkdir and open succeed; a failure changes nothing and makes no OS call; a success installs the new handle and path |
| FileLog.OpenFailureChangesNothing | log/file.go:45-53 | a failed mkdir or open returns its own error and leaves buffer, handle and path unchanged, with no OS call recorded |
| FileLog.OpenSuccess | log/file.go:50-68 | success: open first, then close the old handle, install handle and path, and replay the buffer so it ends as old ++ old; with working writes the trace is exactly that |
| FileLog.OpenSuccessFileText | log/file.go:55-66 | after a successful open with working writes, the new file gains exactly the buffered lines, each with a newline |
| Engine.ConsoleDestination | log/log.go:188-193 | the console destination is STDOUT_DEBUG iff the level is exactly DEBUG, and STDOUT otherwise |
| Engine.RepeatText | log/log.go:199 | the annotated line begins with the console line itself |
| Engine.RewriteLast | log/log.go:195-199 | the rewrite replaces the terminal's last line with the annotated text and keeps every line before it |
| Engine.ToConsole | log/log.go:186-208 | the console step keeps level, routing and sink, only extends the trace, and adds at most one terminal line |
| Engine.LogInternal | log/log.go:165-217 | keeps level, routing, handle and path, appends exactly the FILE line to the buffer, only extends the trace, and returns iff the level is not PANIC |
| Engine.Call | log/log.go:51-70 | a public call keeps level and routing, buffers at most its one FILE line, and returns iff the level is not PANIC |
| Engine.SetLevel | log/level.go:63-73 | the level becomes the one asked for; a change rebinds `Debug` from it; handle and path are kept |
| Engine.SetLevelFromString | log/level.go:42-61 | succeeds iff the name parses, and then the level is the parsed tier; an error leaves the state unchanged |
| Engine.DisableFileLogging | log/file.go:35-43 | afterwards no handle is open and the path is empty; one audit line is buffered and the level is kept |
| Engine.InitFileLogging | log/file.go:31-69 | keeps the level; succeeds iff the path is empty or mkdir and open succeed; then the path is the given one, and a handle is open iff it is non-empty |
| Engine.CloseFile | log/file.go:71-81 | afterwards no handle is open and the level is kept; closing an open file clears the path; with no handle nothing changes |
| Engine.Escalate | log/log.go:210-216 | `logInternal` returns normally iff the level is not PANIC |
| Logging.Logger.constructor | log/log.go:219-221 | the package starts in the initial state (INFO, Debug unbound, zero slot, empty sink), which is valid |
| Logging.Logger.GetLevel | log/level.go:76-80 | returns the current level |
| Logging.Logger.UpdateLogFunctions | log/log.go:41-71 | `Debug` is bound iff the level is DEBUG or above; nothing else changes |
| Logging.Logger.DedupConsoleLog | log/deduplication.go:15-40 | verdict and new slot are `Dedup.Step` of the old slot; nothing but the slot changes |
| Logging.Logger.LogToFile | log/file.go:18-29 | sink and trace move as `FileLog.LogToFile` says |
| Logging.Logger.PrintToConsole | log/log.go:186-208 | consult the slot, then rewrite the last line or print a fresh one (`Engine.ToConsole`) |
| Logging.Logger.RewriteLine | log/log.go:195-199 | prints cursor-up, carriage return, clear-line and the annotated line, and replaces the last terminal line |
| Logging.Logger.PrintLine | log/log.go:205-207 | prints the line with its newline and adds it to the terminal |
| Logging.Logger.LogInternal | log/log.go:165-217 | state and escalation are `Engine.LogInternal`: file line, then filter, then console, then escalation |
| Logging.Logger.Log | log/log.go:51-70 | a public call is `Engine.Call`: an unbound `Debug` does nothing, every other call dispatches with its own panic handler; keeps `Valid()` |
| Logging.Logger.SetLevel | log/level.go:63-73 | moves the state as `Engine.SetLevel` says; keeps `Valid()` |
| Logging.Logger.SetLevelFromString | log/level.go:42-61 | result and state are `Engine.SetLevelFromString`; keeps `Valid()` |
| Logging.Logger.InitFileLogging | log/file.go:31-69 | result and state are `Engine.InitFileLogging`; keeps `Valid()` |
| Logging.Logger.DisableFileLogging | log/file.go:35-43 | the empty-path branch: audit, clear the path, close any handle |
| Logging.Logger.OpenFileLogging | log/file.go:45-68 | the non-empty-path branch is `FileLog.OpenAndReplay` on the sink, its OS calls appended to the trace |
| Logging.Logger.OpenAndReplayEntries | log/file.go:50-66 | the success path moves the state as `FileLog.OpenAndReplay` says for a successful open |
| Logging.Logger.InstallHandle | log/file.go:50-60 | records the open, closes the old handle if any, installs the new handle and path |
| Logging.Logger.ReplayEntries | log/file.go:62-66 | the `for range` loop is `FileLog.Replay` of the entries it was given |
| Logging.Logger.CloseFile | log/file.go:71-81 | moves the state as `Engine.CloseFile` says; keeps `Valid()` |
| Properties.FileBeforeConsole | log/log.go:170-172 | the sink step on the FILE line comes first: the sink is exactly its result, the trace begins with its calls and continues with console prints only; level and routing are kept |
| Properties.ConsoleOutput | log/log.go:174-208 | a filtered record leaves slot, terminal and console alone; an eligible repeat emits exactly the rewrite with counter+1; any other eligible record emits exactly line+"\n" and resets the slot |
| Properties.ConsoleShapeFollowsLevel | log/log.go:188-193 | the console line has the caller exactly while the level is DEBUG |
| Properties.EscalationComesLast | log/log.go:210-216 | only PANIC escalates, once the FILE line is buffered and (under a non-negative level) the console line is out; `Panic` escalates with message+"\n", `Panicf` with the message, no handler with a runtime panic |
| Properties.DebugIsNoOpBelowDebug | log/log.go:64-70 | below DEBUG, `Debug`/`Debugf` change nothing at all |
| Properties.RoutedCallsReachDispatcher | log/log.go:51-66 | every other tier, and DEBUG at DEBUG or above, reaches `logInternal` and buffers its FILE line; only PANIC carries a handler |
| Properties.NoHandleNoFileIo | log/file.go:18-25 | with no handle, a record is buffered and no file call is made |
| Properties.SetLevelSameIsNoOp | log/level.go:63-66 | setting the current level changes nothing and emits nothing |
| Properties.SetLevelNew | log/level.go:63-73 | a new level is assigned, one INFO "Log level set to NAME" record is buffered, `Debug` is rebound from the new level, and the record's visibility and shape are judged against the new level |
| Properties.SetLevelFromStringResult | log/level.go:42-61 | success iff the name parses, and then it is `SetLevel` of that tier; otherwise the state is unchanged and the error names the lowered input |
| Properties.GetLevelReportsLastSet | log/level.go:76-80 | INFO at first, then the level most recently set |
| Properties.OnlySetLevelMovesLevel | log/level.go:69 | logging, opening and closing never move the level |
| Properties.DisableEffect | log/file.go:35-43 | the empty path returns nil, buffers one INFO audit (written to the file still open), clears the path and closes the handle last |
| Properties.InitFailureChangesNothing | log/file.go:45-53 | a failing mkdir or open leaves the whole state unchanged and returns an error |
| Properties.InitSuccess | log/file.go:55-68 | success installs handle and path, the buffer ends as old ++ old, level, slot and terminal are kept, and with working writes the file gains the buffer |
| Properties.CloseEffect | log/file.go:71-81 | no handle: no-op; a handle: one INFO audit "Closing log file: PATH" written to it, then close, handle and path cleared |
| Properties.ClosedSinkStillBuffers | log/file.go:18-29 | after `CloseFile` records still enter the buffer, and a later successful open replays them into the new file |
| Properties.InitialValid | log/log.go:219-221 | the initial state is valid: `Debug` routing follows the level, handle and path agree |
| Properties.CallKeepsValid | log/log.go:41-71 | every public call keeps the state valid |
| Properties.SetLevelKeepsValid | log/level.go:63-73 | `SetLevel` and `SetLevelFromString` keep the state valid |
| Properties.FileOpsKeepValid | log/file.go:31-81 | `InitFileLogging` and `CloseFile` keep handle and path consistent |
| Properties.RepeatStep | log/log.go:186-208 | one eligible non-DEBUG call either rewrites the last line with counter+1 or adds a fresh line and resets the slot |
| Properties.RepeatedCalls | log/log.go:195-206 | N identical eligible non-DEBUG calls after a different record give N file lines, exactly one new terminal line showing "(Nx)" once N > 1, and a counter of N |
| FileLock.InitAsWrittenDeadlocks | log/file.go:31-69 | as written, `InitFileLogging` deadlocks iff the path is empty or an open succeeds with a non-empty buffer |
| FileLock.CloseAsWrittenDeadlocks | log/file.go:71-81 | as written, `CloseFile` deadlocks iff a file is open |
| FileLock.CorrectedNeverDeadlocks | log/file.go:18-29 | under the corrected discipline every session of entry points ends with the mutex free |

## Left out

- `findCaller` (log/log.go:73-100) walks the runtime stack. The caller it
  reports is an input. Its package prefix `github.com/lunarhue/go-stack/libs/log`
  does not match the module path `github.com/lunarhue/libs-go/log`
  (config/main.go:7), so its skip loop is not modelled.
- Reading the clock and `time.Format` are left out: the two timestamps are
  opaque strings. `fmt.Sprintf`/`fmt.Sprint` argument formatting is also left
  out: the message arrives already formatted. Only the `%d` of line numbers and
  counters is modelled (`Text.Decimal`).
- Mutexes and races are left out: `levelMutex`, `consoleDedupMu`,
  `outputMutex`, the unguarded `GetLevel`, the buffer append before the lock,
  and the rewrite path printing without `outputMutex`. The model takes single
  calls in sequence. `logFileMu` appears only in `FileLock`.
- `Engine.InitFileLogging`: treats `logFileMu` as if it were reentrant where
  the source deadlocks (see "## Findings").
- `Logging.Logger.InitFileLogging`: takes the same reentrant reading of
  `logFileMu` on the empty path and on the replay.
- `Engine.CloseFile`: treats `logFileMu` as reentrant where the source
  deadlocks with a file open (log/file.go:72-76).
- `Logging.Logger.CloseFile`: takes the same reentrant reading.
- OS effects are inputs and trace events. `MkdirAll` and `OpenFile` answer an
  `OpenResult`, and each write a `WriteResult`. A failed write leaves the file
  text unchanged. `Close` always succeeds, and its error is ignored as in the
  source.
- `FileLog.OpenAndReplay`: every write of one replay gets the same
  `WriteResult`, so a replay where only some writes fail is not modelled.
- `Logging.Logger.OpenFileLogging`: carries the same single `WriteResult`
  for the whole replay.
- `Logging.Logger.ReplayEntries`: its loop answers every write with the one
  `WriteResult` it is given.
- `Engine.RewriteLast`: the terminal view holds stdout lines only. A failed
  file write prints its diagnostic to stderr between a console line and the
  next rewrite. On a terminal that shows both streams, the cursor-up of that
  rewrite erases the diagnostic rather than the earlier record, which the
  view does not capture.
- `FileLog.OpenFailureChangesNothing`: the error carries `MkdirAll`'s reason
  but not the directory name `filepath.Dir(path)` that the source message
  quotes.
- `Text.ToLower`: covers the ASCII capitals, U+0130 and U+212A, which are the
  only characters whose Go lower case is ASCII. Other non-ASCII letters are
  kept unchanged, where Go lowers them. This does not change which names
  parse.
- `Engine.Escalate`: `log.Panicln` and `log.Panicf` also print their text
  through the standard logger to stderr. Real process termination is not
  modelled. Both are an `Escalation` value.
- `Logging.Logger.DedupConsoleLog`: `latestCounter` is an unbounded `nat`,
  whereas Go's `int` would wrap after 2^63 - 1 repeats.
- The STDERR destination is rendered by `Format.FormatLog` but never chosen.
  The `default:` panic of `formatLog` ("Unknown destination") cannot happen,
  because `Destination` is a datatype with four values.
- `Debug`/`Debugf` as function variables: the table that `updateLogFunctions`
  rebinds is represented by one flag, because only the Debug pair ever
  changes.
- log/cmd.go pipes subprocess output through goroutines, and log/middleware.go
  wraps `net/http` around `Requestf`. Both are callers of the public API and
  are not part of this model. Neither is config/* or metadata/*.

## Findings

| source | as written | input that shows it | evidently intended | confidence | as-written member | corrected member |
|---|---|---|---|---|---|---|
| log/file.go:32-43 | `InitFileLogging("")` holds `logFileMu` and calls `logInternal`, whose `logToFile` locks `logFileMu` again; Go's mutex is not reentrant | `InitFileLogging("")` | buffer the audit record, clear the path, close the handle, return nil | not executed | FileLock.InitAsWrittenDeadlocks | FileLock.CorrectedNeverDeadlocks |
| log/file.go:62-65 | the replay calls `logToFile` while `logFileMu` is held | `Info("x")` then `InitFileLogging("a.log")` with mkdir and open succeeding | write every buffered line into the new file and return nil | not executed | FileLock.InitAsWrittenDeadlocks | FileLock.CorrectedNeverDeadlocks |
| log/file.go:72-76 | `CloseFile` holds `logFileMu` and calls `logInternal` | `CloseFile()` while a file is open | buffer the audit record, then close the file and clear handle and path | not executed | FileLock.CloseAsWrittenDeadlocks | FileLock.CorrectedNeverDeadlocks |
