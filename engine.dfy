/**
 * The whole logging engine as a state machine over values: the level
 * registry, the dedup slot, the file sink, the OS calls and the terminal as
 * the user sees it. Each function is one entry point of log/level.go,
 * log/file.go or log/log.go; the `Logging.Logger` class is proved to follow them.
 */
module Engine {
  import opened Wrappers
  import opened Text
  import opened Ansi
  import opened Levels
  import opened Format
  import opened Dedup
  import opened Os
  import opened FileLog

  /**
   * The process-wide state: `currentLevel`, whether `Debug`/`Debugf` are bound
   * to the dispatcher, the dedup slot, the file sink, every OS call so far,
   * and the terminal's lines as far as the logger has drawn them.
   */
  datatype State = State(
    level: LogLevel,
    debugRouted: bool,
    slot: Slot,
    sink: Sink,
    io: seq<Io>,
    screen: seq<string>)

  /** The state after the package's `init()`: level INFO, Debug unbound, zero slot, empty sink. */
  const Initial: State := State(INFO, false, InitialSlot, InitialSink, [], [])

  /** What every entry point keeps: Debug routing follows the level, and the sink is consistent. */
  predicate Valid(st: State) {
    st.debugRouted == (st.level >= DEBUG) && SinkValid(st.sink)
  }

  /** The environment's answers for one record: its timestamps, its caller, and the file write's outcome. */
  datatype Env = Env(stamp: Stamp, caller: Caller, write: WriteResult)

  /** The `panicFunc` argument: nil, the `log.Panicln` wrapper of `Panic`, or `log.Panicf` of `Panicf`. */
  datatype Handler = NoHandler | PanicLn | PanicF

  /**
   * How `logInternal` ends: it returns, the standard library logger panics
   * with `text` (after printing it), or the runtime panics with `value`.
   */
  datatype Escalation = Returned | LoggerPanic(text: string) | RuntimePanic(value: string)

  datatype Outcome = Outcome(state: State, escalation: Escalation)

  /** The line a record contributes to the file sink. */
  function FileLine(level: LogLevel, message: string, env: Env): string {
    FormatLog(FILE, level, env.stamp, env.caller, message)
  }

  /** The console destination: with the caller exactly while the level is DEBUG. */
  function ConsoleDestination(threshold: LogLevel): (d: Destination)
    ensures d == STDOUT_DEBUG <==> threshold == DEBUG
    ensures d == STDOUT || d == STDOUT_DEBUG
  {
    if threshold == DEBUG then STDOUT_DEBUG else STDOUT
  }

  /** The console line of a record under the current level. */
  function ConsoleLine(threshold: LogLevel, level: LogLevel, message: string, env: Env): string {
    FormatLog(ConsoleDestination(threshold), level, env.stamp, env.caller, message)
  }

  /** A repeated line with its yellow "(Nx)" counter. */
  function RepeatText(line: string, counter: nat): (text: string)
    ensures |text| > |line| && text[..|line|] == line
  {
    line + " " + ColorYellow + "(" + Decimal(counter) + "x)" + ColorReset
  }

  /** The four prints of the rewrite path: up, carriage return, clear, then the annotated line. */
  function RewriteIo(text: string): seq<Io> {
    [Stdout(CursorUp), Stdout(CarriageReturn), Stdout(ClearLine), Stdout(text + "\n")]
  }

  /** The terminal after the rewrite path: the last line is replaced (at the top row, one is drawn). */
  function RewriteLast(screen: seq<string>, text: string): (r: seq<string>)
    ensures |r| == if screen == [] then 1 else |screen|
    ensures r[|r| - 1] == text && r[..|r| - 1] == if screen == [] then [] else screen[..|screen| - 1]
  {
    if screen == [] then [text] else screen[..|screen| - 1] + [text]
  }

  /** The console half of `logInternal` for an eligible record: consult the slot, then rewrite or print. */
  function ToConsole(st: State, level: LogLevel, message: string, env: Env): (r: State)
    ensures r.level == st.level && r.debugRouted == st.debugRouted && r.sink == st.sink
    ensures |r.io| > |st.io| && r.io[..|st.io|] == st.io
    ensures |r.screen| >= 1 && |r.screen| - |st.screen| <= 1
  {
    var dest := ConsoleDestination(st.level);
    var v := Step(st.slot, dest, level, message);
    var line := FormatLog(dest, level, env.stamp, env.caller, message);
    if v.suppress then
      var text := RepeatText(line, v.slot.counter);
      st.(slot := v.slot, io := st.io + RewriteIo(text), screen := RewriteLast(st.screen, text))
    else
      st.(slot := v.slot, io := st.io + [Stdout(line + "\n")], screen := st.screen + [line])
  }

  /** The tail of `logInternal`: only PANIC escalates, through the handler when one was given. */
  function Escalate(level: LogLevel, handler: Handler, message: string): (e: Escalation)
    ensures e.Returned? <==> level != PANIC
  {
    if level != PANIC then Returned
    else match handler
      case PanicLn => LoggerPanic(message + "\n")
      case PanicF => LoggerPanic(message)
      case NoHandler => RuntimePanic(message)
  }

  /**
   * `logInternal(level, panicFunc, format, args...)` with the formatted
   * message: file line first, then the console filter, dedup and print, then
   * escalation.
   */
  function LogInternal(st: State, level: LogLevel, handler: Handler, message: string, env: Env): (o: Outcome)
    ensures o.state.level == st.level && o.state.debugRouted == st.debugRouted
    ensures o.state.sink.history == st.sink.history + [FileLine(level, message, env)]
    ensures o.state.sink.file == st.sink.file && o.state.sink.path == st.sink.path
    ensures |o.state.io| >= |st.io| && o.state.io[..|st.io|] == st.io
    ensures o.escalation.Returned? <==> level != PANIC
  {
    var f := LogToFile(st.sink, FileLine(level, message, env), env.write);
    var filed := st.(sink := f.sink, io := st.io + f.io);
    var shown := if ConsoleEligible(level, st.level) then ToConsole(filed, level, message, env) else filed;
    Outcome(shown, Escalate(level, handler, message))
  }

  /** The `panicFunc` each public function passes: `Panic` the Panicln wrapper, `Panicf` log.Panicf, others nil. */
  function RoutedHandler(level: LogLevel, printf: bool): Handler {
    if level != PANIC then NoHandler else if printf then PanicF else PanicLn
  }

  /**
   * A call of one of the twelve public functions (`Info`, `Infof`, ...,
   * `Request`, `Requestf`), `printf` telling the `...f` form; `message` is the
   * already formatted text. `Debug`/`Debugf` are no-ops while unbound.
   */
  function Call(st: State, level: LogLevel, printf: bool, message: string, env: Env): (o: Outcome)
    requires IsTier(level)
    ensures o.state.level == st.level && o.state.debugRouted == st.debugRouted
    ensures o.state.sink.history == st.sink.history ||
            o.state.sink.history == st.sink.history + [FileLine(level, message, env)]
    ensures o.escalation.Returned? <==> level != PANIC
  {
    if level == DEBUG && !st.debugRouted then Outcome(st, Returned)
    else LogInternal(st, level, RoutedHandler(level, printf), message, env)
  }

  /** The audit message of `SetLevel`. */
  function LevelSetMessage(level: LogLevel): string {
    "Log level set to " + LevelName(level)
  }

  /** `SetLevel(level)`: nothing for the current level; otherwise assign, audit at INFO, rebind Debug. */
  function SetLevel(st: State, level: LogLevel, env: Env): (r: State)
    ensures r.level == level
    ensures level != st.level ==> r.debugRouted == (level >= DEBUG)
    ensures r.sink.file == st.sink.file && r.sink.path == st.sink.path
  {
    if level == st.level then st
    else
      var relevelled := st.(level := level);
      var audited := LogInternal(relevelled, INFO, NoHandler, LevelSetMessage(level), env).state;
      audited.(debugRouted := audited.level >= DEBUG)
  }

  /** `GetLevel()`. */
  function GetLevel(st: State): LogLevel {
    st.level
  }

  /** `SetLevelFromString(levelStr)`: parse, or report the lower-cased name in the error. */
  function SetLevelFromString(st: State, name: string, env: Env): (r: (State, Result<(), string>))
    ensures r.1.Ok? <==> ParseLevel(name).Some?
    ensures r.1.Ok? ==> r.0.level == ParseLevel(name).value
    ensures r.1.Err? ==> r.0 == st
  {
    match ParseLevel(name)
    case None => (st, Err("invalid log level: " + ToLower(name)))
    case Some(level) => (SetLevel(st, level, env), Ok(()))
  }

  const DisabledMessage: string := "File logging disabled (no path provided)"

  /** The audit message of `CloseFile`. */
  function ClosingMessage(path: string): string {
    "Closing log file: " + path
  }

  /** `InitFileLogging("")`: audit at INFO, clear the path, close any handle. */
  function DisableFileLogging(st: State, env: Env): (r: State)
    ensures r.sink.file == None && r.sink.path == "" && r.level == st.level
    ensures r.sink.history == st.sink.history + [FileLine(INFO, DisabledMessage, env)]
  {
    var audited := LogInternal(st, INFO, NoHandler, DisabledMessage, env).state;
    var closing := if audited.sink.file.Some? then [Closed(audited.sink.file.value.target)] else [];
    audited.(sink := audited.sink.(path := "", file := None), io := audited.io + closing)
  }

  /** `InitFileLogging(path)`: the empty path disables, any other path is `OpenAndReplay`. */
  function InitFileLogging(st: State, path: string, env: Env, os: OpenResult, replay: WriteResult)
    : (r: (State, Result<(), InitError>))
    ensures r.0.level == st.level
    ensures r.1.Ok? <==> path == "" || os.OpenOk?
    ensures r.1.Ok? ==> r.0.sink.path == path && (r.0.sink.file.Some? <==> path != "")
  {
    if path == "" then (DisableFileLogging(st, env), Ok(()))
    else
      var (e, r) := OpenAndReplay(st.sink, path, os, replay);
      (st.(sink := e.sink, io := st.io + e.io), r)
  }

  /** `CloseFile()`: nothing without a handle; otherwise audit at INFO, close, clear handle and path. */
  function CloseFile(st: State, env: Env): (r: State)
    ensures r.sink.file == None && r.level == st.level
    ensures st.sink.file.Some? ==> r.sink.path == ""
    ensures st.sink.file.None? ==> r == st
  {
    match st.sink.file
    case None => st
    case Some(h) =>
      var audited := LogInternal(st, INFO, NoHandler, ClosingMessage(st.sink.path), env).state;
      audited.(sink := audited.sink.(file := None, path := ""), io := audited.io + [Closed(h.target)])
  }
}
