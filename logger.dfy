/**
 * The logging engine as the one mutable object it is in the package: every
 * package-level variable of log/level.go, log/deduplication.go, log/file.go
 * and log/log.go is a field, every entry point a method. Each method is
 * proved to move the object's state exactly as the matching `Engine`
 * function says.
 */
module Logging {
  import opened Wrappers
  import opened Text
  import opened Ansi
  import opened Levels
  import opened Format
  import opened Dedup
  import opened Os
  import opened FileLog
  import opened Engine
  import Properties

  class Logger {
    // level registry (log/level.go, log/log.go)
    var currentLevel: LogLevel
    /** Stands for the function table: true when `Debug`/`Debugf` reach `logInternal`. */
    var debugRouted: bool
    // deduplicator (log/deduplication.go)
    var latestLogLevel: LogLevel
    var latestLogMessage: string
    var latestCounter: nat
    // file sink (log/file.go)
    var currentFileLogs: seq<string>
    var logFile: Option<Handle>
    var logFilePath: string
    /** Every call made to the operating system so far, in order. */
    var io: seq<Io>
    /** The terminal's lines as the logger has drawn them. */
    var screen: seq<string>

    /** The object's state as an `Engine.State` value. */
    function State(): Engine.State
      reads this
    {
      Engine.State(currentLevel, debugRouted, Slot(latestLogLevel, latestLogMessage, latestCounter),
                   Sink(currentFileLogs, logFile, logFilePath), io, screen)
    }

    ghost predicate Valid()
      reads this
    {
      Engine.Valid(State())
    }

    /** The package once its variables are initialised and `init()` has run `updateLogFunctions`. */
    constructor ()
      ensures State() == Initial && Valid()
    {
      currentLevel := INFO;
      latestLogLevel, latestLogMessage, latestCounter := PANIC, "", 0;
      currentFileLogs, logFile, logFilePath := [], None, "";
      io, screen := [], [];
      debugRouted := false;
      new;
      UpdateLogFunctions();
    }

    /** `GetLevel()`. */
    method GetLevel() returns (level: LogLevel)
      ensures level == currentLevel && level == Engine.GetLevel(State())
    {
      level := currentLevel;
    }

    /** `updateLogFunctions()`: bind `Debug`/`Debugf` to the dispatcher exactly when the level is DEBUG or above. */
    method UpdateLogFunctions()
      modifies this
      ensures State() == old(State()).(debugRouted := old(currentLevel) >= DEBUG)
    {
      var lvl := currentLevel;
      if lvl >= DEBUG {
        debugRouted := true;
      } else {
        debugRouted := false;
      }
    }

    /** `dedupConsoleLog(dest, level, message)`. */
    method DedupConsoleLog(dest: Destination, level: LogLevel, message: string) returns (suppress: bool)
      modifies this
      ensures Verdict(suppress, State().slot) == Step(old(State()).slot, dest, level, message)
      ensures State() == old(State()).(slot := State().slot)
    {
      if dest == FILE {
        return false;
      }
      if level != DEBUG && level == latestLogLevel && message == latestLogMessage {
        latestCounter := latestCounter + 1;
        return true;
      }
      latestLogLevel := level;
      latestLogMessage := message;
      latestCounter := 1;
      return false;
    }

    /** `logToFile(message)`. */
    method LogToFile(message: string, w: WriteResult)
      modifies this
      ensures var e := FileLog.LogToFile(old(State()).sink, message, w);
              State() == old(State()).(sink := e.sink, io := old(io) + e.io)
    {
      currentFileLogs := currentFileLogs + [message];
      if logFile == None {
        return;
      }
      match w
      case WriteOk =>
        io := io + [Written(logFile.value.target, message + "\n")];
      case WriteFailed(reason) =>
        io := io + [Stderr(WriteFailureText(logFilePath, reason))];
    }

    /** The console half of `logInternal`, for a record that passed the level filter. */
    method PrintToConsole(level: LogLevel, message: string, env: Env)
      modifies this
      ensures State() == ToConsole(old(State()), level, message, env)
    {
      var dest := if currentLevel == DEBUG then STDOUT_DEBUG else STDOUT;
      var suppress := DedupConsoleLog(dest, level, message);
      var line := FormatLog(dest, level, env.stamp, env.caller, message);
      if suppress {
        RewriteLine(RepeatText(line, latestCounter));
      } else {
        PrintLine(line);
      }
    }

    /** The rewrite path: erase the previous console line and print `text` in its place. */
    method RewriteLine(text: string)
      modifies this
      ensures State() == old(State()).(io := old(io) + RewriteIo(text), screen := RewriteLast(old(screen), text))
    {
      io := io + [Stdout(CursorUp)];
      io := io + [Stdout(CarriageReturn)];
      io := io + [Stdout(ClearLine)];
      io := io + [Stdout(text + "\n")];
      screen := RewriteLast(screen, text);
    }

    /** `fmt.Println(line)`. */
    method PrintLine(line: string)
      modifies this
      ensures State() == old(State()).(io := old(io) + [Stdout(line + "\n")], screen := old(screen) + [line])
    {
      io := io + [Stdout(line + "\n")];
      screen := screen + [line];
    }

    /** `logInternal(level, panicFunc, format, args...)`, `message` being the formatted text. */
    method LogInternal(level: LogLevel, handler: Handler, message: string, env: Env) returns (escalation: Escalation)
      modifies this
      ensures Outcome(State(), escalation) == Engine.LogInternal(old(State()), level, handler, message, env)
    {
      var fileLog := FormatLog(FILE, level, env.stamp, env.caller, message);
      LogToFile(fileLog, env.write);

      var consoleLevel := GetLevel();
      var effectiveLevel := level;
      if level == REQUEST {
        effectiveLevel := INFO;
      }
      if effectiveLevel <= consoleLevel {
        PrintToConsole(level, message, env);
      }

      if level == PANIC && handler != NoHandler {
        escalation := if handler == PanicLn then LoggerPanic(message + "\n") else LoggerPanic(message);
      } else if level == PANIC {
        escalation := RuntimePanic(message);
      } else {
        escalation := Returned;
      }
    }

    /**
     * One of the public functions bound by `updateLogFunctions`: `Info`, `Infof`,
     * `Warn`, ..., `printf` telling the `...f` form, `message` the formatted text.
     */
    method Log(level: LogLevel, printf: bool, message: string, env: Env) returns (escalation: Escalation)
      requires IsTier(level) && Valid()
      modifies this
      ensures Outcome(State(), escalation) == Call(old(State()), level, printf, message, env)
      ensures Valid()
    {
      Properties.CallKeepsValid(State(), level, printf, message, env);
      if level == DEBUG && !debugRouted {
        return Returned;
      }
      var handler := if level != PANIC then NoHandler else if printf then PanicF else PanicLn;
      escalation := LogInternal(level, handler, message, env);
    }

    /** `SetLevel(level)`. */
    method SetLevel(level: LogLevel, env: Env)
      requires Valid()
      modifies this
      ensures State() == Engine.SetLevel(old(State()), level, env)
      ensures Valid()
    {
      Properties.SetLevelKeepsValid(State(), level, "", env);
      if level == currentLevel {
        return;
      }
      currentLevel := level;
      var returned := LogInternal(INFO, NoHandler, LevelSetMessage(level), env);
      UpdateLogFunctions();
    }

    /** `SetLevelFromString(levelStr)`. */
    method SetLevelFromString(levelStr: string, env: Env) returns (r: Result<(), string>)
      requires Valid()
      modifies this
      ensures (State(), r) == Engine.SetLevelFromString(old(State()), levelStr, env)
      ensures Valid()
    {
      var lowered := ToLower(levelStr);
      var level: LogLevel;
      if lowered == "debug" {
        level := DEBUG;
      } else if lowered == "info" {
        level := INFO;
      } else if lowered == "warn" {
        level := WARN;
      } else if lowered == "error" {
        level := ERROR;
      } else if lowered == "panic" {
        level := PANIC;
      } else {
        return Err("invalid log level: " + lowered);
      }
      SetLevel(level, env);
      return Ok(());
    }

    /**
     * `InitFileLogging(filePath)`; `os` is what MkdirAll and OpenFile answer,
     * `replay` what each write of the replay answers.
     */
    method InitFileLogging(filePath: string, env: Env, os: OpenResult, replay: WriteResult)
      returns (r: Result<(), InitError>)
      requires Valid()
      modifies this
      ensures (State(), r) == Engine.InitFileLogging(old(State()), filePath, env, os, replay)
      ensures Valid()
    {
      Properties.FileOpsKeepValid(State(), filePath, env, os, replay);
      if filePath == "" {
        DisableFileLogging(env);
        return Ok(());
      }
      r := OpenFileLogging(filePath, os, replay);
    }

    /** The empty-path branch of `InitFileLogging`. */
    method DisableFileLogging(env: Env)
      modifies this
      ensures State() == Engine.DisableFileLogging(old(State()), env)
    {
      var returned := LogInternal(INFO, NoHandler, DisabledMessage, env);
      logFilePath := "";
      if logFile != None {
        io := io + [Closed(logFile.value.target)];
        logFile := None;
      } else {
        assert io + [] == io;
      }
    }

    /** The non-empty-path branch of `InitFileLogging`: create the directory, open, swap handles, replay. */
    method OpenFileLogging(filePath: string, os: OpenResult, replay: WriteResult) returns (r: Result<(), InitError>)
      requires filePath != ""
      modifies this
      ensures var (e, res) := OpenAndReplay(old(State()).sink, filePath, os, replay);
              State() == old(State()).(sink := e.sink, io := old(io) + e.io) && r == res
    {
      match os
      case MkdirFailed(reason) =>
        assert io + [] == io;
        return Err(CreateDirError(reason));
      case OpenFailed(reason) =>
        assert io + [] == io;
        return Err(OpenFileError(filePath, reason));
      case OpenOk =>
        OpenAndReplayEntries(filePath, replay);
        return Ok(());
    }

    /** The success path of `InitFileLogging`: install the new handle, then replay the buffer into it. */
    method OpenAndReplayEntries(filePath: string, replay: WriteResult)
      requires filePath != ""
      modifies this
      ensures var e := OpenAndReplay(old(State()).sink, filePath, OpenOk, replay).0;
              State() == old(State()).(sink := e.sink, io := old(io) + e.io)
    {
      ghost var start := State();
      InstallHandle(filePath);
      ghost var closing := if start.sink.file.Some? then [Closed(start.sink.file.value.target)] else [];
      ghost var installed := start.sink.(file := Some(Handle(filePath)), path := filePath);

      // `range` reads the slice header once: the appends of the replay are not revisited.
      ReplayEntries(currentFileLogs, replay);
      ghost var e := Replay(installed, start.sink.history, replay);
      assert start.io + [Opened(filePath)] + closing + e.io == start.io + ([Opened(filePath)] + closing + e.io);
    }

    /** Open the new file, close the old handle if any, and install the new handle and path. */
    method InstallHandle(filePath: string)
      modifies this
      ensures var closing := if old(logFile).Some? then [Closed(old(logFile).value.target)] else [];
              State() == old(State()).(sink := old(State()).sink.(file := Some(Handle(filePath)), path := filePath),
                                       io := old(io) + [Opened(filePath)] + closing)
    {
      io := io + [Opened(filePath)];
      if logFile != None {
        io := io + [Closed(logFile.value.target)];
      }
      logFile := Some(Handle(filePath));
      logFilePath := filePath;
    }

    /** The `for range` loop of `InitFileLogging`: `logToFile` on each of `entries`, in order. */
    method ReplayEntries(entries: seq<string>, w: WriteResult)
      modifies this
      ensures var e := Replay(old(State()).sink, entries, w);
              State() == old(State()).(sink := e.sink, io := old(io) + e.io)
    {
      var i := 0;
      while i < |entries|
        invariant 0 <= i <= |entries|
        invariant var e := Replay(old(State()).sink, entries[..i], w);
                  State() == old(State()).(sink := e.sink, io := old(io) + e.io)
      {
        assert entries[..i + 1][..i] == entries[..i];
        LogToFile(entries[i], w);
        i := i + 1;
      }
      assert entries[..i] == entries;
    }

    /** `CloseFile()`. */
    method CloseFile(env: Env)
      requires Valid()
      modifies this
      ensures State() == Engine.CloseFile(old(State()), env)
      ensures Valid()
    {
      Properties.FileOpsKeepValid(State(), "", env, OpenOk, WriteOk);
      if logFile != None {
        var h := logFile.value;
        var returned := LogInternal(INFO, NoHandler, ClosingMessage(logFilePath), env);
        io := io + [Closed(h.target)];
        logFile := None;
        logFilePath := "";
      }
    }
  }
}
