/**
 * What the logging engine promises, proved of the `Engine` state machine
 * (and so, through its methods' postconditions, of `Logging.Logger`).
 */
module Properties {
  import opened Wrappers
  import opened Text
  import opened Ansi
  import opened Levels
  import opened Format
  import opened Dedup
  import opened Os
  import opened FileLog
  import opened Engine

  /** The file part of `logInternal`: the sink step on the record's FILE line. */
  function FilePart(st: State, level: LogLevel, message: string, env: Env): Effect {
    FileLog.LogToFile(st.sink, FileLine(level, message, env), env.write)
  }

  /** True when every event of `io` from index `from` on is a console print. */
  predicate OnlyStdoutFrom(io: seq<Io>, from: nat) {
    forall i :: from <= i < |io| ==> io[i].Stdout?
  }

  // ---------------------------------------------------------------- dispatch

  /**
   * `logInternal` hands the FILE line to `logToFile` before anything reaches
   * the console: the sink becomes exactly the file step's sink, the OS trace
   * starts with the file step's calls, and everything after them is console
   * output. Level and Debug routing are untouched.
   */
  lemma FileBeforeConsole(st: State, level: LogLevel, handler: Handler, message: string, env: Env)
    ensures var o := LogInternal(st, level, handler, message, env);
            var f := FilePart(st, level, message, env);
            var cut := |st.io| + |f.io|;
            o.state.sink == f.sink &&
            o.state.sink.history == st.sink.history + [FileLine(level, message, env)] &&
            |o.state.io| >= cut && o.state.io[..cut] == st.io + f.io &&
            OnlyStdoutFrom(o.state.io, cut) &&
            o.state.level == st.level && o.state.debugRouted == st.debugRouted
  {
    var o := LogInternal(st, level, handler, message, env);
    var f := FilePart(st, level, message, env);
    var filed := st.(sink := f.sink, io := st.io + f.io);
    if ConsoleEligible(level, st.level) {
      var v := Step(filed.slot, ConsoleDestination(st.level), level, message);
      var line := ConsoleLine(st.level, level, message, env);
      var extra := if v.suppress then RewriteIo(RepeatText(line, v.slot.counter)) else [Stdout(line + "\n")];
      assert o.state.io == filed.io + extra;
    }
  }

  /**
   * A record reaches the console exactly when it passes the level filter,
   * and then it is printed fresh (slot reset to it) unless it repeats the
   * slot, in which case the previous line is rewritten with the bumped
   * counter. A filtered record leaves slot and terminal alone.
   */
  lemma ConsoleOutput(st: State, level: LogLevel, handler: Handler, message: string, env: Env)
    ensures var o := LogInternal(st, level, handler, message, env);
            var cut := |st.io| + |FilePart(st, level, message, env).io|;
            var line := ConsoleLine(st.level, level, message, env);
            var repeat := level != DEBUG && level == st.slot.level && message == st.slot.message;
            |o.state.io| >= cut &&
            (!ConsoleEligible(level, st.level) ==>
               |o.state.io| == cut && o.state.slot == st.slot && o.state.screen == st.screen) &&
            (ConsoleEligible(level, st.level) && repeat ==>
               o.state.io[cut..] == RewriteIo(RepeatText(line, st.slot.counter + 1)) &&
               o.state.slot == Slot(st.slot.level, st.slot.message, st.slot.counter + 1) &&
               o.state.screen == RewriteLast(st.screen, RepeatText(line, st.slot.counter + 1))) &&
            (ConsoleEligible(level, st.level) && !repeat ==>
               o.state.io[cut..] == [Stdout(line + "\n")] &&
               o.state.slot == Slot(level, message, 1) &&
               o.state.screen == st.screen + [line])
  {
    ConsoleRule(st.slot, ConsoleDestination(st.level), level, message);
  }

  /** The console shape follows the live level: with the caller exactly while it is DEBUG. */
  lemma ConsoleShapeFollowsLevel(threshold: LogLevel, level: LogLevel, message: string, env: Env)
    ensures threshold == DEBUG ==>
              ConsoleLine(threshold, level, message, env) == FormatLog(STDOUT_DEBUG, level, env.stamp, env.caller, message)
    ensures threshold != DEBUG ==>
              ConsoleLine(threshold, level, message, env) == FormatLog(STDOUT, level, env.stamp, env.caller, message)
  {
  }

  /**
   * Only PANIC escalates, and it does so once both sinks hold the record:
   * the returned state already has the FILE line buffered and, under any
   * non-negative level, the console line printed. `Panic` escalates through
   * log.Panicln with the message and a newline, `Panicf` through log.Panicf
   * with the message, a nil handler with a runtime panic of the message.
   */
  lemma EscalationComesLast(st: State, level: LogLevel, handler: Handler, message: string, env: Env)
    ensures var o := LogInternal(st, level, handler, message, env);
            (level != PANIC ==> o.escalation == Returned) &&
            (level == PANIC ==>
               o.state.sink.history[|o.state.sink.history| - 1] == FileLine(PANIC, message, env) &&
               (st.level >= PANIC ==>
                  |o.state.io| > |st.io| + |FilePart(st, level, message, env).io| && o.state.screen != []) &&
               (handler == PanicLn ==> o.escalation == LoggerPanic(message + "\n")) &&
               (handler == PanicF ==> o.escalation == LoggerPanic(message)) &&
               (handler == NoHandler ==> o.escalation == RuntimePanic(message)))
  {
    FileBeforeConsole(st, level, handler, message, env);
    ConsoleOutput(st, level, handler, message, env);
  }

  // ---------------------------------------------------------------- routing

  /** While the level is below DEBUG, `Debug` and `Debugf` do nothing at all: no file line, no console output. */
  lemma DebugIsNoOpBelowDebug(st: State, printf: bool, message: string, env: Env)
    requires Valid(st) && st.level < DEBUG
    ensures Call(st, DEBUG, printf, message, env) == Outcome(st, Returned)
  {
  }

  /**
   * Every other tier, and DEBUG once the level is DEBUG or above, reaches
   * `logInternal` and so always buffers its FILE line, whatever the console
   * does; only `Panic` and `Panicf` carry a handler.
   */
  lemma RoutedCallsReachDispatcher(st: State, level: LogLevel, printf: bool, message: string, env: Env)
    requires Valid(st) && IsTier(level) && (level != DEBUG || st.level >= DEBUG)
    ensures Call(st, level, printf, message, env) == LogInternal(st, level, RoutedHandler(level, printf), message, env)
    ensures Call(st, level, printf, message, env).state.sink.history == st.sink.history + [FileLine(level, message, env)]
    ensures (RoutedHandler(level, printf) != NoHandler) <==> level == PANIC
  {
    FileBeforeConsole(st, level, RoutedHandler(level, printf), message, env);
  }

  /** With no handle open, a call buffers its line but makes no file write at all. */
  lemma NoHandleNoFileIo(st: State, level: LogLevel, handler: Handler, message: string, env: Env)
    requires st.sink.file.None?
    ensures var o := LogInternal(st, level, handler, message, env);
            o.state.sink.history == st.sink.history + [FileLine(level, message, env)] &&
            |o.state.io| >= |st.io| && o.state.io[..|st.io|] == st.io && OnlyStdoutFrom(o.state.io, |st.io|)
  {
    FileBeforeConsole(st, level, handler, message, env);
  }

  // ---------------------------------------------------------------- registry

  /** `SetLevel` with the current level changes nothing and audits nothing. */
  lemma SetLevelSameIsNoOp(st: State, env: Env)
    ensures SetLevel(st, st.level, env) == st
  {
  }

  /**
   * `SetLevel` with a new level assigns it, buffers exactly one INFO record
   * "Log level set to NAME", rebinds Debug from the new level, and judges the
   * audit's console visibility and shape against the new level.
   */
  lemma SetLevelNew(st: State, level: LogLevel, env: Env)
    requires level != st.level
    ensures var st' := SetLevel(st, level, env);
            var cut := |st.io| + |FilePart(st, INFO, LevelSetMessage(level), env).io|;
            var line := ConsoleLine(level, INFO, LevelSetMessage(level), env);
            st'.level == level &&
            st'.debugRouted == (level >= DEBUG) &&
            st'.sink.history == st.sink.history + [FileLine(INFO, LevelSetMessage(level), env)] &&
            |st'.io| >= cut &&
            (|st'.io| > cut <==> INFO <= level) &&
            (INFO <= level ==> st'.screen != [] &&
                               st'.screen[|st'.screen| - 1] in {line, RepeatText(line, st'.slot.counter)})
  {
    var relevelled := st.(level := level);
    FileBeforeConsole(relevelled, INFO, NoHandler, LevelSetMessage(level), env);
    ConsoleOutput(relevelled, INFO, NoHandler, LevelSetMessage(level), env);
  }

  /**
   * `SetLevelFromString` succeeds exactly on a recognised name and then sets
   * that level; otherwise it returns the lower-cased name in its error and
   * leaves every part of the state as it was.
   */
  lemma SetLevelFromStringResult(st: State, name: string, env: Env)
    ensures var (st', r) := SetLevelFromString(st, name, env);
            (r.Ok? <==> ParseLevel(name).Some?) &&
            (r.Ok? ==> st' == SetLevel(st, ParseLevel(name).value, env) && st'.level == ParseLevel(name).value) &&
            (r.Err? ==> st' == st && r.error == "invalid log level: " + ToLower(name))
  {
    match ParseLevel(name)
    case None =>
    case Some(level) =>
      if level != st.level {
        SetLevelNew(st, level, env);
      }
  }

  /** `GetLevel` reports INFO at first and afterwards the level most recently set. */
  lemma GetLevelReportsLastSet(st: State, level: LogLevel, env: Env)
    ensures GetLevel(Initial) == INFO
    ensures GetLevel(SetLevel(st, level, env)) == level
  {
    if level != st.level {
      SetLevelNew(st, level, env);
    }
  }

  /** Logging, opening and closing the file never move the level. */
  lemma OnlySetLevelMovesLevel(st: State, level: LogLevel, printf: bool, message: string, path: string,
                               env: Env, os: OpenResult, w: WriteResult)
    requires IsTier(level)
    ensures GetLevel(Call(st, level, printf, message, env).state) == st.level
    ensures GetLevel(InitFileLogging(st, path, env, os, w).0) == st.level
    ensures GetLevel(CloseFile(st, env)) == st.level
  {
    FileBeforeConsole(st, INFO, NoHandler, DisabledMessage, env);
    if st.sink.file.Some? {
      FileBeforeConsole(st, INFO, NoHandler, ClosingMessage(st.sink.path), env);
    }
    if IsTier(level) && (level != DEBUG || st.debugRouted) {
      FileBeforeConsole(st, level, RoutedHandler(level, printf), message, env);
    }
  }

  // ---------------------------------------------------------------- file sink

  /**
   * `InitFileLogging("")` returns nil after buffering one INFO audit record
   * (written, like any record, to the file still open), clearing the path and
   * closing the handle if there was one, last.
   */
  lemma DisableEffect(st: State, env: Env)
    ensures var (st', r) := InitFileLogging(st, "", env, OpenOk, WriteOk);
            r == Ok(()) &&
            st'.sink == Sink(st.sink.history + [FileLine(INFO, DisabledMessage, env)], None, "") &&
            st'.level == st.level &&
            (st.sink.file.Some? ==> st'.io[|st'.io| - 1] == Closed(st.sink.file.value.target)) &&
            (st.sink.file.Some? && env.write.WriteOk? ==>
               st'.io[|st.io|] == Written(st.sink.file.value.target, FileLine(INFO, DisabledMessage, env) + "\n"))
  {
    FileBeforeConsole(st, INFO, NoHandler, DisabledMessage, env);
  }

  /** A non-empty path whose directory or file cannot be made returns the error and changes nothing. */
  lemma InitFailureChangesNothing(st: State, path: string, env: Env, os: OpenResult, w: WriteResult)
    requires path != "" && !os.OpenOk?
    ensures InitFileLogging(st, path, env, os, w).0 == st
    ensures InitFileLogging(st, path, env, os, w).1.Err?
  {
    OpenFailureChangesNothing(st.sink, path, os, w);
  }

  /**
   * A successful `InitFileLogging(path)` installs the handle and path,
   * replays the whole buffer once (the buffer ends as old ++ old), and with
   * working writes the file at `path` gains every buffered line in order.
   */
  lemma InitSuccess(st: State, path: string, env: Env, w: WriteResult)
    requires path != ""
    ensures var (st', r) := InitFileLogging(st, path, env, OpenOk, w);
            r == Ok(()) &&
            st'.sink == Sink(st.sink.history + st.sink.history, Some(Handle(path)), path) &&
            st'.level == st.level && st'.slot == st.slot && st'.screen == st.screen &&
            (w == WriteOk ==> FileText(st'.io, path) == FileText(st.io, path) + Lines(st.sink.history))
  {
    OpenSuccess(st.sink, path, w);
    OpenSuccessFileText(st.sink, path, st.io);
  }

  /**
   * `CloseFile` without a handle does nothing; with one it buffers one INFO
   * audit "Closing log file: PATH" (written into the file being closed),
   * then closes it and clears handle and path.
   */
  lemma CloseEffect(st: State, env: Env)
    ensures st.sink.file.None? ==> CloseFile(st, env) == st
    ensures st.sink.file.Some? ==>
              var st' := CloseFile(st, env);
              var audit := FileLine(INFO, ClosingMessage(st.sink.path), env);
              st'.sink == Sink(st.sink.history + [audit], None, "") &&
              st'.level == st.level &&
              st'.io[|st'.io| - 1] == Closed(st.sink.file.value.target) &&
              (env.write.WriteOk? ==> st'.io[|st.io|] == Written(st.sink.file.value.target, audit + "\n"))
  {
    if st.sink.file.Some? {
      FileBeforeConsole(st, INFO, NoHandler, ClosingMessage(st.sink.path), env);
    }
  }

  /**
   * After `CloseFile` the buffer keeps growing: a later record is buffered,
   * and a later successful open replays it into the new file.
   */
  lemma ClosedSinkStillBuffers(st: State, closeEnv: Env, level: LogLevel, handler: Handler,
                               message: string, env: Env, path: string, openEnv: Env)
    requires path != ""
    ensures var logged := LogInternal(CloseFile(st, closeEnv), level, handler, message, env).state;
            var reopened := InitFileLogging(logged, path, openEnv, OpenOk, WriteOk).0;
            logged.sink.history[|logged.sink.history| - 1] == FileLine(level, message, env) &&
            FileText(reopened.io, path) == FileText(logged.io, path) + Lines(logged.sink.history)
  {
    var closed := CloseFile(st, closeEnv);
    FileBeforeConsole(closed, level, handler, message, env);
    var logged := LogInternal(closed, level, handler, message, env).state;
    InitSuccess(logged, path, openEnv, WriteOk);
  }

  // ---------------------------------------------------------------- invariant

  /** The initial state is valid. */
  lemma InitialValid()
    ensures Valid(Initial)
  {
  }

  /** A public call keeps `Valid`. */
  lemma CallKeepsValid(st: State, level: LogLevel, printf: bool, message: string, env: Env)
    requires Valid(st) && IsTier(level)
    ensures Valid(Call(st, level, printf, message, env).state)
  {
    if level != DEBUG || st.debugRouted {
      FileBeforeConsole(st, level, RoutedHandler(level, printf), message, env);
    }
  }

  /** `SetLevel` and `SetLevelFromString` keep `Valid`: Debug routing is recomputed from the new level. */
  lemma SetLevelKeepsValid(st: State, level: LogLevel, name: string, env: Env)
    requires Valid(st)
    ensures Valid(SetLevel(st, level, env))
    ensures Valid(SetLevelFromString(st, name, env).0)
  {
    if level != st.level {
      SetLevelNew(st, level, env);
    }
    SetLevelFromStringResult(st, name, env);
    if ParseLevel(name).Some? && ParseLevel(name).value != st.level {
      SetLevelNew(st, ParseLevel(name).value, env);
    }
  }

  /** `InitFileLogging` and `CloseFile` keep handle and path consistent. */
  lemma FileOpsKeepValid(st: State, path: string, env: Env, os: OpenResult, w: WriteResult)
    requires Valid(st)
    ensures Valid(InitFileLogging(st, path, env, os, w).0)
    ensures Valid(CloseFile(st, env))
  {
    if path == "" {
      DisableEffect(st, env);
      FileBeforeConsole(st, INFO, NoHandler, DisabledMessage, env);
    } else if os.OpenOk? {
      InitSuccess(st, path, env, w);
    } else {
      InitFailureChangesNothing(st, path, env, os, w);
    }
    CloseEffect(st, env);
  }

  // ---------------------------------------------------------------- scenario

  /** The same public call made once per environment in `envs`, in order. */
  function Repeated(st: State, level: LogLevel, printf: bool, message: string, envs: seq<Env>): State
    requires IsTier(level)
    decreases |envs|
  {
    if envs == [] then st
    else Call(Repeated(st, level, printf, message, envs[..|envs| - 1]), level, printf, message, envs[|envs| - 1]).state
  }

  /** The FILE lines of those calls, one per call. */
  function FileLines(level: LogLevel, message: string, envs: seq<Env>): (r: seq<string>)
    ensures |r| == |envs|
    decreases |envs|
  {
    if envs == [] then [] else FileLines(level, message, envs[..|envs| - 1]) + [FileLine(level, message, envs[|envs| - 1])]
  }

  /** One repeated call: under an eligible, non-DEBUG level, what becomes of slot, screen and buffer. */
  lemma RepeatStep(before: State, level: LogLevel, printf: bool, message: string, env: Env)
    requires Valid(before) && IsTier(level) && level != DEBUG
    requires ConsoleEligible(level, before.level)
    ensures var after := Call(before, level, printf, message, env).state;
            var line := ConsoleLine(before.level, level, message, env);
            var repeat := level == before.slot.level && message == before.slot.message;
            after.sink.history == before.sink.history + [FileLine(level, message, env)] &&
            after.level == before.level && after.debugRouted == before.debugRouted &&
            Valid(after) &&
            (repeat ==> after.slot == before.slot.(counter := before.slot.counter + 1) &&
                        after.screen == RewriteLast(before.screen, RepeatText(line, before.slot.counter + 1))) &&
            (!repeat ==> after.slot == Slot(level, message, 1) && after.screen == before.screen + [line])
  {
    RoutedCallsReachDispatcher(before, level, printf, message, env);
    FileBeforeConsole(before, level, RoutedHandler(level, printf), message, env);
    ConsoleOutput(before, level, RoutedHandler(level, printf), message, env);
    CallKeepsValid(before, level, printf, message, env);
  }

  /** Replacing the last line of a screen that extends `prefix` by one line keeps `prefix`. */
  lemma RewriteKeepsPrefix(screen: seq<string>, prefix: seq<string>, text: string)
    requires |screen| == |prefix| + 1 && screen[..|prefix|] == prefix
    ensures var r := RewriteLast(screen, text);
            |r| == |prefix| + 1 && r[..|prefix|] == prefix && r[|prefix|] == text
  {
  }

  /** What a run of `k` identical calls from `st` leaves behind, the last drawn as `line`. */
  predicate RunShape(st: State, st': State, level: LogLevel, message: string, k: nat, history: seq<string>, line: string) {
    st'.sink.history == st.sink.history + history &&
    st'.level == st.level && Valid(st') &&
    st'.slot == Slot(level, message, k) &&
    |st'.screen| == |st.screen| + 1 && st'.screen[..|st.screen|] == st.screen &&
    st'.screen[|st.screen|] == (if k == 1 then line else RepeatText(line, k))
  }

  /** One more identical call extends a run by one. */
  lemma RunShapeNext(st: State, before: State, level: LogLevel, printf: bool, message: string, k: nat,
                     history: seq<string>, oldLine: string, env: Env)
    requires IsTier(level) && level != DEBUG && ConsoleEligible(level, st.level) && k >= 1
    requires RunShape(st, before, level, message, k, history, oldLine)
    ensures RunShape(st, Call(before, level, printf, message, env).state, level, message, k + 1,
                     history + [FileLine(level, message, env)], ConsoleLine(st.level, level, message, env))
  {
    var line := ConsoleLine(st.level, level, message, env);
    RepeatStep(before, level, printf, message, env);
    RewriteKeepsPrefix(before.screen, st.screen, RepeatText(line, k + 1));
  }

  /**
   * N >= 1 identical console-visible, non-DEBUG calls after a different
   * console record: the file gets N separate lines, the terminal exactly one
   * new line, which ends as the last record's line with "(Nx)" once N > 1,
   * and the slot's counter ends at N.
   */
  lemma {:induction false} RepeatedCalls(st: State, level: LogLevel, printf: bool, message: string, envs: seq<Env>)
    requires Valid(st) && IsTier(level) && level != DEBUG
    requires ConsoleEligible(level, st.level)
    requires (st.slot.level, st.slot.message) != (level, message)
    requires |envs| >= 1
    ensures RunShape(st, Repeated(st, level, printf, message, envs), level, message, |envs|,
                     FileLines(level, message, envs), ConsoleLine(st.level, level, message, envs[|envs| - 1]))
    decreases |envs|
  {
    var n := |envs|;
    var last := envs[n - 1];
    var before := Repeated(st, level, printf, message, envs[..n - 1]);
    assert FileLines(level, message, envs) == FileLines(level, message, envs[..n - 1]) + [FileLine(level, message, last)];
    if n == 1 {
      assert envs[..0] == [];
      assert before == st;
      RepeatStep(st, level, printf, message, last);
      assert FileLines(level, message, envs[..0]) == [];
    } else {
      RepeatedCalls(st, level, printf, message, envs[..n - 1]);
      RunShapeNext(st, before, level, printf, message, n - 1, FileLines(level, message, envs[..n - 1]),
                   ConsoleLine(st.level, level, message, envs[n - 2]), last);
    }
  }
}
