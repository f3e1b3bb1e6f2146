/**
 * The file sink's pure part (log/file.go): the ever-growing history
 * `currentFileLogs`, the optional open handle with its `logFilePath`, the
 * append step `logToFile` and the replay that follows a successful open.
 */
module FileLog {
  import opened Wrappers
  import opened Ansi
  import opened Os

  /** An open `*os.File`, identified by the path it was opened on. */
  datatype Handle = Handle(target: string)

  /** `(currentFileLogs, logFile, logFilePath)`. */
  datatype Sink = Sink(history: seq<string>, file: Option<Handle>, path: string)

  const InitialSink: Sink := Sink([], None, "")

  /** The handle, when there is one, is the one opened on `logFilePath`, and no handle means no path. */
  predicate SinkValid(s: Sink) {
    match s.file
    case None => s.path == ""
    case Some(h) => h.target == s.path && s.path != ""
  }

  /** What the operating system answers to one write. */
  datatype WriteResult = WriteOk | WriteFailed(reason: string)

  /** A sink state together with the OS calls made on the way to it. */
  datatype Effect = Effect(sink: Sink, io: seq<Io>)

  /** The diagnostic `logToFile` prints to stderr when a write fails. */
  function WriteFailureText(path: string, reason: string): (text: string)
    ensures |text| > |ColorRed| && text[..|ColorRed|] == ColorRed && text[|text| - 1] == '\n'
  {
    ColorRed + " ERROR: Failed to write internal message to log file " + path + ": " + reason + ColorReset + "\n"
  }

  /** `logToFile(message)`: always buffer, and write `message + "\n"` when a handle is open. */
  function LogToFile(s: Sink, line: string, w: WriteResult): (e: Effect)
    ensures e.sink == s.(history := s.history + [line])
  {
    var s' := s.(history := s.history + [line]);
    match s.file
    case None => Effect(s', [])
    case Some(h) =>
      match w
      case WriteOk => Effect(s', [Written(h.target, line + "\n")])
      case WriteFailed(reason) => Effect(s', [Stderr(WriteFailureText(s.path, reason))])
  }

  /**
   * The OS calls of one `logToFile`: none without a handle, otherwise exactly
   * one write of the line and its newline, or on failure exactly one stderr
   * diagnostic (the handle stays open, nothing is returned).
   */
  lemma LogToFileIo(s: Sink, line: string, w: WriteResult)
    ensures s.file.None? ==> LogToFile(s, line, w).io == []
    ensures s.file.Some? && w.WriteOk? ==> LogToFile(s, line, w).io == [Written(s.file.value.target, line + "\n")]
    ensures s.file.Some? && w.WriteFailed? ==>
              LogToFile(s, line, w).io == [Stderr(WriteFailureText(s.path, w.reason))]
  {
  }

  /** `logToFile` applied to each of `entries` in turn, every write answered by `w`. */
  function Replay(s: Sink, entries: seq<string>, w: WriteResult): (e: Effect)
    ensures e.sink.file == s.file && e.sink.path == s.path
    ensures |e.io| == if s.file.Some? then |entries| else 0
    decreases |entries|
  {
    if entries == [] then Effect(s, [])
    else
      var before := Replay(s, entries[..|entries| - 1], w);
      var step := LogToFile(before.sink, entries[|entries| - 1], w);
      Effect(step.sink, before.io + step.io)
  }

  /** Replay appends each entry once, in order, and touches neither the handle nor the path. */
  lemma {:induction false} ReplayAppends(s: Sink, entries: seq<string>, w: WriteResult)
    ensures Replay(s, entries, w).sink == s.(history := s.history + entries)
    decreases |entries|
  {
    if entries != [] {
      var init := entries[..|entries| - 1];
      ReplayAppends(s, init, w);
      assert s.history + init + [entries[|entries| - 1]] == s.history + entries;
    }
  }

  /** The writes of `entries` to the file opened on `target`, one per entry, each with its newline. */
  function WritesOf(target: string, entries: seq<string>): (io: seq<Io>)
    ensures |io| == |entries|
    ensures forall i :: 0 <= i < |entries| ==> io[i] == Written(target, entries[i] + "\n")
  {
    if entries == [] then [] else WritesOf(target, entries[..|entries| - 1]) + [Written(target, entries[|entries| - 1] + "\n")]
  }

  /** With a handle open and every write succeeding, replay writes each entry to that file, in order. */
  lemma {:induction false} ReplayWrites(s: Sink, entries: seq<string>)
    requires s.file.Some?
    ensures Replay(s, entries, WriteOk).io == WritesOf(s.file.value.target, entries)
    decreases |entries|
  {
    if entries != [] {
      ReplayWrites(s, entries[..|entries| - 1]);
      ReplayAppends(s, entries[..|entries| - 1], WriteOk);
    }
  }

  /** What the file gains from a replay: the entries joined, each followed by a newline. */
  function Lines(entries: seq<string>): string
    decreases |entries|
  {
    if entries == [] then "" else Lines(entries[..|entries| - 1]) + entries[|entries| - 1] + "\n"
  }

  lemma {:induction false} WritesOfText(target: string, entries: seq<string>)
    ensures FileText(WritesOf(target, entries), target) == Lines(entries)
    decreases |entries|
  {
    if entries != [] {
      var init := entries[..|entries| - 1];
      var io := WritesOf(target, entries);
      assert io[..|io| - 1] == WritesOf(target, init);
      WritesOfText(target, init);
    }
  }

  /** The OS outcome of `MkdirAll` on the parent directory followed by `OpenFile`. */
  datatype OpenResult = OpenOk | MkdirFailed(reason: string) | OpenFailed(reason: string)

  /** The two configuration errors `InitFileLogging` returns. */
  datatype InitError = CreateDirError(reason: string) | OpenFileError(path: string, reason: string)

  /**
   * `InitFileLogging(path)` for a non-empty path: on failure nothing changes and
   * the error is returned; on success the new file is opened, the previous
   * handle (if any) closed, handle and path installed, and the history
   * replayed into the new file through `logToFile`.
   */
  function OpenAndReplay(s: Sink, path: string, os: OpenResult, w: WriteResult): (r: (Effect, Result<(), InitError>))
    requires path != ""
    ensures r.1.Ok? <==> os.OpenOk?
    ensures !os.OpenOk? ==> r.0 == Effect(s, [])
    ensures os.OpenOk? ==> r.0.sink.file == Some(Handle(path)) && r.0.sink.path == path
  {
    match os
    case MkdirFailed(reason) => (Effect(s, []), Err(CreateDirError(reason)))
    case OpenFailed(reason) => (Effect(s, []), Err(OpenFileError(path, reason)))
    case OpenOk =>
      var closing := if s.file.Some? then [Closed(s.file.value.target)] else [];
      var installed := s.(file := Some(Handle(path)), path := path);
      var replay := Replay(installed, s.history, w);
      (Effect(replay.sink, [Opened(path)] + closing + replay.io), Ok(()))
  }

  /** A failed mkdir or open returns its error and leaves handle, path and history as they were. */
  lemma OpenFailureChangesNothing(s: Sink, path: string, os: OpenResult, w: WriteResult)
    requires path != "" && !os.OpenOk?
    ensures var (e, r) := OpenAndReplay(s, path, os, w);
            e == Effect(s, []) && r.Err? &&
            (os.MkdirFailed? ==> r.error == CreateDirError(os.reason)) &&
            (os.OpenFailed? ==> r.error == OpenFileError(path, os.reason))
  {
  }

  /**
   * A successful open installs the new handle and path, opens before closing
   * the old handle, replays every buffered line once in order (so the
   * history ends as old ++ old), and, when every write succeeds, the new file
   * gains exactly the buffered lines.
   */
  lemma OpenSuccess(s: Sink, path: string, w: WriteResult)
    requires path != ""
    ensures var (e, r) := OpenAndReplay(s, path, OpenOk, w);
            r == Ok(()) &&
            e.sink == Sink(s.history + s.history, Some(Handle(path)), path) &&
            SinkValid(e.sink) &&
            |e.io| >= 1 && e.io[0] == Opened(path) &&
            (s.file.Some? ==> |e.io| >= 2 && e.io[1] == Closed(s.file.value.target)) &&
            (w == WriteOk ==>
               e.io == [Opened(path)] + (if s.file.Some? then [Closed(s.file.value.target)] else [])
                       + WritesOf(path, s.history))
  {
    var installed := s.(file := Some(Handle(path)), path := path);
    ReplayAppends(installed, s.history, w);
    if w == WriteOk {
      ReplayWrites(installed, s.history);
    }
  }

  /** After a successful open with working writes, the new file holds what was there plus the whole history. */
  lemma OpenSuccessFileText(s: Sink, path: string, io: seq<Io>)
    requires path != ""
    ensures var e := OpenAndReplay(s, path, OpenOk, WriteOk).0;
            FileText(io + e.io, path) == FileText(io, path) + Lines(s.history)
  {
    OpenSuccess(s, path, WriteOk);
    var prefix := [Opened(path)] + (if s.file.Some? then [Closed(s.file.value.target)] else []);
    var writes := WritesOf(path, s.history);
    var e := OpenAndReplay(s, path, OpenOk, WriteOk).0;
    assert e.io == prefix + writes;
    NoWritesNoText(prefix, path);
    FileTextAppend(prefix, writes, path);
    WritesOfText(path, s.history);
    FileTextAppend(io, e.io, path);
  }
}
