/**
 * The file sink's mutex `logFileMu` (log/file.go). Go's `sync.Mutex` is not
 * reentrant, yet `InitFileLogging` and `CloseFile` call `logInternal` or
 * `logToFile` while holding it, and `logToFile` locks it again. This module
 * records, for each entry point, the lock operations it performs, runs them
 * against a non-reentrant mutex, and compares the code as written with a
 * corrected discipline that performs the same effects in the same order
 * (the one `Engine` models).
 */
module FileLock {
  import opened Wrappers
  import opened FileLog
  import opened Engine

  datatype MutexOp = Lock | Unlock

  /** How a sequence of operations on one mutex ends. */
  datatype MutexRun = Finished(held: bool) | Deadlock | UnlockOfUnlocked

  /** A Go `sync.Mutex`: locking it while held blocks forever. */
  function Run(held: bool, ops: seq<MutexOp>): MutexRun
    decreases |ops|
  {
    if ops == [] then Finished(held)
    else match ops[0]
      case Lock => if held then Deadlock else Run(true, ops[1..])
      case Unlock => if !held then UnlockOfUnlocked else Run(false, ops[1..])
  }

  /** Running two sequences one after the other. */
  lemma {:induction false} RunAppend(held: bool, a: seq<MutexOp>, b: seq<MutexOp>)
    requires Run(held, a).Finished?
    ensures Run(held, a + b) == Run(Run(held, a).held, b)
    decreases |a|
  {
    if a == [] {
      assert a + b == b;
    } else {
      var next := a[0] == Lock;
      assert (a + b)[0] == a[0] && (a + b)[1..] == a[1..] + b;
      assert Run(held, a) == Run(next, a[1..]);
      RunAppend(next, a[1..], b);
    }
  }

  /** Running after a sequence that ends in a deadlock. */
  lemma {:induction false} RunAppendDeadlock(held: bool, a: seq<MutexOp>, b: seq<MutexOp>)
    requires Run(held, a) == Deadlock
    ensures Run(held, a + b) == Deadlock
    decreases |a|
  {
    assert a != [];
    assert (a + b)[1..] == a[1..] + b;
    if !(a[0] == Lock && held) {
      RunAppendDeadlock(if a[0] == Lock then true else false, a[1..], b);
    }
  }

  /** `logToFile`: `Lock` at its start, the deferred `Unlock` on return. */
  const LogToFileOps: seq<MutexOp> := [Lock, Unlock]

  /** `logInternal` touches `logFileMu` only through its one `logToFile`. */
  const LogInternalOps: seq<MutexOp> := LogToFileOps

  /** `n` calls of `logToFile`. */
  function ReplayOps(n: nat): seq<MutexOp>
    decreases n
  {
    if n == 0 then [] else ReplayOps(n - 1) + LogToFileOps
  }

  // ------------------------------------------------------------ as written

  /**
   * `InitFileLogging(path)` as written: `Lock`, then the audit `logInternal`
   * (empty path) or one `logToFile` per buffered line (successful open),
   * then the deferred `Unlock`.
   */
  function InitOpsAsWritten(st: State, path: string, os: OpenResult): seq<MutexOp> {
    [Lock]
    + (if path == "" then LogInternalOps else if os.OpenOk? then ReplayOps(|st.sink.history|) else [])
    + [Unlock]
  }

  /** `CloseFile()` as written: `Lock`, the audit `logInternal` when a handle is open, the deferred `Unlock`. */
  function CloseOpsAsWritten(st: State): seq<MutexOp> {
    [Lock] + (if st.sink.file.Some? then LogInternalOps else []) + [Unlock]
  }

  /**
   * As written, `InitFileLogging` deadlocks exactly on the empty path and on
   * a successful open with a non-empty buffer; a failed open returns.
   */
  lemma InitAsWrittenDeadlocks(st: State, path: string, os: OpenResult)
    ensures Run(false, InitOpsAsWritten(st, path, os))
              == if path == "" || (os.OpenOk? && |st.sink.history| > 0) then Deadlock else Finished(false)
  {
    var n := |st.sink.history|;
    if path == "" {
      RunAppendDeadlock(false, [Lock] + LogInternalOps, [Unlock]);
    } else if os.OpenOk? && n > 0 {
      assert ReplayOps(n) == ReplayOps(n - 1) + [Lock, Unlock];
      ReplayStartsWithLock(n);
      assert Run(false, [Lock] + ReplayOps(n)) == Deadlock;
      RunAppendDeadlock(false, [Lock] + ReplayOps(n), [Unlock]);
    } else if os.OpenOk? {
      assert InitOpsAsWritten(st, path, os) == [Lock, Unlock];
    } else {
      assert InitOpsAsWritten(st, path, os) == [Lock, Unlock];
    }
  }

  lemma {:induction false} ReplayStartsWithLock(n: nat)
    requires n > 0
    ensures |ReplayOps(n)| >= 1 && ReplayOps(n)[0] == Lock
    decreases n
  {
    if n > 1 {
      ReplayStartsWithLock(n - 1);
    }
  }

  /** As written, `CloseFile` deadlocks exactly when a handle is open. */
  lemma CloseAsWrittenDeadlocks(st: State)
    ensures Run(false, CloseOpsAsWritten(st)) == if st.sink.file.Some? then Deadlock else Finished(false)
  {
    if st.sink.file.Some? {
      RunAppendDeadlock(false, [Lock] + LogInternalOps, [Unlock]);
    } else {
      assert CloseOpsAsWritten(st) == [Lock, Unlock];
    }
  }

  // ------------------------------------------------------------ corrected

  /**
   * The corrected discipline: the audit record is dispatched before the lock
   * is taken, and the replay writes through the body of `logToFile` while
   * the lock is already held, so each entry point locks once.
   */
  function InitOpsCorrected(path: string): seq<MutexOp> {
    (if path == "" then LogInternalOps else []) + [Lock, Unlock]
  }

  function CloseOpsCorrected(fileOpen: bool): seq<MutexOp> {
    (if fileOpen then LogInternalOps else []) + [Lock, Unlock]
  }

  /** One entry point that touches `logFileMu`; `CloseCall` records whether a file was open. */
  datatype EntryPoint = LogCall | InitCall(path: string) | CloseCall(fileOpen: bool)

  function CorrectedOps(e: EntryPoint): seq<MutexOp> {
    match e
    case LogCall => LogInternalOps
    case InitCall(path) => InitOpsCorrected(path)
    case CloseCall(fileOpen) => CloseOpsCorrected(fileOpen)
  }

  /** The lock operations of a whole session of entry points, in order. */
  function SessionOps(calls: seq<EntryPoint>): seq<MutexOp>
    decreases |calls|
  {
    if calls == [] then [] else SessionOps(calls[..|calls| - 1]) + CorrectedOps(calls[|calls| - 1])
  }

  /** Under the corrected discipline every entry point, and so every session, returns with the lock free. */
  lemma {:induction false} CorrectedNeverDeadlocks(calls: seq<EntryPoint>)
    ensures Run(false, SessionOps(calls)) == Finished(false)
    decreases |calls|
  {
    if calls != [] {
      var e := calls[|calls| - 1];
      CorrectedNeverDeadlocks(calls[..|calls| - 1]);
      RunAppend(false, SessionOps(calls[..|calls| - 1]), CorrectedOps(e));
      match e
      case LogCall =>
      case InitCall(path) =>
        if path == "" { RunAppend(false, LogInternalOps, [Lock, Unlock]); }
        else { assert CorrectedOps(e) == [Lock, Unlock]; }
      case CloseCall(fileOpen) =>
        if fileOpen { RunAppend(false, LogInternalOps, [Lock, Unlock]); }
        else { assert CorrectedOps(e) == [Lock, Unlock]; }
    }
  }
}
