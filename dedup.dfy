/**
 * The console deduplicator (log/deduplication.go): one process-wide slot
 * remembering the last console record, and the rule that decides whether the
 * next record repeats it.
 */
module Dedup {
  import opened Levels
  import opened Format

  /** `(latestLogLevel, latestLogMessage, latestCounter)`. */
  datatype Slot = Slot(level: LogLevel, message: string, counter: nat)

  /** The slot before any console record: Go's zero values. */
  const InitialSlot: Slot := Slot(PANIC, "", 0)

  /** What `dedupConsoleLog` returns, and the slot it leaves behind. */
  datatype Verdict = Verdict(suppress: bool, slot: Slot)

  /** One call of `dedupConsoleLog(dest, level, message)` against `slot`. */
  function Step(slot: Slot, dest: Destination, level: LogLevel, message: string): (v: Verdict)
    ensures v.suppress ==> v.slot.counter == slot.counter + 1
    ensures dest != FILE && !v.suppress ==> v.slot.counter == 1
  {
    if dest == FILE then Verdict(false, slot)
    else if level != DEBUG && level == slot.level && message == slot.message then
      Verdict(true, slot.(counter := slot.counter + 1))
    else Verdict(false, Slot(level, message, 1))
  }

  /** The FILE destination is never deduplicated and leaves the slot alone. */
  lemma FileNeverSuppressed(slot: Slot, level: LogLevel, message: string)
    ensures Step(slot, FILE, level, message) == Verdict(false, slot)
  {
  }

  /**
   * On a console destination a record is suppressed exactly when it is not
   * DEBUG and repeats the slot's level and message; a suppressed record bumps
   * the counter by one and keeps level and message, any other record resets
   * the slot to itself with counter 1.
   */
  lemma ConsoleRule(slot: Slot, dest: Destination, level: LogLevel, message: string)
    requires dest != FILE
    ensures var v := Step(slot, dest, level, message);
            (v.suppress <==> level != DEBUG && level == slot.level && message == slot.message) &&
            (v.suppress ==> v.slot == Slot(slot.level, slot.message, slot.counter + 1)) &&
            (!v.suppress ==> v.slot == Slot(level, message, 1))
  {
  }

  /** DEBUG records are never suppressed, yet they still take over the slot. */
  lemma DebugNeverSuppressed(slot: Slot, dest: Destination, message: string)
    requires dest != FILE
    ensures Step(slot, dest, DEBUG, message) == Verdict(false, Slot(DEBUG, message, 1))
  {
  }

  /** Go's zero-valued slot makes a first console record PANIC "" count as a repeat, with counter 1. */
  lemma InitialSlotQuirk(dest: Destination)
    requires dest != FILE
    ensures Step(InitialSlot, dest, PANIC, "") == Verdict(true, Slot(PANIC, "", 1))
  {
  }

  /** The verdicts and the final slot of a sequence of console records, all sent to `dest`. */
  function Run(slot: Slot, dest: Destination, records: seq<(LogLevel, string)>): (r: (seq<bool>, Slot))
    ensures |r.0| == |records|
    decreases |records|
  {
    if records == [] then ([], slot)
    else
      var rest := Run(slot, dest, records[..|records| - 1]);
      var v := Step(rest.1, dest, records[|records| - 1].0, records[|records| - 1].1);
      (rest.0 + [v.suppress], v.slot)
  }

  /** `n` copies of `x`. */
  function Repeat<T>(x: T, n: nat): (r: seq<T>)
    ensures |r| == n && forall i :: 0 <= i < n ==> r[i] == x
  {
    if n == 0 then [] else Repeat(x, n - 1) + [x]
  }

  /**
   * After a slot holding something else, `n` identical non-DEBUG console
   * records give one "new" verdict then `n - 1` suppressions, and leave the
   * counter at `n`.
   */
  lemma {:induction false} IdenticalRun(slot: Slot, dest: Destination, level: LogLevel, message: string, n: nat)
    requires dest != FILE && level != DEBUG && n >= 1
    requires (slot.level, slot.message) != (level, message)
    ensures Run(slot, dest, Repeat((level, message), n))
              == ([false] + Repeat(true, n - 1), Slot(level, message, n))
  {
    var records := Repeat((level, message), n);
    if n > 1 {
      assert records[..n - 1] == Repeat((level, message), n - 1);
      IdenticalRun(slot, dest, level, message, n - 1);
      assert [false] + Repeat(true, n - 2) + [true] == [false] + Repeat(true, n - 1);
    } else {
      assert records[..0] == [];
      assert Repeat(true, 0) == [];
      assert Run(slot, dest, records) == ([] + [false], Slot(level, message, 1));
      assert Run(slot, dest, records).0 == [false] + Repeat(true, n - 1);
      assert Run(slot, dest, records).1 == Slot(level, message, n);
    }
  }

  /** A DEBUG record between two identical records breaks the run: the second one is shown again. */
  lemma DebugBreaksRun(slot: Slot, dest: Destination, level: LogLevel, message: string, debugMessage: string)
    requires dest != FILE && level != DEBUG
    ensures Run(slot, dest, [(level, message), (DEBUG, debugMessage), (level, message)]).0
              == [slot.level == level && slot.message == message, false, false]
  {
    var records := [(level, message), (DEBUG, debugMessage), (level, message)];
    assert records[..2] == [(level, message), (DEBUG, debugMessage)];
    assert records[..2][..1] == [(level, message)];
    assert records[..2][..1][..0] == [];
    var r0 := Run(slot, dest, records[..2][..1][..0]);
    assert r0 == ([], slot);
    var r1 := Run(slot, dest, records[..2][..1]);
    assert r1.0 == [slot.level == level && slot.message == message];
    assert r1.1.level == level && r1.1.message == message;
    var r2 := Run(slot, dest, records[..2]);
    assert r2.0 == r1.0 + [false] && r2.1 == Slot(DEBUG, debugMessage, 1);
  }
}
