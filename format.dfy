/** The formatter `formatLog` (log/log.go): one record rendered for one destination. */
module Format {
  import opened Text
  import opened Ansi
  import opened Levels

  /** Where a rendered line goes. STDERR is rendered but never chosen by the dispatcher. */
  datatype Destination = STDOUT | STDOUT_DEBUG | STDERR | FILE

  /** The record's instant, already printed as "2006-01-02 15:04:05" in local time and in UTC. */
  datatype Stamp = Stamp(local: string, utc: string)

  /** The call site reported by `findCaller`: a base file name and a line, ("???", 0) when unknown. */
  datatype Caller = Caller(file: string, line: nat)

  /** `file:line` as the `%s:%d` verbs print it. */
  function CallerTag(c: Caller): string {
    c.file + ":" + Decimal(c.line)
  }

  /** The colored "LEVEL: message" tail shared by both console shapes. */
  function ColoredTail(level: LogLevel, message: string): string {
    LevelColor(level) + LevelName(level) + ColorReset + ": " + message
  }

  /** The uncolored "file:line LEVEL: message" tail shared by FILE and STDERR. */
  function PlainTail(level: LogLevel, caller: Caller, message: string): string {
    CallerTag(caller) + " " + LevelName(level) + ": " + message
  }

  /** `formatLog(dest, level, time, message)`; the line carries no trailing newline. */
  function FormatLog(dest: Destination, level: LogLevel, stamp: Stamp, caller: Caller, message: string): (line: string)
    ensures |line| >= |message| && line[|line| - |message|..] == message
  {
    match dest
    case STDOUT => ColorDarkGrey + stamp.local + " " + ColoredTail(level, message)
    case STDOUT_DEBUG => ColorDarkGrey + stamp.local + " " + CallerTag(caller) + " " + ColoredTail(level, message)
    case FILE => stamp.utc + " " + PlainTail(level, caller, message)
    case STDERR => stamp.local + " " + PlainTail(level, caller, message)
  }

  /** The debug console shape is the plain one with "file:line " inserted after the timestamp. */
  lemma DebugLineInsertsCaller(level: LogLevel, stamp: Stamp, caller: Caller, message: string)
    ensures var head := ColorDarkGrey + stamp.local + " ";
            var plain := FormatLog(STDOUT, level, stamp, caller, message);
            |head| <= |plain| && plain[..|head|] == head &&
            FormatLog(STDOUT_DEBUG, level, stamp, caller, message)
              == head + CallerTag(caller) + " " + plain[|head|..]
  {
    var head := ColorDarkGrey + stamp.local + " ";
    var tail := ColoredTail(level, message);
    var plain := FormatLog(STDOUT, level, stamp, caller, message);
    assert plain == head + tail;
    assert plain[..|head|] == head && plain[|head|..] == tail;
  }

  /** The plain console shape never mentions the caller, and no console shape mentions the UTC time. */
  lemma ConsoleIgnoresCallerAndUtc(level: LogLevel, s1: Stamp, s2: Stamp, c1: Caller, c2: Caller, message: string)
    requires s1.local == s2.local
    ensures FormatLog(STDOUT, level, s1, c1, message) == FormatLog(STDOUT, level, s2, c2, message)
    ensures FormatLog(STDOUT_DEBUG, level, s1, c1, message) == FormatLog(STDOUT_DEBUG, level, s2, c1, message)
  {
  }

  /** The FILE shape depends on the UTC time only, and STDERR is FILE with the local time in its place. */
  lemma FileUsesUtcOnly(level: LogLevel, s1: Stamp, s2: Stamp, caller: Caller, message: string)
    requires s1.utc == s2.utc
    ensures FormatLog(FILE, level, s1, caller, message) == FormatLog(FILE, level, s2, caller, message)
    ensures FormatLog(STDERR, level, s1, caller, message)
              == FormatLog(FILE, level, Stamp(s1.utc, s1.local), caller, message)
  {
  }

  /** A file line carries no color code: it is escape-free whenever its inputs are. */
  lemma FileLineIsPlain(level: LogLevel, stamp: Stamp, caller: Caller, message: string)
    requires Plain(stamp.utc) && Plain(caller.file) && Plain(message)
    ensures Plain(FormatLog(FILE, level, stamp, caller, message))
  {
    var digits := Decimal(caller.line);
    assert Plain(digits) by {
      forall i | 0 <= i < |digits| ensures digits[i] != Esc {
        assert IsDigit(digits[i]);
      }
    }
    var name := LevelName(level);
    assert Plain(name);
    PlainConcat(caller.file, ":");
    PlainConcat(caller.file + ":", digits);
    assert CallerTag(caller) == caller.file + ":" + digits;
    PlainConcat(CallerTag(caller), " ");
    PlainConcat(CallerTag(caller) + " ", name);
    PlainConcat(CallerTag(caller) + " " + name, ": ");
    PlainConcat(CallerTag(caller) + " " + name + ": ", message);
    assert PlainTail(level, caller, message) == CallerTag(caller) + " " + name + ": " + message;
    PlainConcat(stamp.utc, " ");
    PlainConcat(stamp.utc + " ", PlainTail(level, caller, message));
  }

  lemma PlainConcat(a: string, b: string)
    requires Plain(a) && Plain(b)
    ensures Plain(a + b)
  {
    forall i | 0 <= i < |a + b| ensures (a + b)[i] != Esc {
      if i < |a| { assert (a + b)[i] == a[i]; } else { assert (a + b)[i] == b[i - |a|]; }
    }
  }

  /** Both console shapes begin with the grey color and the local timestamp. */
  lemma ConsoleLineStartsGrey(dest: Destination, level: LogLevel, stamp: Stamp, caller: Caller, message: string)
    requires dest == STDOUT || dest == STDOUT_DEBUG
    ensures var line := FormatLog(dest, level, stamp, caller, message);
            var head := ColorDarkGrey + stamp.local;
            |head| <= |line| && line[..|head|] == head
  {
    var head := ColorDarkGrey + stamp.local;
    var line := FormatLog(dest, level, stamp, caller, message);
    assert line == head + line[|head|..];
  }
}
