/**
 * The level registry's pure part (log/level.go): the numbered tiers, their
 * names and colors, the name parser, and the console threshold comparison.
 */
module Levels {
  import opened Wrappers
  import opened Text
  import opened Ansi

  /** Go's `type LogLevel int`: any 64-bit integer, of which six are named tiers. */
  newtype LogLevel = x: int | -0x8000_0000_0000_0000 <= x < 0x8000_0000_0000_0000

  const PANIC: LogLevel := 0
  const ERROR: LogLevel := 1
  const WARN: LogLevel := 2
  const INFO: LogLevel := 3
  const DEBUG: LogLevel := 4
  const REQUEST: LogLevel := 5

  /** One of the six levels the package declares. */
  predicate IsTier(l: LogLevel) {
    PANIC <= l <= REQUEST
  }

  /** The tiers in increasing order of verbosity. */
  lemma TierOrder()
    ensures PANIC == 0 && REQUEST == 5
    ensures PANIC < ERROR < WARN < INFO < DEBUG < REQUEST
    ensures forall l: LogLevel :: IsTier(l) <==> l in {PANIC, ERROR, WARN, INFO, DEBUG, REQUEST}
  {
  }

  /** `levelNames[l]`; a level missing from the map reads as Go's zero value "". */
  function LevelName(l: LogLevel): (name: string)
    ensures name != "" <==> IsTier(l)
  {
    if l == PANIC then "PANIC"
    else if l == ERROR then "ERROR"
    else if l == WARN then "WARN"
    else if l == INFO then "INFO"
    else if l == DEBUG then "DEBUG"
    else if l == REQUEST then "REQ"
    else ""
  }

  /** `levelColors[l]`, "" for a level missing from the map. */
  function LevelColor(l: LogLevel): (color: string)
    ensures color != "" <==> IsTier(l)
  {
    if l == PANIC || l == ERROR then ColorRed
    else if l == WARN || l == DEBUG then ColorYellow
    else if l == INFO then ColorBlue
    else if l == REQUEST then ColorDarkGrey
    else ""
  }

  /**
   * The colors group the tiers by severity: red exactly for PANIC and ERROR,
   * yellow exactly for WARN and DEBUG, blue only for INFO, dark grey only for
   * REQUEST.
   */
  lemma ColorsBySeverity(l: LogLevel)
    ensures LevelColor(l) == ColorRed <==> l == PANIC || l == ERROR
    ensures LevelColor(l) == ColorYellow <==> l == WARN || l == DEBUG
    ensures LevelColor(l) == ColorBlue <==> l == INFO
    ensures LevelColor(l) == ColorDarkGrey <==> l == REQUEST
  {
    // The four codes differ in their digits after "ESC[".
    assert ColorRed[3] == '1' && ColorYellow[3] == '3' && ColorBlue[3] == '4' && ColorDarkGrey[2] == '9';
    assert ColorRed != ColorYellow && ColorRed != ColorBlue && ColorYellow != ColorBlue;
    assert ColorRed != ColorDarkGrey && ColorYellow != ColorDarkGrey && ColorBlue != ColorDarkGrey;
  }

  /** Each tier has its own label, and REQUEST is labelled "REQ" rather than by its full name. */
  lemma NamesDistinct(a: LogLevel, b: LogLevel)
    requires IsTier(a) && IsTier(b) && LevelName(a) == LevelName(b)
    ensures a == b
  {
  }

  /** The switch of `SetLevelFromString` on the lower-cased name; `None` is its error branch. */
  function ParseLevel(s: string): (r: Option<LogLevel>)
    ensures r.Some? ==> IsTier(r.value) && r.value != REQUEST
  {
    var name := ToLower(s);
    if name == "debug" then Some(DEBUG)
    else if name == "info" then Some(INFO)
    else if name == "warn" then Some(WARN)
    else if name == "error" then Some(ERROR)
    else if name == "panic" then Some(PANIC)
    else None
  }

  /** The names `ParseLevel` accepts are exactly the lower-cased labels of the five non-REQUEST tiers. */
  lemma ParseLevelIff(s: string, l: LogLevel)
    ensures ParseLevel(s) == Some(l) <==>
              IsTier(l) && l != REQUEST && ToLower(s) == ToLower(LevelName(l))
  {
    LowerLabel("PANIC", "panic");
    LowerLabel("ERROR", "error");
    LowerLabel("WARN", "warn");
    LowerLabel("INFO", "info");
    LowerLabel("DEBUG", "debug");
  }

  /** Lower-casing an upper-case ASCII label, letter by letter. */
  lemma LowerLabel(upper: string, lower: string)
    requires |upper| == |lower|
    requires forall i :: 0 <= i < |upper| ==> 'A' <= upper[i] <= 'Z' && lower[i] as int == upper[i] as int + 32
    ensures ToLower(upper) == lower
  {
  }

  /** Parsing ignores case: a name and its lower case parse alike. */
  lemma ParseIgnoresCase(s: string)
    ensures ParseLevel(s) == ParseLevel(ToLower(s))
  {
    ToLowerIdempotent(s);
  }

  /** Every non-REQUEST tier parses back from its own upper-case label. */
  lemma ParseLevelName(l: LogLevel)
    requires IsTier(l) && l != REQUEST
    ensures ParseLevel(LevelName(l)) == Some(l)
  {
    ParseLevelIff(LevelName(l), l);
  }

  /** REQUEST is filtered for the console as if it were INFO. */
  function EffectiveLevel(l: LogLevel): (e: LogLevel)
    ensures e == INFO <==> l == INFO || l == REQUEST
    ensures l != REQUEST ==> e == l
  {
    if l == REQUEST then INFO else l
  }

  /** A record at `l` reaches the console under threshold `threshold`. */
  predicate ConsoleEligible(l: LogLevel, threshold: LogLevel)
    ensures IsTier(l) && threshold >= DEBUG ==> ConsoleEligible(l, threshold)
    ensures IsTier(l) && threshold < PANIC ==> !ConsoleEligible(l, threshold)
  {
    EffectiveLevel(l) <= threshold
  }

  /** Raising the threshold never hides a record that was shown. */
  lemma EligibilityMonotone(l: LogLevel, lower: LogLevel, higher: LogLevel)
    requires lower <= higher && ConsoleEligible(l, lower)
    ensures ConsoleEligible(l, higher)
  {
  }

  /**
   * For the named tiers: eligible exactly when the tier is at most as verbose
   * as the threshold, REQUEST counting as INFO; so PANIC is eligible under
   * every threshold that is not negative, DEBUG only under DEBUG and above.
   */
  lemma EligibilityByTier(l: LogLevel, threshold: LogLevel)
    requires IsTier(l)
    ensures l == PANIC ==> (ConsoleEligible(l, threshold) <==> threshold >= 0)
    ensures l == REQUEST ==> (ConsoleEligible(l, threshold) <==> ConsoleEligible(INFO, threshold))
    ensures l == DEBUG ==> (ConsoleEligible(l, threshold) <==> threshold >= DEBUG)
    ensures l != REQUEST ==> (ConsoleEligible(l, threshold) <==> l <= threshold)
  {
  }
}
