/** The terminal control sequences the logger writes (log/log.go). */
module Ansi {

  const Esc: char := '\U{1B}'

  const ColorReset: string := [Esc] + "[0m"
  const ColorRed: string := [Esc] + "[31m"
  const ColorYellow: string := [Esc] + "[33m"
  const ColorBlue: string := [Esc] + "[34m"
  const ColorDarkGrey: string := [Esc] + "[90m"

  /** Cursor up one row, back to column zero, clear the row: the rewrite prefix. */
  const CursorUp: string := [Esc] + "[F"
  const CarriageReturn: string := "\r"
  const ClearLine: string := [Esc] + "[K"

  /** True when `s` holds no escape character, so no color or cursor code. */
  predicate Plain(s: string) {
    forall i :: 0 <= i < |s| ==> s[i] != Esc
  }
}
