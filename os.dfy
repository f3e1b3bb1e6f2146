/** What the logger asks of the operating system, recorded in the order it asks. */
module Os {

  datatype Io =
    | Stdout(text: string)              // fmt.Print / fmt.Println on os.Stdout
    | Stderr(text: string)              // fmt.Fprintf on os.Stderr
    | Opened(path: string)              // a successful os.OpenFile in append/create mode
    | Written(path: string, text: string) // a successful fmt.Fprintf to the file opened on path
    | Closed(path: string)              // (*os.File).Close on the file opened on path

  /** The text the logger has appended to the file at `path`, in order. */
  function FileText(io: seq<Io>, path: string): string
    decreases |io|
  {
    if io == [] then ""
    else
      var last := io[|io| - 1];
      FileText(io[..|io| - 1], path) + (if last.Written? && last.path == path then last.text else "")
  }

  /** The file text of a trace split in two is the text of the first part followed by that of the second. */
  lemma {:induction false} FileTextAppend(a: seq<Io>, b: seq<Io>, path: string)
    ensures FileText(a + b, path) == FileText(a, path) + FileText(b, path)
    decreases |b|
  {
    if b != [] {
      var b' := b[..|b| - 1];
      assert (a + b)[..|a + b| - 1] == a + b';
      FileTextAppend(a, b', path);
    } else {
      assert a + b == a;
    }
  }

  /** A trace without writes adds nothing to any file. */
  lemma {:induction false} NoWritesNoText(io: seq<Io>, path: string)
    requires forall i :: 0 <= i < |io| ==> !io[i].Written?
    ensures FileText(io, path) == ""
    decreases |io|
  {
    if io != [] {
      NoWritesNoText(io[..|io| - 1], path);
    }
  }
}
