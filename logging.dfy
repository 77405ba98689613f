/** The problem's log: an append-only list of lines. */
module Logging {

  class Logger {
    var lines: seq<string>

    constructor ()
      ensures lines == []
    {
      lines := [];
    }

    /** Appends one line; earlier lines are kept as they were. */
    method Log(line: string)
      modifies this
      ensures lines == old(lines) + [line]
      ensures |lines| == |old(lines)| + 1 && lines[..|old(lines)|] == old(lines)
    {
      lines := lines + [line];
    }
  }
}
