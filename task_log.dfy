/**
 * The build log a `TaskListener` hands out through `getLogger()`. Each entry is one
 * `println` message or one raw line written by the output decorator, in the order written.
 */
module TaskLog {
  class Logger {
    var lines: seq<string>

    constructor ()
      ensures lines == []
    {
      lines := [];
    }

    /** `PrintStream.println(message)`, and `OutputStream.write` of one complete line. */
    method Println(message: string)
      modifies this
      ensures lines == old(lines) + [message]
    {
      lines := lines + [message];
    }
  }
}
