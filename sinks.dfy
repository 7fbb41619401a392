/**
 * Append-only text destinations: a log file opened in mode 'a', or the
 * console. The sink records every write call in order; nothing already
 * written is ever removed or changed.
 */
module Sinks {
  class TextSink {
    /** One element per write() call (a file) or per print() call (the console, with its '\n'). */
    var writes: seq<string>

    constructor (initial: seq<string>)
      ensures writes == initial
    {
      writes := initial;
    }

    /** log_file.write(s) */
    method Write(s: string)
      modifies this
      ensures writes == old(writes) + [s]
    {
      writes := writes + [s];
    }

    /** print(s): the text followed by a newline. */
    method Print(s: string)
      modifies this
      ensures writes == old(writes) + [s + "\n"]
    {
      writes := writes + [s + "\n"];
    }
  }
}
