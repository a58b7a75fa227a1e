/** The process's standard output, seen as the text written to it so far. */
module Sink {

  class Stdout {
    var text: string

    constructor ()
      ensures text == ""
    {
      text := "";
    }

    /** `process.stdout.write(s)`. */
    method Write(s: string)
      modifies this
      ensures text == old(text) + s
    {
      text := text + s;
    }
  }
}
