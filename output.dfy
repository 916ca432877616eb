/** The process's standard output, seen as the list of lines written to it so far. */
module Output {

  /** Stands in for `System.Console`: `WriteLine` appends one entry to `lines`.
      An entry may itself contain newline characters; it is still one write. */
  class Console {
    var lines: seq<string>

    constructor ()
      ensures lines == []
    {
      lines := [];
    }

    method WriteLine(s: string)
      modifies this
      ensures lines == old(lines) + [s]
    {
      lines := lines + [s];
    }
  }
}
