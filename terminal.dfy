/** The terminal provider: an append-only log of raw output chunks. */
module TerminalContext {
  import opened Wrappers

  const OutsideProviderError: string := "useTerminal must be used within a TerminalProvider"

  /** The provider's `output` state cell. */
  class Terminal {
    var output: seq<string>

    /** The log starts empty. */
    constructor ()
      ensures output == []
    {
      output := [];
    }

    /** addOutput: the chunk, verbatim, becomes the last entry; earlier entries stay as they were. */
    method AddOutput(chunk: string)
      modifies this
      ensures output == old(output) + [chunk]
      ensures |output| == |old(output)| + 1
      ensures output[..|old(output)|] == old(output) && output[|old(output)|] == chunk
    {
      output := output + [chunk];
    }
  }

  /** useTerminal: the context value, or the error thrown outside the provider. */
  function UseTerminal(context: Option<Terminal>): (r: Result<Terminal, string>)
    ensures r.Success? <==> context.Some?
    ensures r.Success? ==> r.value == context.value
    ensures r.Failure? ==> r.error == OutsideProviderError
  {
    match context
    case None => Failure(OutsideProviderError)
    case Some(t) => Success(t)
  }
}
