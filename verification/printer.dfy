/** The device-independent part of a printer: which command texts reach the output
    stream, in which order, and which error stops the job. Opening, writing, flushing
    and closing the TCP or serial connection are not part of this module. */
module Printer {
  import opened Wrappers
  import opened Errors
  import opened Commands
  import opened Documents

  /** `written` is the text of the first |written| commands, in order. */
  predicate PrintedPrefix(commands: seq<Command>, written: seq<string>) {
    && |written| <= |commands|
    && forall j | 0 <= j < |written| :: Serialize(commands[j]) == Success(written[j])
  }

  /** Writing the next command's text extends the printed prefix by one. */
  lemma PrintedStep(commands: seq<Command>, written: seq<string>, text: string)
    requires PrintedPrefix(commands, written) && |written| < |commands|
    requires Serialize(commands[|written|]) == Success(text)
    ensures PrintedPrefix(commands, written + [text])
  {
    var next := written + [text];
    forall j | 0 <= j < |next|
      ensures Serialize(commands[j]) == Success(next[j])
    {
      if j < |written| {
        assert next[j] == written[j];
      }
    }
  }

  /** GenericPrinter.PrintCommands: each command is serialised and handed to the
      buffered writer in order. The first command that cannot be serialised stops the
      job with its error, returning before the explicit flush that follows the loop.
      `written` is what was handed to the writer; `flushed` says whether that explicit
      flush ran. Which of the written bytes the writer has already passed on to the
      device by itself is not modelled. */
  method PrintCommands(commands: seq<Command>) returns (written: seq<string>, flushed: bool, err: Option<Error>)
    ensures |written| <= |commands|
    ensures forall j | 0 <= j < |written| :: Serialize(commands[j]) == Success(written[j])
    ensures err.None? <==> |written| == |commands|
    ensures err.Some? ==> Serialize(commands[|written|]) == Failure(err.value)
    ensures flushed <==> err.None?
  {
    written := [];
    while |written| < |commands|
      invariant PrintedPrefix(commands, written)
      decreases |commands| - |written|
    {
      var text := Get(commands[|written|]);
      if text.Failure? {
        return written, false, Some(text.error);
      }
      PrintedStep(commands, written, text.value);
      written := written + [text.value];
    }
    flushed := true;
    err := None;
  }

  /** GenericPrinter.PrintDocument: prints what the document's get() returns, so a
      commercial document with invoice prints its details and opening only. */
  method PrintDocument(doc: Document) returns (written: seq<string>, flushed: bool, err: Option<Error>)
    ensures |written| <= |doc.commands|
    ensures forall j | 0 <= j < |written| :: Serialize(doc.commands[j]) == Success(written[j])
    ensures err.None? <==> |written| == |doc.commands|
    ensures err.Some? ==> Serialize(doc.commands[|written|]) == Failure(err.value)
    ensures flushed <==> err.None?
  {
    written, flushed, err := PrintCommands(doc.commands);
  }
}
