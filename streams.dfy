/** An output file stream as the generator uses it: the lines written so far
    and the two pieces of stream state that decide whether a write lands,
    whether the file is open and whether an earlier open or close failed.
    The file system itself is not modelled: opening a closed stream
    succeeds. */
module Streams {

  class OutStream {
    /** The text written so far, one element per line (every write of the
        generator ends its line). */
    var lines: seq<string>
    var isOpen: bool
    var failed: bool

    /** A stream object that no file has been opened on. */
    constructor ()
      ensures lines == [] && !isOpen && !failed
    {
      lines, isOpen, failed := [], false, false;
    }

    /** Writes take effect only on an open stream whose state is good. */
    predicate Writable()
      reads this
    {
      isOpen && !failed
    }

    /** Opening a stream that is already open fails and leaves it open in a
        failed state; opening a closed one succeeds and clears the state. */
    method Open()
      modifies this`isOpen, this`failed
      ensures isOpen
      ensures failed == old(isOpen)
    {
      if isOpen {
        failed := true;
      } else {
        isOpen, failed := true, false;
      }
    }

    /** Closing a stream that is not open fails. */
    method Close()
      modifies this`isOpen, this`failed
      ensures !isOpen
      ensures failed == (old(failed) || !old(isOpen))
    {
      if isOpen {
        isOpen := false;
      } else {
        failed := true;
      }
    }

    /** Appends one line when the stream is writable; a write to any other
        stream has no effect on its contents. */
    method WriteLine(line: string)
      modifies this`lines
      ensures Writable() ==> lines == old(lines) + [line]
      ensures !Writable() ==> lines == old(lines)
    {
      if Writable() {
        lines := lines + [line];
      }
    }
  }
}
