/** The descriptor of one signal column of a test vector file
    (SignalDeclaration). It is an immutable value: the source's four
    constructors only fill in fields, defaulting the trailing ones. */
module Signals {

  /** The base used when a constructor does not name one. */
  const DefaultPrintBase := 16

  /** A signal column: its name, its width in bits, the number base its values
      are printed in and whether its caption shows " (N bit)". The datatype's
      own constructor is the four-argument constructor of the source, which
      stores every field exactly as given. */
  datatype SignalDeclaration = SignalDeclaration(
    name: string,
    width: int,
    printBase: int,
    appendWidthInCaption: bool)

  /** The default constructor: an unnamed signal of width 0, printed in base
      16, with the width shown in its caption. */
  function DefaultDeclaration(): (d: SignalDeclaration)
    ensures d.name == "" && d.width == 0
    ensures d.printBase == DefaultPrintBase && d.appendWidthInCaption
  {
    SignalDeclaration("", 0, DefaultPrintBase, true)
  }

  /** The (name, width) constructor: base 16 and width-in-caption on. */
  function NamedDeclaration(name: string, width: int): (d: SignalDeclaration)
    ensures d.name == name && d.width == width
    ensures d.printBase == DefaultPrintBase && d.appendWidthInCaption
  {
    SignalDeclaration(name, width, DefaultPrintBase, true)
  }

  /** The (name, width, base) constructor: width-in-caption on. */
  function BasedDeclaration(name: string, width: int, printBase: int): (d: SignalDeclaration)
    ensures d.name == name && d.width == width && d.printBase == printBase
    ensures d.appendWidthInCaption
  {
    SignalDeclaration(name, width, printBase, true)
  }
}
