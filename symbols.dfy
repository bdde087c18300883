/** Values shared by every part of the parser generator: grammar symbols,
    the dynamic values that tokens and semantic actions carry, and the
    failure-compatible wrappers used for the library's exceptions. */
module Symbols {

  /** A grammar symbol. A terminal is a plain string in the library, a
      non-terminal a `NonTerm` object (equal by name), and `Eps` is the
      `EPSILON` marker (`None`). Because the three are different
      constructors, a non-terminal is never equal to a string. */
  datatype Symbol = Terminal(name: string) | NonTerm(name: string) | Eps

  /** Reserved token kinds of the tokenizer. */
  const EOI: string := "EOI"
  const UNK: string := "unknown"

  /** The glyph that marks an epsilon alternative in grammar text. */
  const EPSILON_GLYPH: string := "ε"

  /** The end-of-input symbol as it appears in FOLLOW and SELECT sets and at
      the bottom of the parse stack. */
  const EndOfInput: Symbol := Terminal(EOI)

  /** The dynamic values that flow through tokens and semantic actions.
      `Nil` is Python's `None`; a transform returning it discards the token.
      `SelfNode` marks the place of the syntax-tree node that an evaluation
      function receives as the first element of its argument list; it holds
      none of that node's contents. */
  datatype Value = Nil | Str(s: string) | Int(i: int) | Items(xs: seq<Value>) | SelfNode

  /** Which generation of the library a shared definition follows where the
      two generations differ: the `parsepy/parser`, `parsepy/lexer` package
      (`Package`), or the older top-level `parser.py` (`Legacy`). */
  datatype Dialect = Package | Legacy

  datatype Option<+T> = None | Some(value: T)

  datatype Result<+T, +E> = Success(value: T) | Failure(error: E) {
    predicate IsFailure() { Failure? }
    function PropagateFailure<U>(): Result<U, E>
      requires Failure?
    {
      Failure(error)
    }
    function Extract(): T
      requires Success?
    {
      value
    }
  }

  /** NonTerm equality is by name, and a NonTerm equals no string and not
      the epsilon marker. */
  lemma NonTermEquality(a: string, b: string)
    ensures NonTerm(a) == NonTerm(b) <==> a == b
    ensures NonTerm(a) != Terminal(b) && NonTerm(a) != Eps
  {
  }
}
