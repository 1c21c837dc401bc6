/** The closed set of content nodes the linearizer converts, and the error
    it reports. */
module Nodes {
  import opened Wrappers

  /** An opaque source location. */
  datatype Span = Span(id: nat)

  /** A diagnostic tied to a source location (`SourceResult`'s error). */
  datatype Error = Error(span: Span, message: string)

  const UnknownSymbol := "unknown symbol"
  const NotAnAccent := "not an accent"
  const NotAllowedHere := "not allowed here"

  /** An alignment point's index is a non-zero integer. */
  type NonZero = n: nat | n > 0 witness 1

  /** A node of a formula. `Symbol` and `Unsupported` carry the node's
      optional span: they are the only variants whose conversion reads it.
      `Unsupported` stands for any content without a conversion of its own. */
  datatype Content =
    | Space                                              // SpaceNode
    | Linebreak                                          // LinebreakNode
    | Symbol(name: string, span: Option<Span>)           // SymbolNode
    | Text(text: string)                                 // TextNode
    | Sequence(children: seq<Content>)                   // SequenceNode
    | Math(block: bool, children: seq<Content>)          // MathNode
    | Atom(text: string)                                 // AtomNode
    | Acc(base: Content, accent: char)                   // AccNode
    | Frac(num: Content, denom: Content)                 // FracNode
    | Binom(upper: Content, lower: Content)              // BinomNode
    | Script(base: Content, sub: Option<Content>, sup: Option<Content>) // ScriptNode
    | AlignPoint(index: NonZero)                         // AlignPointNode
    | Sqrt(body: Content)                                // SqrtNode
    | Floor(body: Content)                               // FloorNode
    | Ceil(body: Content)                                // CeilNode
    | Unsupported(span: Option<Span>)                    // any other content

}
