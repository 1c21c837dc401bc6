/** The accent normalizer (`extract`, mod.rs lines 408-438) and the error
    mapping of `AccNode::construct` (lines 396-405). */
module Accent {
  import opened Wrappers
  import opened Tables
  import opened Nodes

  /** The eleven canonical combining accents: grave, acute, circumflex,
      tilde, macron, overline, breve, dot, diaeresis, caron and arrow. */
  predicate IsCanonicalAccent(c: char) {
    c in ['\U{0300}', '\U{0301}', '\U{0302}', '\U{0303}', '\U{0304}', '\U{0305}',
          '\U{0306}', '\U{0307}', '\U{0308}', '\U{030C}', '\U{20D7}']
  }

  /** The alias table: each accepted spelling of an accent to its canonical
      combining codepoint. */
  function AccentCanonical(c: char): Option<char> {
    if c == '`' || c == '\U{0300}' then Some('\U{0300}')                           // grave
    else if c == '\U{00B4}' || c == '\U{0301}' then Some('\U{0301}')               // acute
    else if c == '^' || c == '\U{0302}' then Some('\U{0302}')                      // circumflex
    else if c == '~' || c == '\U{223C}' || c == '\U{0303}' then Some('\U{0303}')   // tilde
    else if c == '\U{00AF}' || c == '\U{0304}' then Some('\U{0304}')               // macron
    else if c == '\U{203E}' || c == '\U{0305}' then Some('\U{0305}')               // overline
    else if c == '\U{02D8}' || c == '\U{0306}' then Some('\U{0306}')               // breve
    else if c == '.' || c == '\U{22C5}' || c == '\U{0307}' then Some('\U{0307}')   // dot
    else if c == '\U{00A8}' || c == '\U{0308}' then Some('\U{0308}')               // diaeresis
    else if c == '\U{02C7}' || c == '\U{030C}' then Some('\U{030C}')               // caron
    else if c == '\U{2192}' || c == '\U{20D7}' then Some('\U{20D7}')               // arrow
    else None
  }

  /** The single character an accent operand stands for: the one child of a
      formula, either an atom of exactly one character or a symbol the name
      table resolves. `None` for every other shape. */
  function OperandChar(content: Content, symmie: map<string, char>): Option<Result<char, string>> {
    if !content.Math? || |content.children| != 1 then None
    else
      match content.children[0]
      case Atom(text) => if |text| == 1 then Some(Ok(text[0])) else None
      case Symbol(name, _) => if name in symmie then Some(Ok(symmie[name])) else Some(Err(UnknownSymbol))
      case _ => None
  }

  /** The outcome of `extract` for an operand that stands for `c`: its
      canonical accent, or none when `c` is outside the alias table. */
  function Canonical(c: char): (r: Option<Result<char, string>>)
    ensures r.Some? <==> AccentCanonical(c).Some?
    ensures r.Some? ==> r.value.Ok? && r.value.value == AccentCanonical(c).value
    ensures r.Some? ==> IsCanonicalAccent(r.value.value)
  {
    AccentCanonicalIdempotent(c);
    match AccentCanonical(c)
    case Some(a) => Some(Ok(a))
    case None => None
  }

  /** `extract`: the canonical accent an operand denotes, an error message
      for an unknown symbol, or `None` when the operand is not an accent. */
  function Extract(content: Content, symmie: map<string, char>): (r: Option<Result<char, string>>)
    ensures r.Some? ==> content.Math? && |content.children| == 1
    ensures r.Some? && r.value.Ok? ==> IsCanonicalAccent(r.value.value)
    ensures r == Some(Err(UnknownSymbol)) <==>
      content.Math? && |content.children| == 1 &&
      content.children[0].Symbol? && content.children[0].name !in symmie
    ensures r.Some? && r.value.Err? ==> r.value.error == UnknownSymbol
    ensures (content.Math? && |content.children| == 1 && content.children[0].Atom? &&
             |content.children[0].text| != 1) ==> r.None?
    ensures (content.Math? && |content.children| == 1 &&
             !content.children[0].Atom? && !content.children[0].Symbol?) ==> r.None?
    ensures (content.Math? && |content.children| == 1 && content.children[0].Atom? &&
             |content.children[0].text| == 1) ==>
      r == Canonical(content.children[0].text[0])
    ensures (content.Math? && |content.children| == 1 && content.children[0].Symbol? &&
             content.children[0].name in symmie) ==>
      r == Canonical(symmie[content.children[0].name])
  {
    match OperandChar(content, symmie)
    case None => None
    case Some(Err(msg)) => Some(Err(msg))
    case Some(Ok(c)) => Canonical(c)
  }

  /** The accent argument of `AccNode::construct`, turned into a node or into
      an error at the argument's span. */
  function ConstructAcc(base: Content, accent: Content, span: Span, symmie: map<string, char>): (r: Result<Content, Error>)
    ensures r.Ok? <==> Extract(accent, symmie).Some? && Extract(accent, symmie).value.Ok?
    ensures r.Ok? ==> r.value == Acc(base, Extract(accent, symmie).value.value) &&
                      IsCanonicalAccent(r.value.accent)
    ensures r.Err? ==> r.error.span == span
    ensures Extract(accent, symmie).None? ==> r == Err(Error(span, NotAnAccent))
    ensures Extract(accent, symmie) == Some(Err(UnknownSymbol)) ==> r == Err(Error(span, UnknownSymbol))
  {
    match Extract(accent, symmie)
    case Some(Ok(c)) => Ok(Acc(base, c))
    case Some(Err(msg)) => Err(Error(span, msg))
    case None => Err(Error(span, NotAnAccent))
  }

  // ---------------------------------------------------------------------
  // Properties of the normalizer
  // ---------------------------------------------------------------------

  /** Every alias is mapped to a canonical accent, and a canonical accent
      maps to itself: the normalizer is idempotent. */
  lemma AccentCanonicalIdempotent(c: char)
    ensures AccentCanonical(c).Some? ==> IsCanonicalAccent(AccentCanonical(c).value)
    ensures AccentCanonical(c).Some? ==> AccentCanonical(AccentCanonical(c).value) == AccentCanonical(c)
    ensures IsCanonicalAccent(c) ==> AccentCanonical(c) == Some(c)
  {
  }

  /** The aliases accepted for each accent. */
  lemma AccentAliases()
    ensures AccentCanonical('`') == Some('\U{0300}')
    ensures AccentCanonical('\U{00B4}') == Some('\U{0301}')
    ensures AccentCanonical('^') == Some('\U{0302}')
    ensures AccentCanonical('~') == AccentCanonical('\U{223C}') == Some('\U{0303}')
    ensures AccentCanonical('\U{00AF}') == Some('\U{0304}')
    ensures AccentCanonical('\U{203E}') == Some('\U{0305}')
    ensures AccentCanonical('\U{02D8}') == Some('\U{0306}')
    ensures AccentCanonical('.') == AccentCanonical('\U{22C5}') == Some('\U{0307}')
    ensures AccentCanonical('\U{00A8}') == Some('\U{0308}')
    ensures AccentCanonical('\U{02C7}') == Some('\U{030C}')
    ensures AccentCanonical('\U{2192}') == Some('\U{20D7}')
  {
  }

  /** An accent written as an alias builds the same node as one written as
      its canonical codepoint, so both convert to identical output. */
  lemma AliasBuildsSameNode(base: Content, block: bool, alias: char, span: Span, symmie: map<string, char>)
    requires AccentCanonical(alias).Some?
    ensures ConstructAcc(base, Math(block, [Atom([alias])]), span, symmie) ==
            ConstructAcc(base, Math(block, [Atom([AccentCanonical(alias).value])]), span, symmie)
    ensures ConstructAcc(base, Math(block, [Atom([alias])]), span, symmie) ==
            Ok(Acc(base, AccentCanonical(alias).value))
  {
    AccentCanonicalIdempotent(alias);
  }

  /** An operand of two characters is not an accent. */
  lemma TwoCharsNotAnAccent(base: Content, block: bool, a: char, b: char, span: Span, symmie: map<string, char>)
    ensures ConstructAcc(base, Math(block, [Atom([a, b])]), span, symmie) == Err(Error(span, NotAnAccent))
  {
  }

  /** A single character outside the alias table is not an accent. */
  lemma OutsideTableNotAnAccent(base: Content, block: bool, c: char, span: Span, symmie: map<string, char>)
    requires AccentCanonical(c).None?
    ensures ConstructAcc(base, Math(block, [Atom([c])]), span, symmie) == Err(Error(span, NotAnAccent))
  {
  }

  /** A symbol operand that resolves goes through the same alias table as
      a literal character. */
  lemma SymbolAccent(base: Content, block: bool, name: string, nodeSpan: Option<Span>, span: Span, symmie: map<string, char>)
    requires name in symmie
    ensures ConstructAcc(base, Math(block, [Symbol(name, nodeSpan)]), span, symmie) ==
            ConstructAcc(base, Math(block, [Atom([symmie[name]])]), span, symmie)
    ensures AccentCanonical(symmie[name]).None? ==>
            ConstructAcc(base, Math(block, [Symbol(name, nodeSpan)]), span, symmie) == Err(Error(span, NotAnAccent))
    ensures AccentCanonical(symmie[name]).Some? ==>
            ConstructAcc(base, Math(block, [Symbol(name, nodeSpan)]), span, symmie) ==
            Ok(Acc(base, AccentCanonical(symmie[name]).value))
  {
  }

  /** An operand naming an unknown symbol fails with that message at the
      operand's span. */
  lemma UnknownSymbolOperand(base: Content, block: bool, name: string, nodeSpan: Option<Span>, span: Span, symmie: map<string, char>)
    requires name !in symmie
    ensures ConstructAcc(base, Math(block, [Symbol(name, nodeSpan)]), span, symmie) == Err(Error(span, UnknownSymbol))
  {
  }
}
