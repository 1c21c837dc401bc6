/** What converting a node does to the builder, as functions: the
    specification the imperative `texify` methods are proved against
    (mod.rs lines 134-149 and 240-760). A conversion either yields the new
    builder state or the first error it meets. */
module Rendering {
  import opened Wrappers
  import opened Tables
  import opened Nodes
  import opened TexBuilder

  const LeftParen := "\\left("
  const RightParen := "\\right)"

  /** The plain prefix and suffix test of `texify_unparen`. */
  predicate IsParenWrapped(s: string) {
    LeftParen <= s && |RightParen| <= |s| && s[|s| - |RightParen|..] == RightParen
  }

  /** The two markers cannot overlap: a text that starts with `\left(` and
      ends with `\right)` holds both in full, so it is at least 13 long. */
  lemma MarkersDisjoint(s: string)
    requires IsParenWrapped(s)
    ensures |s| >= |LeftParen| + |RightParen|
  {
    // position 5 holds '(' and no position of the suffix does
    assert s[5] == LeftParen[5] == '(';
    assert forall k :: |s| - 7 <= k < |s| ==> s[k] == RightParen[k - (|s| - 7)] != '(';
  }

  /** `texify_unparen`'s trimming: drop the first 6 and the last 7
      characters of a text wrapped in `\left(` ... `\right)`. The markers
      are ASCII, so these character counts are the source's byte counts. */
  function Unparen(s: string): (r: string)
    ensures IsParenWrapped(s) ==> |r| == |s| - 13 && s == LeftParen + r + RightParen
    ensures !IsParenWrapped(s) ==> r == s
  {
    if IsParenWrapped(s) then
      MarkersDisjoint(s);
      assert s == s[..6] + s[6..|s| - 7] + s[|s| - 7..];
      s[6..|s| - 7]
    else s
  }

  /** The characters of a text node, each through `push_escaped`. */
  function EscapeChars(s: string, st: TexState, symbols: seq<MathSymbol>): TexState
    decreases |s|
  {
    if s == [] then st
    else EscapeChars(s[1..], st.PushEscaped(s[0], symbols), symbols)
  }

  /** One character of an atom: `|` is marked supportive on both sides. */
  function AtomChar(c: char, st: TexState, symbols: seq<MathSymbol>): TexState {
    if c == '|' then st.Support().PushEscaped(c, symbols).Support()
    else st.PushEscaped(c, symbols)
  }

  /** The characters of an atom. */
  function AtomChars(s: string, st: TexState, symbols: seq<MathSymbol>): TexState
    decreases |s|
  {
    if s == [] then st
    else AtomChars(s[1..], AtomChar(s[0], st, symbols), symbols)
  }

  /** An atom of more than one grapheme is wrapped in `\mathrm{..}`. */
  function RenderAtom(text: string, st: TexState, env: Env): TexState {
    if env.graphemes(text) > 1 then
      AtomChars(text, st.PushStr("\\mathrm{"), env.symbols).PushStr("}")
    else AtomChars(text, st, env.symbols)
  }

  /** `texify` for a node. */
  function Render(c: Content, st: TexState, env: Env): Result<TexState, Error>
    decreases c, 1
  {
    match c
    case Space => Ok(st.PushSpace())
    case Linebreak => Ok(st.PushStr("\\"))
    case Symbol(name, span) =>
      if name in env.symmie then Ok(st.PushEscaped(env.symmie[name], env.symbols))
      else if span.Some? then Err(Error(span.value, UnknownSymbol))
      else Ok(st)
    case Text(text) => Ok(RenderText(text, st, env))
    case Sequence(children) => RenderAll(children, st, env)
    case Math(_, children) => RenderAll(children, st, env)
    case Atom(text) => Ok(RenderAtom(text, st, env))
    case Acc(base, accent) =>
      (match FindSymbol(env.symbols, accent, true)
       case Some(sym) => RenderBetween("\\" + sym.name + "{", base, "}", st, env)
       case None => Render(base, st, env))
    case Frac(num, denom) => RenderFrac(num, denom, st, env)
    case Binom(upper, lower) => RenderBinom(upper, lower, st, env)
    case Script(base, sub, sup) => RenderScript(base, sub, sup, st, env)
    case AlignPoint(_) => Ok(st)
    case Sqrt(body) => RenderBetween("\\sqrt{", body, "}", st, env)
    case Floor(body) => RenderBetween("\\left\\lfloor ", body, "\\right\\rfloor ", st, env)
    case Ceil(body) => RenderBetween("\\left\\lceil ", body, "\\right\\rceil ", st, env)
    case Unsupported(span) =>
      if span.Some? then Err(Error(span.value, NotAllowedHere)) else Ok(st)
  }

  /** A text node: one `\mathrm{..}` group, supportive on both sides. */
  function RenderText(text: string, st: TexState, env: Env): TexState {
    EscapeChars(text, st.Support().PushStr("\\mathrm{"), env.symbols).PushStr("}").Support()
  }

  /** An opening directive, the body untrimmed, a closing directive (the
      square root, floor and ceiling, and an accent with a command). The
      accent's three pushes `\`, the name and `{` write what one push of
      their concatenation writes, since only the first can flush. */
  function RenderBetween(open: string, body: Content, close: string, st: TexState, env: Env): Result<TexState, Error>
    decreases body, 4
  {
    var s1 :- Render(body, st.PushStr(open), env);
    Ok(s1.PushStr(close))
  }

  function RenderFrac(num: Content, denom: Content, st: TexState, env: Env): Result<TexState, Error>
    decreases Frac(num, denom), 0
  {
    var s1 :- RenderUnparen(num, st.PushStr("\\frac{"), env);
    var s2 :- RenderUnparen(denom, s1.PushStr("}{"), env);
    Ok(s2.PushStr("}"))
  }

  function RenderBinom(upper: Content, lower: Content, st: TexState, env: Env): Result<TexState, Error>
    decreases Binom(upper, lower), 0
  {
    var s1 :- Render(upper, st.PushStr("\\binom{"), env);
    var s2 :- Render(lower, s1.PushStr("}{"), env);
    Ok(s2.PushStr("}"))
  }

  /** An optional script slot: `open`, the trimmed script, `}`; nothing
      when the slot is empty. */
  function RenderSlot(open: string, slot: Option<Content>, st: TexState, env: Env): Result<TexState, Error>
    decreases slot, 0
  {
    match slot
    case None => Ok(st)
    case Some(x) =>
      var s1 :- RenderUnparen(x, st.PushStr(open), env);
      Ok(s1.PushStr("}"))
  }

  function RenderScript(base: Content, sub: Option<Content>, sup: Option<Content>, st: TexState, env: Env): Result<TexState, Error>
    decreases Script(base, sub, sup), 0
  {
    var s1 :- Render(base, st, env);
    var s2 :- RenderSlot("_{", sub, s1, env);
    RenderSlot("^{", sup, s2, env)
  }

  /** The children of a sequence or formula, left to right, stopping at the
      first error. */
  function RenderAll(cs: seq<Content>, st: TexState, env: Env): Result<TexState, Error>
    decreases cs
  {
    if cs == [] then Ok(st)
    else
      var s1 :- Render(cs[0], st, env);
      RenderAll(cs[1..], s1, env)
  }

  /** A node rendered on its own into a fresh builder: the top-level
      conversion, and the scratch rendering of `texify_unparen`. */
  function Standalone(c: Content, env: Env): Result<string, Error>
    decreases c, 2
  {
    var sub :- Render(c, Empty, env);
    Ok(sub.tex)
  }

  /** `texify_unparen`: render into a scratch builder, trim, and push. */
  function RenderUnparen(c: Content, st: TexState, env: Env): Result<TexState, Error>
    decreases c, 3
  {
    var s :- Standalone(c, env);
    Ok(st.PushStr(Unparen(s)))
  }
}
