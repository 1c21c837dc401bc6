/** Worked conversions: each lemma pins the exact text one small formula
    converts to. */
module Scenarios {
  import opened Wrappers
  import opened Tables
  import opened Nodes
  import opened TexBuilder
  import opened Rendering
  import opened RenderFacts

  // ---------------------------------------------------------------------
  // Trimming of parentheses
  // ---------------------------------------------------------------------

  /** Trimming undoes exactly one `\left(` ... `\right)` wrapping. */
  lemma UnparenOfWrapped(s: string)
    ensures Unparen(LeftParen + s + RightParen) == s
  {
    var w := LeftParen + s + RightParen;
    assert LeftParen <= w;
    assert w[|w| - |RightParen|..] == RightParen;
  }

  /** The test is on the text's two ends only, not on matched depth: two
      separate groups lose their outer markers and keep the inner ones. */
  lemma UnparenNotDepthMatched()
    ensures Unparen("\\left(a\\right)+\\left(b\\right)") == "a\\right)+\\left(b"
  {
    assert "\\left(a\\right)+\\left(b\\right)" == LeftParen + "a\\right)+\\left(b" + RightParen;
    UnparenOfWrapped("a\\right)+\\left(b");
  }

  /** Only one layer of a doubly wrapped text is removed. */
  lemma UnparenOneLayer(s: string)
    ensures Unparen(LeftParen + LeftParen + s + RightParen + RightParen) == LeftParen + s + RightParen
  {
    assert LeftParen + LeftParen + s + RightParen + RightParen == LeftParen + (LeftParen + s + RightParen) + RightParen;
    UnparenOfWrapped(LeftParen + s + RightParen);
  }

  // ---------------------------------------------------------------------
  // Atoms
  // ---------------------------------------------------------------------

  /** Characters written as they are, none of them the supportive `|`. */
  predicate PlainChars(s: string) {
    s != [] && '|' !in s && forall k :: 0 <= k < |s| ==> IsVerbatim(s[k])
  }

  /** Letters and digits are written as they are. */
  lemma {:induction false} VerbatimText(s: string, symbols: seq<MathSymbol>)
    requires forall k :: 0 <= k < |s| ==> IsVerbatim(s[k])
    ensures EscapeString(s, symbols) == s
    decreases |s|
  {
    if s != [] {
      EscapeTable(s[0], symbols);
      VerbatimText(s[1..], symbols);
      assert s == [s[0]] + s[1..];
    }
  }

  /** An atom of plain characters is those characters, wrapped in
      `\mathrm{..}` when they are more than one grapheme. */
  lemma PlainAtom(text: string, st: TexState, env: Env)
    requires PlainChars(text)
    ensures Render(Atom(text), st, env) ==
      Ok(TexState(st.Flush().tex + (if env.graphemes(text) > 1 then "\\mathrm{" + text + "}" else text), false, false))
  {
    AtomShape(text, st, env);
    VerbatimText(text, env.symbols);
    if env.graphemes(text) > 1 {
      assert Render(Atom(text), st, env) == Ok(TexState(st.Flush().tex + "\\mathrm{" + text + "}", false, false));
      assert st.Flush().tex + "\\mathrm{" + text + "}" == st.Flush().tex + ("\\mathrm{" + text + "}");
    } else {
      assert Render(Atom(text), st, env) == Ok(TexState(st.Flush().tex + text, false, false));
    }
  }

  /** A standalone plain atom of one grapheme is its own text. */
  lemma SingleGraphemeAtom(text: string, env: Env)
    requires PlainChars(text) && env.graphemes(text) <= 1
    ensures Standalone(Atom(text), env) == Ok(text)
  {
    PlainAtom(text, Empty, env);
    assert Empty.Flush().tex == "";
    assert "" + text == text;
    assert Render(Atom(text), Empty, env) == Ok(TexState(text, false, false));
  }

  /** A standalone plain atom of several graphemes is set upright. */
  lemma WordAtom(text: string, env: Env)
    requires PlainChars(text) && env.graphemes(text) > 1
    ensures Standalone(Atom(text), env) == Ok("\\mathrm{" + text + "}")
  {
    PlainAtom(text, Empty, env);
    assert Empty.Flush().tex == "";
    assert "" + ("\\mathrm{" + text + "}") == "\\mathrm{" + text + "}";
    assert Render(Atom(text), Empty, env) == Ok(TexState("\\mathrm{" + text + "}", false, false));
  }

  /** A one-character atom other than `|` is that character's escape. */
  lemma OneCharAtom(c: char, st: TexState, env: Env)
    requires c != '|' && env.graphemes([c]) <= 1
    ensures Render(Atom([c]), st, env) == Ok(st.PushEscaped(c, env.symbols))
  {
    assert [c][1..] == [];
    assert AtomChars([c], st, env.symbols) == AtomChars([], AtomChar(c, st, env.symbols), env.symbols);
  }

  // ---------------------------------------------------------------------
  // Short sequences
  // ---------------------------------------------------------------------

  lemma Seq1(a: Content, st: TexState, env: Env)
    ensures RenderAll([a], st, env) == Render(a, st, env)
  {
    assert [a][1..] == [];
    if Render(a, st, env).Ok? {
      assert RenderAll([a], st, env) == RenderAll([], Render(a, st, env).value, env);
    }
  }

  lemma Seq2(a: Content, b: Content, st: TexState, s1: TexState, env: Env)
    requires Render(a, st, env) == Ok(s1)
    ensures RenderAll([a, b], st, env) == Render(b, s1, env)
  {
    assert [a, b][1..] == [b];
    assert RenderAll([a, b], st, env) == RenderAll([b], s1, env);
    Seq1(b, s1, env);
  }

  lemma Seq3(a: Content, b: Content, c: Content, st: TexState, s1: TexState, s2: TexState, env: Env)
    requires Render(a, st, env) == Ok(s1) && Render(b, s1, env) == Ok(s2)
    ensures RenderAll([a, b, c], st, env) == Render(c, s2, env)
  {
    assert [a, b, c][1..] == [b, c];
    assert RenderAll([a, b, c], st, env) == RenderAll([b, c], s1, env);
    Seq2(b, c, s1, s2, env);
  }

  /** A standalone sequence is the text its children leave in a fresh builder. */
  lemma StandaloneSequence(cs: seq<Content>, s: TexState, env: Env)
    requires RenderAll(cs, Empty, env) == Ok(s)
    ensures Standalone(Sequence(cs), env) == Ok(s.tex)
  {
    assert Render(Sequence(cs), Empty, env) == Ok(s);
  }

  // ---------------------------------------------------------------------
  // Weak spaces
  // ---------------------------------------------------------------------

  /** A text node written first into a fresh builder. */
  lemma FirstText(x: string, env: Env)
    ensures Render(Text(x), Empty, env) ==
      Ok(TexState("\\mathrm{" + EscapeString(x, env.symbols) + "}", false, true))
  {
    TextShape(x, Empty, env);
    DropEmpty(Empty.tex, "", "\\mathrm{", EscapeString(x, env.symbols), "}");
  }

  /** Two empty pieces in front of a text leave it unchanged. */
  lemma DropEmpty(p: string, q: string, a: string, b: string, c: string)
    requires p == [] && q == []
    ensures p + q + a + b + c == a + b + c
  {
  }

  /** A plain atom written first into a fresh builder. */
  lemma FirstAtom(x: string, env: Env)
    requires PlainChars(x) && env.graphemes(x) <= 1
    ensures Render(Atom(x), Empty, env) == Ok(TexState(x, false, false))
  {
    PlainAtom(x, Empty, env);
    assert Empty.Flush().tex == "";
    assert "" + x == x;
  }

  /** A weak space after something written is recorded. */
  lemma SpaceAfter(st: TexState, env: Env)
    requires st.tex != []
    ensures Render(Space, st, env) == Ok(st.(space := true))
  {
  }

  /** Between two text nodes a weak space shows. */
  lemma TextSpaceText(x: string, y: string, env: Env)
    ensures Standalone(Sequence([Text(x), Space, Text(y)]), env) ==
      Ok("\\mathrm{" + EscapeString(x, env.symbols) + "}" + ExplicitSpace +
         "\\mathrm{" + EscapeString(y, env.symbols) + "}")
  {
    var t1 := "\\mathrm{" + EscapeString(x, env.symbols) + "}";
    FirstText(x, env);
    var s1 := TexState(t1, false, true);
    SpaceAfter(s1, env);
    var s2 := TexState(t1, true, true);
    TextShape(y, s2, env);
    Seq3(Text(x), Space, Text(y), Empty, s1, s2, env);
    StandaloneSequence([Text(x), Space, Text(y)], TexState(t1 + ExplicitSpace + "\\mathrm{" + EscapeString(y, env.symbols) + "}", false, true), env);
  }

  /** Between two ordinary atoms a weak space is dropped. */
  lemma AtomSpaceAtom(x: string, y: string, env: Env)
    requires PlainChars(x) && env.graphemes(x) <= 1
    requires PlainChars(y) && env.graphemes(y) <= 1
    ensures Standalone(Sequence([Atom(x), Space, Atom(y)]), env) == Ok(x + y)
  {
    FirstAtom(x, env);
    var s1 := TexState(x, false, false);
    SpaceAfter(s1, env);
    var s2 := TexState(x, true, false);
    PlainAtom(y, s2, env);
    assert s2.Flush().tex == x;
    Seq3(Atom(x), Space, Atom(y), Empty, s1, s2, env);
    StandaloneSequence([Atom(x), Space, Atom(y)], TexState(x + y, false, false), env);
  }

  /** One supportive neighbour is enough: an atom, a weak space and a text
      node show the space, because the builder keeps a single flag that
      the text node sets on its own left side. */
  lemma AtomSpaceText(x: string, y: string, env: Env)
    requires PlainChars(x) && env.graphemes(x) <= 1
    ensures Standalone(Sequence([Atom(x), Space, Text(y)]), env) ==
      Ok(x + ExplicitSpace + "\\mathrm{" + EscapeString(y, env.symbols) + "}")
  {
    FirstAtom(x, env);
    var s1 := TexState(x, false, false);
    SpaceAfter(s1, env);
    var s2 := TexState(x, true, false);
    TextShape(y, s2, env);
    Seq3(Atom(x), Space, Text(y), Empty, s1, s2, env);
    StandaloneSequence([Atom(x), Space, Text(y)], TexState(x + ExplicitSpace + "\\mathrm{" + EscapeString(y, env.symbols) + "}", false, true), env);
  }

  /** The same holds the other way round: text node, weak space, atom. */
  lemma TextSpaceAtom(x: string, y: string, env: Env)
    requires PlainChars(y) && env.graphemes(y) <= 1
    ensures Standalone(Sequence([Text(x), Space, Atom(y)]), env) ==
      Ok("\\mathrm{" + EscapeString(x, env.symbols) + "}" + ExplicitSpace + y)
  {
    var t1 := "\\mathrm{" + EscapeString(x, env.symbols) + "}";
    FirstText(x, env);
    var s1 := TexState(t1, false, true);
    SpaceAfter(s1, env);
    var s2 := TexState(t1, true, true);
    PlainAtom(y, s2, env);
    assert s2.Flush().tex == t1 + ExplicitSpace;
    Seq3(Text(x), Space, Atom(y), Empty, s1, s2, env);
    StandaloneSequence([Text(x), Space, Atom(y)], TexState(t1 + ExplicitSpace + y, false, false), env);
  }

  /** A weak space at the very start is forgotten, even before a text node. */
  lemma LeadingSpaceDropped(x: string, env: Env)
    ensures Standalone(Sequence([Space, Text(x)]), env) ==
      Ok("\\mathrm{" + EscapeString(x, env.symbols) + "}")
  {
    assert Render(Space, Empty, env) == Ok(Empty);
    FirstText(x, env);
    Seq2(Space, Text(x), Empty, Empty, env);
    StandaloneSequence([Space, Text(x)], TexState("\\mathrm{" + EscapeString(x, env.symbols) + "}", false, true), env);
  }

  /** A line break is one backslash character, not TeX's `\\`. */
  lemma LinebreakIsOneBackslash(x: string, y: string, env: Env)
    requires PlainChars(x) && env.graphemes(x) <= 1
    requires PlainChars(y) && env.graphemes(y) <= 1
    ensures Standalone(Sequence([Atom(x), Linebreak, Atom(y)]), env) == Ok(x + "\\" + y)
  {
    FirstAtom(x, env);
    var s1 := TexState(x, false, false);
    var s2 := TexState(x + "\\", false, false);
    assert s1.Flush() == s1;
    assert Render(Linebreak, s1, env) == Ok(s2);
    PlainAtom(y, s2, env);
    assert s2.Flush().tex == x + "\\";
    Seq3(Atom(x), Linebreak, Atom(y), Empty, s1, s2, env);
    StandaloneSequence([Atom(x), Linebreak, Atom(y)], TexState(x + "\\" + y, false, false), env);
  }

  /** An unresolved symbol without a span is skipped silently. */
  lemma UnknownSymbolWithoutSpanSkipped(x: string, name: string, y: string, env: Env)
    requires PlainChars(x) && env.graphemes(x) <= 1
    requires PlainChars(y) && env.graphemes(y) <= 1
    requires name !in env.symmie
    ensures Standalone(Sequence([Atom(x), Symbol(name, None), Atom(y)]), env) == Ok(x + y)
  {
    FirstAtom(x, env);
    var s1 := TexState(x, false, false);
    assert Render(Symbol(name, None), s1, env) == Ok(s1);
    PlainAtom(y, s1, env);
    assert s1.Flush().tex == x;
    Seq3(Atom(x), Symbol(name, None), Atom(y), Empty, s1, s1, env);
    StandaloneSequence([Atom(x), Symbol(name, None), Atom(y)], TexState(x + y, false, false), env);
  }

  // ---------------------------------------------------------------------
  // Trimmed and untrimmed bodies
  // ---------------------------------------------------------------------

  /** Plain characters never start with `\left(`, so trimming keeps them. */
  lemma PlainNotWrapped(s: string)
    requires forall k :: 0 <= k < |s| ==> IsVerbatim(s[k])
    ensures Unparen(s) == s
  {
    if s != [] {
      assert IsVerbatim(s[0]);
      assert s[0] != LeftParen[0];
    }
    assert !(LeftParen <= s);
  }

  /** An upright group never starts with `\left(` either. */
  lemma UprightNotWrapped(e: string)
    ensures Unparen("\\mathrm{" + e + "}") == "\\mathrm{" + e + "}"
  {
    var s := "\\mathrm{" + e + "}";
    assert s[1] == 'm';
    assert LeftParen[1] == 'l';
    assert !(LeftParen <= s);
  }

  /** `(`, a plain atom and `)` write `\left(`, the atom and `\right)`. */
  lemma ParenGroup(x: string, st: TexState, env: Env)
    requires PlainChars(x) && env.graphemes(x) <= 1
    requires env.graphemes("(") <= 1 && env.graphemes(")") <= 1
    requires !st.space && !st.support
    ensures RenderAll([Atom("("), Atom(x), Atom(")")], st, env) ==
      Ok(TexState(st.tex + LeftParen + x + RightParen, false, false))
  {
    var s1 := TexState(st.tex + LeftParen, false, false);
    var s2 := TexState(st.tex + LeftParen + x, false, false);
    ParenSteps(x, st, env);
    Seq3(Atom("("), Atom(x), Atom(")"), st, s1, s2, env);
  }

  lemma ParenSteps(x: string, st: TexState, env: Env)
    requires PlainChars(x) && env.graphemes(x) <= 1
    requires env.graphemes("(") <= 1 && env.graphemes(")") <= 1
    requires !st.space && !st.support
    ensures Render(Atom("("), st, env) == Ok(TexState(st.tex + LeftParen, false, false))
    ensures Render(Atom(x), TexState(st.tex + LeftParen, false, false), env) ==
      Ok(TexState(st.tex + LeftParen + x, false, false))
    ensures Render(Atom(")"), TexState(st.tex + LeftParen + x, false, false), env) ==
      Ok(TexState(st.tex + LeftParen + x + RightParen, false, false))
  {
    ParenAtom('(', LeftParen, st, env);
    var s1 := TexState(st.tex + LeftParen, false, false);
    PlainAtom(x, s1, env);
    assert s1.Flush() == s1;
    var s2 := TexState(st.tex + LeftParen + x, false, false);
    ParenAtom(')', RightParen, s2, env);
  }

  /** A parenthesis atom on a flag-free builder appends its `\left` or
      `\right` form. */
  lemma ParenAtom(c: char, e: string, st: TexState, env: Env)
    requires (c == '(' && e == LeftParen) || (c == ')' && e == RightParen)
    requires env.graphemes([c]) <= 1
    requires !st.space && !st.support
    ensures Render(Atom([c]), st, env) == Ok(TexState(st.tex + e, false, false))
  {
    EscapeTable(c, env.symbols);
    assert IsOpening(c) || IsClosing(c);
    assert Escape(c, env.symbols) == e;
    OneCharAtom(c, st, env);
    assert st.Flush() == st;
  }

  /** A fraction leaves out the parentheses around its numerator. */
  lemma FracElidesParens(x: string, d: string, env: Env)
    requires PlainChars(x) && env.graphemes(x) <= 1
    requires PlainChars(d) && env.graphemes(d) <= 1
    requires env.graphemes("(") <= 1 && env.graphemes(")") <= 1
    ensures Standalone(Frac(Sequence([Atom("("), Atom(x), Atom(")")]), Atom(d)), env) ==
      Ok("\\frac{" + x + "}{" + d + "}")
  {
    var w := LeftParen + x + RightParen;
    ParenGroupStandalone(x, env);
    UnparenOfWrapped(x);
    SingleGraphemeAtom(d, env);
    PlainNotWrapped(d);
    StandaloneFrac(Sequence([Atom("("), Atom(x), Atom(")")]), Atom(d), w, d, env);
  }

  /** The parenthesized atom on its own. */
  lemma ParenGroupStandalone(x: string, env: Env)
    requires PlainChars(x) && env.graphemes(x) <= 1
    requires env.graphemes("(") <= 1 && env.graphemes(")") <= 1
    ensures Standalone(Sequence([Atom("("), Atom(x), Atom(")")]), env) == Ok(LeftParen + x + RightParen)
  {
    ParenGroup(x, Empty, env);
    WrappedFromEmpty([Atom("("), Atom(x), Atom(")")], x, env);
  }

  lemma WrappedFromEmpty(cs: seq<Content>, x: string, env: Env)
    requires RenderAll(cs, Empty, env) == Ok(TexState(Empty.tex + LeftParen + x + RightParen, false, false))
    ensures Standalone(Sequence(cs), env) == Ok(LeftParen + x + RightParen)
  {
    assert Empty.tex + LeftParen + x + RightParen == LeftParen + x + RightParen;
    StandaloneSequence(cs, TexState(LeftParen + x + RightParen, false, false), env);
  }

  /** A square root keeps them: its body is not trimmed. */
  lemma SqrtKeepsParens(x: string, env: Env)
    requires PlainChars(x) && env.graphemes(x) <= 1
    requires env.graphemes("(") <= 1 && env.graphemes(")") <= 1
    ensures Standalone(Sqrt(Sequence([Atom("("), Atom(x), Atom(")")])), env) ==
      Ok("\\sqrt{" + LeftParen + x + RightParen + "}")
  {
    var body := Sequence([Atom("("), Atom(x), Atom(")")]);
    var seed := TexState("\\sqrt{", false, false);
    ParenGroup(x, seed, env);
    var r := TexState("\\sqrt{" + LeftParen + x + RightParen, false, false);
    assert Render(body, seed, env) == Ok(r);
    assert r.Flush() == r;
    assert After("\\sqrt{", body, env) == Ok(r.tex);
    SqrtShape(body, Empty, env);
    assert Empty.Flush().tex == "";
    assert "" + r.tex + "}" == "\\sqrt{" + LeftParen + x + RightParen + "}";
  }

  /** A text node followed by a weak space, on its own: the space is still
      pending when the scratch builder's text is taken, so it is lost. */
  lemma TextThenSpace(x: string, env: Env)
    ensures Standalone(Sequence([Text(x), Space]), env) == Ok("\\mathrm{" + EscapeString(x, env.symbols) + "}")
  {
    var t1 := "\\mathrm{" + EscapeString(x, env.symbols) + "}";
    FirstText(x, env);
    var s1 := TexState(t1, false, true);
    SpaceAfter(s1, env);
    Seq2(Text(x), Space, Empty, s1, env);
    StandaloneSequence([Text(x), Space], TexState(t1, true, true), env);
  }

  /** So a fraction drops a trailing weak space of its numerator ... */
  lemma FracDropsTrailingSpace(x: string, d: string, env: Env)
    requires PlainChars(d) && env.graphemes(d) <= 1
    ensures Standalone(Frac(Sequence([Text(x), Space]), Atom(d)), env) ==
      Ok("\\frac{" + ("\\mathrm{" + EscapeString(x, env.symbols) + "}") + "}{" + d + "}")
  {
    TextThenSpace(x, env);
    UprightNotWrapped(EscapeString(x, env.symbols));
    SingleGraphemeAtom(d, env);
    PlainNotWrapped(d);
    StandaloneFrac(Sequence([Text(x), Space]), Atom(d), "\\mathrm{" + EscapeString(x, env.symbols) + "}", d, env);
  }

  /** A standalone fraction of two standalone operands. */
  lemma StandaloneFrac(num: Content, denom: Content, n: string, d: string, env: Env)
    requires Standalone(num, env) == Ok(n) && Standalone(denom, env) == Ok(d)
    ensures Standalone(Frac(num, denom), env) == Ok("\\frac{" + Unparen(n) + "}{" + Unparen(d) + "}")
  {
    var u := Unparen(n);
    var v := Unparen(d);
    FracOk(num, denom, n, d, Empty, env);
    FracDispatch(num, denom, Empty, env);
    StandaloneOf(Frac(num, denom), TexState(Empty.Flush().tex + "\\frac{" + u + "}{" + v + "}", false, false), env);
    EmptyPrefix("\\frac{");
  }

  /** Flushing a fresh builder writes nothing. */
  lemma EmptyPrefix(s: string)
    ensures Empty.Flush().tex + s == s
    ensures Empty.Flush().tex == ""
  {
    assert Empty.Flush().tex == "";
  }

  lemma FracDispatch(num: Content, denom: Content, st: TexState, env: Env)
    ensures Render(Frac(num, denom), st, env) == RenderFrac(num, denom, st, env)
  {
  }

  lemma StandaloneOf(c: Content, s: TexState, env: Env)
    requires Render(c, Empty, env) == Ok(s)
    ensures Standalone(c, env) == Ok(s.tex)
  {
  }

  /** ... while a square root, writing its body in place, shows it before `}`. */
  lemma SqrtKeepsTrailingSpace(x: string, env: Env)
    ensures Standalone(Sqrt(Sequence([Text(x), Space])), env) ==
      Ok("\\sqrt{" + "\\mathrm{" + EscapeString(x, env.symbols) + "}" + ExplicitSpace + "}")
  {
    var body := Sequence([Text(x), Space]);
    var e := EscapeString(x, env.symbols);
    var seed := TexState("\\sqrt{", false, false);
    TextShape(x, seed, env);
    assert seed.tex + "" + "\\mathrm{" + e + "}" == seed.tex + "\\mathrm{" + e + "}";
    var s1 := TexState("\\sqrt{" + "\\mathrm{" + e + "}", false, true);
    SpaceAfter(s1, env);
    Seq2(Text(x), Space, seed, s1, env);
    assert Render(body, seed, env) == Ok(s1.(space := true));
    assert After("\\sqrt{", body, env) == Ok(s1.tex + ExplicitSpace);
    SqrtShape(body, Empty, env);
    EmptyPrefix(s1.tex + ExplicitSpace + "}");
    assert Empty.Flush().tex + (s1.tex + ExplicitSpace) + "}" == Empty.Flush().tex + (s1.tex + ExplicitSpace + "}");
  }

  // ---------------------------------------------------------------------
  // Scripts
  // ---------------------------------------------------------------------

  /** A subscript alone writes `_{..}` and no empty `^{}`. */
  lemma SubscriptOnly(b: string, i: string, env: Env)
    requires PlainChars(b) && env.graphemes(b) <= 1
    requires PlainChars(i) && env.graphemes(i) <= 1
    ensures Standalone(Script(Atom(b), Some(Atom(i)), None), env) == Ok(b + "_{" + i + "}")
  {
    FirstAtom(b, env);
    SingleGraphemeAtom(i, env);
    PlainNotWrapped(i);
    assert SlotText("_{", Some(Atom(i)), env) == Ok("_{" + i + "}");
    assert SlotText("^{", None, env) == Ok("");
    ScriptShape(Atom(b), Some(Atom(i)), None, Empty, env);
    assert TexState(b, false, false).Flush().tex == b;
    assert b + ("_{" + i + "}") + "" == b + "_{" + i + "}";
  }

  /** A superscript alone writes `^{..}` and no empty `_{}`. */
  lemma SuperscriptOnly(b: string, p: string, env: Env)
    requires PlainChars(b) && env.graphemes(b) <= 1
    requires PlainChars(p) && env.graphemes(p) <= 1
    ensures Standalone(Script(Atom(b), None, Some(Atom(p))), env) == Ok(b + "^{" + p + "}")
  {
    FirstAtom(b, env);
    SingleGraphemeAtom(p, env);
    PlainNotWrapped(p);
    assert SlotText("_{", None, env) == Ok("");
    assert SlotText("^{", Some(Atom(p)), env) == Ok("^{" + p + "}");
    ScriptShape(Atom(b), None, Some(Atom(p)), Empty, env);
    assert TexState(b, false, false).Flush().tex == b;
    assert b + "" + ("^{" + p + "}") == b + "^{" + p + "}";
  }
}
