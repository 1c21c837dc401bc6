/** Properties of the conversion, stated over its specification
    `Rendering.Render` (and so, through the methods' postconditions, over
    the imperative `texify` methods as well). */
module RenderFacts {
  import opened Wrappers
  import opened Tables
  import opened Nodes
  import opened TexBuilder
  import opened Rendering

  // ---------------------------------------------------------------------
  // The buffer only grows
  // ---------------------------------------------------------------------

  lemma {:induction false} EscapeCharsExtends(s: string, st: TexState, symbols: seq<MathSymbol>)
    ensures st.tex <= EscapeChars(s, st, symbols).tex
    decreases |s|
  {
    if s != [] {
      EscapeCharsExtends(s[1..], st.PushEscaped(s[0], symbols), symbols);
    }
  }

  lemma {:induction false} AtomCharsExtends(s: string, st: TexState, symbols: seq<MathSymbol>)
    ensures st.tex <= AtomChars(s, st, symbols).tex
    decreases |s|
  {
    if s != [] {
      AtomCharsExtends(s[1..], AtomChar(s[0], st, symbols), symbols);
    }
  }

  /** Converting a node never alters what the buffer already holds: the old
      buffer is a prefix of the new one. */
  lemma {:induction false} RenderExtends(c: Content, st: TexState, env: Env)
    ensures Render(c, st, env).Ok? ==> st.tex <= Render(c, st, env).value.tex
    decreases c, 1
  {
    match c
    case Space =>
    case Linebreak =>
    case Symbol(_, _) =>
    case Text(text) =>
      EscapeCharsExtends(text, st.Support().PushStr("\\mathrm{"), env.symbols);
    case Sequence(children) => RenderAllExtends(children, st, env);
    case Math(_, children) => RenderAllExtends(children, st, env);
    case Atom(text) =>
      if env.graphemes(text) > 1 {
        AtomCharsExtends(text, st.PushStr("\\mathrm{"), env.symbols);
      } else {
        AtomCharsExtends(text, st, env.symbols);
      }
    case Acc(base, accent) =>
      match FindSymbol(env.symbols, accent, true) {
        case Some(sym) => BetweenExtends("\\" + sym.name + "{", base, "}", st, env);
        case None => RenderExtends(base, st, env);
      }
    case Frac(num, denom) => FracExtends(num, denom, st, env);
    case Binom(upper, lower) => BinomExtends(upper, lower, st, env);
    case Script(base, sub, sup) => ScriptExtends(base, sub, sup, st, env);
    case AlignPoint(_) =>
    case Sqrt(body) => BetweenExtends("\\sqrt{", body, "}", st, env);
    case Floor(body) => BetweenExtends("\\left\\lfloor ", body, "\\right\\rfloor ", st, env);
    case Ceil(body) => BetweenExtends("\\left\\lceil ", body, "\\right\\rceil ", st, env);
    case Unsupported(_) =>
  }

  lemma {:induction false} BetweenExtends(open: string, body: Content, close: string, st: TexState, env: Env)
    ensures RenderBetween(open, body, close, st, env).Ok? ==>
            st.tex <= RenderBetween(open, body, close, st, env).value.tex
    decreases body, 4
  {
    RenderExtends(body, st.PushStr(open), env);
  }

  lemma UnparenExtends(c: Content, st: TexState, env: Env)
    ensures RenderUnparen(c, st, env).Ok? ==> st.tex <= RenderUnparen(c, st, env).value.tex
  {
    var s := Standalone(c, env);
    if s.Ok? {
      PushStrAppends(st, Unparen(s.value));
    }
  }

  lemma FracExtends(num: Content, denom: Content, st: TexState, env: Env)
    ensures RenderFrac(num, denom, st, env).Ok? ==> st.tex <= RenderFrac(num, denom, st, env).value.tex
  {
    RenderFracShape(num, denom, st, env);
    if RenderFrac(num, denom, st, env).Ok? {
      FlushEmitsIff(st);
      PrefixAppend5(st.tex, st.Flush().tex, "\\frac{", Unparen(Standalone(num, env).value), "}{",
                    Unparen(Standalone(denom, env).value), "}");
    }
  }

  lemma PrefixAppend5(a: string, f: string, p1: string, p2: string, p3: string, p4: string, p5: string)
    requires a <= f
    ensures a <= f + p1 + p2 + p3 + p4 + p5
  {
    var g := f + p1 + p2 + p3 + p4 + p5;
    assert g[..|f|] == f;
  }

  /** A push followed by growth keeps the text before the push a prefix. */
  lemma PushThenGrow(a: TexState, open: string, b: TexState)
    requires a.PushStr(open).tex <= b.tex
    ensures a.tex <= b.tex
  {
    PushStrAppends(a, open);
    PrefixChain(a.tex, a.tex, a.PushStr(open).tex, b.tex);
  }

  /** The prefix order is transitive along a chain of three steps. */
  lemma PrefixChain(a: string, b: string, c: string, d: string)
    requires a <= b && b <= c && c <= d
    ensures a <= d
  {
    assert a == d[..|a|] by {
      assert c[..|b|] == d[..|b|];
      assert b[..|a|] == d[..|a|];
    }
  }

  lemma SlotExtends(open: string, slot: Option<Content>, st: TexState, env: Env)
    ensures RenderSlot(open, slot, st, env).Ok? ==> st.tex <= RenderSlot(open, slot, st, env).value.tex
  {
    if slot.Some? {
      PushStrAppends(st, open);
      UnparenExtends(slot.value, st.PushStr(open), env);
      var r1 := RenderUnparen(slot.value, st.PushStr(open), env);
      if r1.Ok? {
        PushStrAppends(r1.value, "}");
      }
    }
  }

  lemma {:induction false} BinomExtends(upper: Content, lower: Content, st: TexState, env: Env)
    ensures RenderBinom(upper, lower, st, env).Ok? ==> st.tex <= RenderBinom(upper, lower, st, env).value.tex
    decreases Binom(upper, lower), 0
  {
    var s0 := st.PushStr("\\binom{");
    RenderExtends(upper, s0, env);
    var r1 := Render(upper, s0, env);
    if r1.Ok? {
      PushThenGrow(st, "\\binom{", r1.value);
      var s1 := r1.value.PushStr("}{");
      RenderExtends(lower, s1, env);
      var r2 := Render(lower, s1, env);
      if r2.Ok? {
        PushThenGrow(r1.value, "}{", r2.value);
        PushThenGrow(r2.value, "}", r2.value.PushStr("}"));
        PrefixChain(st.tex, r1.value.tex, r2.value.tex, r2.value.PushStr("}").tex);
      }
    }
  }

  lemma {:induction false} ScriptExtends(base: Content, sub: Option<Content>, sup: Option<Content>, st: TexState, env: Env)
    ensures RenderScript(base, sub, sup, st, env).Ok? ==> st.tex <= RenderScript(base, sub, sup, st, env).value.tex
    decreases Script(base, sub, sup), 0
  {
    RenderExtends(base, st, env);
    var r1 := Render(base, st, env);
    if r1.Ok? {
      SlotExtends("_{", sub, r1.value, env);
      var r2 := RenderSlot("_{", sub, r1.value, env);
      if r2.Ok? {
        SlotExtends("^{", sup, r2.value, env);
        var r3 := RenderSlot("^{", sup, r2.value, env);
        if r3.Ok? {
          PrefixChain(st.tex, r1.value.tex, r2.value.tex, r3.value.tex);
        }
      }
    }
  }

  lemma {:induction false} RenderAllExtends(cs: seq<Content>, st: TexState, env: Env)
    ensures RenderAll(cs, st, env).Ok? ==> st.tex <= RenderAll(cs, st, env).value.tex
    decreases cs
  {
    if cs != [] {
      RenderExtends(cs[0], st, env);
      var r1 := Render(cs[0], st, env);
      if r1.Ok? {
        RenderAllExtends(cs[1..], r1.value, env);
      }
    }
  }

  // ---------------------------------------------------------------------
  // Earlier text does not matter, only whether there is any
  // ---------------------------------------------------------------------

  /** The builder with `p` written before everything it holds. */
  function Prepend(st: TexState, p: string): TexState {
    st.(tex := p + st.tex)
  }

  function Shifted(r: Result<TexState, Error>, p: string): Result<TexState, Error> {
    match r
    case Ok(s) => Ok(Prepend(s, p))
    case Err(e) => Err(e)
  }

  lemma PushStrPrepend(st: TexState, p: string, s: string)
    ensures Prepend(st, p).PushStr(s) == Prepend(st.PushStr(s), p)
  {
    assert p + st.tex + (if st.space && st.support then ExplicitSpace else "") + s ==
           p + (st.tex + (if st.space && st.support then ExplicitSpace else "") + s);
  }

  lemma PushEscapedPrepend(st: TexState, p: string, c: char, symbols: seq<MathSymbol>)
    ensures Prepend(st, p).PushEscaped(c, symbols) == Prepend(st.PushEscaped(c, symbols), p)
  {
    PushStrPrepend(st, p, Escape(c, symbols));
  }

  lemma {:induction false} EscapeCharsPrepend(s: string, st: TexState, p: string, symbols: seq<MathSymbol>)
    ensures EscapeChars(s, Prepend(st, p), symbols) == Prepend(EscapeChars(s, st, symbols), p)
    decreases |s|
  {
    if s != [] {
      PushEscapedPrepend(st, p, s[0], symbols);
      EscapeCharsPrepend(s[1..], st.PushEscaped(s[0], symbols), p, symbols);
    }
  }

  lemma {:induction false} AtomCharsPrepend(s: string, st: TexState, p: string, symbols: seq<MathSymbol>)
    ensures AtomChars(s, Prepend(st, p), symbols) == Prepend(AtomChars(s, st, symbols), p)
    decreases |s|
  {
    if s != [] {
      if s[0] == '|' {
        PushEscapedPrepend(st.Support(), p, s[0], symbols);
      } else {
        PushEscapedPrepend(st, p, s[0], symbols);
      }
      AtomCharsPrepend(s[1..], AtomChar(s[0], st, symbols), p, symbols);
    }
  }

  /** Once the buffer holds anything, converting a node appends the same
      text and leaves the same flags whatever came before: writing `p`
      first only shifts the result by `p`. */
  lemma {:induction false} RenderPrepend(c: Content, st: TexState, p: string, env: Env)
    requires st.tex != []
    ensures Render(c, Prepend(st, p), env) == Shifted(Render(c, st, env), p)
    decreases c, 1
  {
    match c
    case Space =>
    case Linebreak => PushStrPrepend(st, p, "\\");
    case Symbol(name, span) =>
      if name in env.symmie {
        PushEscapedPrepend(st, p, env.symmie[name], env.symbols);
      }
    case Text(text) => TextPrepend(text, st, p, env);
    case Sequence(children) => RenderAllPrepend(children, st, p, env);
    case Math(_, children) => RenderAllPrepend(children, st, p, env);
    case Atom(text) => AtomPrepend(text, st, p, env);
    case Acc(base, accent) =>
      match FindSymbol(env.symbols, accent, true) {
        case Some(sym) => BetweenPrepend("\\" + sym.name + "{", base, "}", st, p, env);
        case None => RenderPrepend(base, st, p, env);
      }
    case Frac(num, denom) => FracPrepend(num, denom, st, p, env);
    case Binom(upper, lower) => BinomPrepend(upper, lower, st, p, env);
    case Script(base, sub, sup) => ScriptPrepend(base, sub, sup, st, p, env);
    case AlignPoint(_) =>
    case Sqrt(body) => BetweenPrepend("\\sqrt{", body, "}", st, p, env);
    case Floor(body) => BetweenPrepend("\\left\\lfloor ", body, "\\right\\rfloor ", st, p, env);
    case Ceil(body) => BetweenPrepend("\\left\\lceil ", body, "\\right\\rceil ", st, p, env);
    case Unsupported(_) =>
  }

  lemma TextPrepend(text: string, st: TexState, p: string, env: Env)
    ensures RenderText(text, Prepend(st, p), env) == Prepend(RenderText(text, st, env), p)
  {
    var s0 := st.Support();
    assert Prepend(st, p).Support() == Prepend(s0, p);
    PushStrPrepend(s0, p, "\\mathrm{");
    EscapeCharsPrepend(text, s0.PushStr("\\mathrm{"), p, env.symbols);
    PushStrPrepend(EscapeChars(text, s0.PushStr("\\mathrm{"), env.symbols), p, "}");
  }

  lemma AtomPrepend(text: string, st: TexState, p: string, env: Env)
    ensures RenderAtom(text, Prepend(st, p), env) == Prepend(RenderAtom(text, st, env), p)
  {
    if env.graphemes(text) > 1 {
      PushStrPrepend(st, p, "\\mathrm{");
      AtomCharsPrepend(text, st.PushStr("\\mathrm{"), p, env.symbols);
      PushStrPrepend(AtomChars(text, st.PushStr("\\mathrm{"), env.symbols), p, "}");
    } else {
      AtomCharsPrepend(text, st, p, env.symbols);
    }
  }

  lemma {:induction false} BetweenPrepend(open: string, body: Content, close: string, st: TexState, p: string, env: Env)
    requires st.tex != []
    ensures RenderBetween(open, body, close, Prepend(st, p), env) == Shifted(RenderBetween(open, body, close, st, env), p)
    decreases body, 4
  {
    PushStrPrepend(st, p, open);
    RenderPrepend(body, st.PushStr(open), p, env);
    var r1 := Render(body, st.PushStr(open), env);
    if r1.Ok? {
      PushStrPrepend(r1.value, p, close);
    }
  }

  lemma UnparenPrepend(c: Content, st: TexState, p: string, env: Env)
    ensures RenderUnparen(c, Prepend(st, p), env) == Shifted(RenderUnparen(c, st, env), p)
  {
    var s := Standalone(c, env);
    if s.Ok? {
      PushStrPrepend(st, p, Unparen(s.value));
    }
  }

  lemma FracPrepend(num: Content, denom: Content, st: TexState, p: string, env: Env)
    ensures RenderFrac(num, denom, Prepend(st, p), env) == Shifted(RenderFrac(num, denom, st, env), p)
  {
    var a := st.PushStr("\\frac{");
    PushStrPrepend(st, p, "\\frac{");
    UnparenPrepend(num, a, p, env);
    var r1 := RenderUnparen(num, a, env);
    if r1.Ok? {
      var b := r1.value.PushStr("}{");
      PushStrPrepend(r1.value, p, "}{");
      UnparenPrepend(denom, b, p, env);
      var r2 := RenderUnparen(denom, b, env);
      if r2.Ok? {
        PushStrPrepend(r2.value, p, "}");
        assert RenderFrac(num, denom, st, env) == Ok(r2.value.PushStr("}"));
        assert RenderFrac(num, denom, Prepend(st, p), env) == Ok(Prepend(r2.value.PushStr("}"), p));
      } else {
        assert RenderFrac(num, denom, st, env) == Err(r2.error);
        assert RenderFrac(num, denom, Prepend(st, p), env) == Err(r2.error);
      }
    } else {
      assert RenderFrac(num, denom, st, env) == Err(r1.error);
      assert RenderFrac(num, denom, Prepend(st, p), env) == Err(r1.error);
    }
  }

  lemma {:induction false} BinomPrepend(upper: Content, lower: Content, st: TexState, p: string, env: Env)
    requires st.tex != []
    ensures RenderBinom(upper, lower, Prepend(st, p), env) == Shifted(RenderBinom(upper, lower, st, env), p)
    decreases Binom(upper, lower), 0
  {
    PushStrPrepend(st, p, "\\binom{");
    RenderPrepend(upper, st.PushStr("\\binom{"), p, env);
    var r1 := Render(upper, st.PushStr("\\binom{"), env);
    if r1.Ok? {
      PushStrPrepend(r1.value, p, "}{");
      RenderPrepend(lower, r1.value.PushStr("}{"), p, env);
      var r2 := Render(lower, r1.value.PushStr("}{"), env);
      if r2.Ok? {
        PushStrPrepend(r2.value, p, "}");
        assert RenderBinom(upper, lower, st, env) == Ok(r2.value.PushStr("}"));
        assert RenderBinom(upper, lower, Prepend(st, p), env) == Ok(Prepend(r2.value, p).PushStr("}"));
      } else {
        assert RenderBinom(upper, lower, st, env) == Err(r2.error);
        assert RenderBinom(upper, lower, Prepend(st, p), env) == Err(r2.error);
      }
    } else {
      assert RenderBinom(upper, lower, st, env) == Err(r1.error);
      assert RenderBinom(upper, lower, Prepend(st, p), env) == Err(r1.error);
    }
  }

  lemma SlotPrepend(open: string, slot: Option<Content>, st: TexState, p: string, env: Env)
    ensures RenderSlot(open, slot, Prepend(st, p), env) == Shifted(RenderSlot(open, slot, st, env), p)
  {
    if slot.Some? {
      PushStrPrepend(st, p, open);
      UnparenPrepend(slot.value, st.PushStr(open), p, env);
      var r1 := RenderUnparen(slot.value, st.PushStr(open), env);
      if r1.Ok? {
        PushStrPrepend(r1.value, p, "}");
      }
    }
  }

  lemma {:induction false} ScriptPrepend(base: Content, sub: Option<Content>, sup: Option<Content>, st: TexState, p: string, env: Env)
    requires st.tex != []
    ensures RenderScript(base, sub, sup, Prepend(st, p), env) == Shifted(RenderScript(base, sub, sup, st, env), p)
    decreases Script(base, sub, sup), 0
  {
    RenderPrepend(base, st, p, env);
    var r1 := Render(base, st, env);
    if r1.Ok? {
      SlotsPrepend("_{", "^{", sub, sup, r1.value, p, env);
      assert RenderScript(base, sub, sup, st, env) == Slots("_{", "^{", sub, sup, r1.value, env);
      assert RenderScript(base, sub, sup, Prepend(st, p), env) ==
             Slots("_{", "^{", sub, sup, Prepend(r1.value, p), env);
    }
  }

  /** The two slots of a script, one after the other. */
  function Slots(o1: string, o2: string, sub: Option<Content>, sup: Option<Content>, b: TexState, env: Env): Result<TexState, Error> {
    var s2 :- RenderSlot(o1, sub, b, env);
    RenderSlot(o2, sup, s2, env)
  }

  lemma SlotsPrepend(o1: string, o2: string, sub: Option<Content>, sup: Option<Content>, b: TexState, p: string, env: Env)
    ensures Slots(o1, o2, sub, sup, Prepend(b, p), env) == Shifted(Slots(o1, o2, sub, sup, b, env), p)
  {
    SlotPrepend(o1, sub, b, p, env);
    var r2 := RenderSlot(o1, sub, b, env);
    if r2.Ok? {
      SlotPrepend(o2, sup, r2.value, p, env);
    }
  }

  lemma {:induction false} RenderAllPrepend(cs: seq<Content>, st: TexState, p: string, env: Env)
    requires st.tex != []
    ensures RenderAll(cs, Prepend(st, p), env) == Shifted(RenderAll(cs, st, env), p)
    decreases cs
  {
    if cs != [] {
      RenderPrepend(cs[0], st, p, env);
      RenderExtends(cs[0], st, env);
      var r1 := Render(cs[0], st, env);
      if r1.Ok? {
        RenderAllPrepend(cs[1..], r1.value, p, env);
      }
    }
  }

  // ---------------------------------------------------------------------
  // Characters of text nodes and atoms
  // ---------------------------------------------------------------------

  /** The escapes of a text's characters, joined. */
  function EscapeString(s: string, symbols: seq<MathSymbol>): string
    decreases |s|
  {
    if s == [] then "" else Escape(s[0], symbols) + EscapeString(s[1..], symbols)
  }

  /** Escaping the characters one by one writes their joined escapes after
      one flush, and leaves both flags clear. */
  lemma {:induction false} EscapeCharsShape(s: string, st: TexState, symbols: seq<MathSymbol>)
    requires s != []
    ensures EscapeChars(s, st, symbols) == TexState(st.Flush().tex + EscapeString(s, symbols), false, false)
    decreases |s|
  {
    var f := st.Flush().tex;
    var e := Escape(s[0], symbols);
    EscapeCharsStep(s, st, symbols);
    EscapeStringStep(s, symbols);
    if |s| > 1 {
      EscapeCharsShape(s[1..], TexState(f + e, false, false), symbols);
      JoinAssoc(f, e, EscapeString(s[1..], symbols));
    } else {
      assert s[1..] == [];
    }
  }

  /** The first character of a text is escaped after one flush. */
  lemma EscapeCharsStep(s: string, st: TexState, symbols: seq<MathSymbol>)
    requires s != []
    ensures EscapeChars(s, st, symbols) ==
      EscapeChars(s[1..], TexState(st.Flush().tex + Escape(s[0], symbols), false, false), symbols)
  {
  }

  lemma JoinAssoc(a: string, b: string, c: string)
    ensures a + b + c == a + (b + c)
  {
  }

  lemma EscapeStringStep(s: string, symbols: seq<MathSymbol>)
    requires s != []
    ensures EscapeString(s, symbols) == Escape(s[0], symbols) + EscapeString(s[1..], symbols)
  {
  }

  /** From a state with no pending flag, the joined escapes are appended. */
  lemma EscapeCharsFlagFree(s: string, st: TexState, symbols: seq<MathSymbol>)
    requires !st.space && !st.support
    ensures EscapeChars(s, st, symbols) == TexState(st.tex + EscapeString(s, symbols), false, false)
  {
    if s != [] {
      EscapeCharsShape(s, st, symbols);
      assert st.Flush() == st;
    }
  }

  /** Without a `|`, an atom's characters are escaped exactly like a text's. */
  lemma {:induction false} AtomCharsWithoutBar(s: string, st: TexState, symbols: seq<MathSymbol>)
    requires '|' !in s
    ensures AtomChars(s, st, symbols) == EscapeChars(s, st, symbols)
    decreases |s|
  {
    if s != [] {
      assert s[0] in s;
      assert forall k :: 0 <= k < |s[1..]| ==> s[1..][k] == s[k + 1];
      AtomCharsWithoutBar(s[1..], st.PushEscaped(s[0], symbols), symbols);
    }
  }

  /** A text node is one `\mathrm{..}` group of its escaped characters. The
      position before it is supportive, so a pending weak space shows;
      the position after it is left supportive. */
  lemma TextShape(text: string, st: TexState, env: Env)
    ensures Render(Text(text), st, env) ==
      Ok(TexState(st.tex + (if st.space then ExplicitSpace else "") + "\\mathrm{" +
                  EscapeString(text, env.symbols) + "}", false, true))
  {
    RenderTextShape(text, st, env);
    assert Render(Text(text), st, env) == Ok(RenderText(text, st, env));
  }

  lemma RenderTextShape(text: string, st: TexState, env: Env)
    ensures RenderText(text, st, env) ==
      TexState(st.tex + (if st.space then ExplicitSpace else "") + "\\mathrm{" +
               EscapeString(text, env.symbols) + "}", false, true)
  {
    var pre := st.tex + (if st.space then ExplicitSpace else "") + "\\mathrm{";
    var s0 := st.Support().PushStr("\\mathrm{");
    assert s0 == TexState(pre, false, false);
    EscapeCharsFlagFree(text, s0, env.symbols);
    var s1 := EscapeChars(text, s0, env.symbols);
    assert s1.PushStr("}") == TexState(pre + EscapeString(text, env.symbols) + "}", false, false);
  }

  /** An atom without `|`: its escaped characters, wrapped in `\mathrm{..}`
      when it has more than one grapheme. Neither side is supportive. */
  lemma AtomShape(text: string, st: TexState, env: Env)
    requires '|' !in text
    ensures env.graphemes(text) > 1 ==>
      (Render(Atom(text), st, env) ==
       Ok(TexState(st.Flush().tex + "\\mathrm{" + EscapeString(text, env.symbols) + "}", false, false)))
    ensures env.graphemes(text) <= 1 && text != [] ==>
      (Render(Atom(text), st, env) == Ok(TexState(st.Flush().tex + EscapeString(text, env.symbols), false, false)))
    ensures env.graphemes(text) <= 1 && text == [] ==> Render(Atom(text), st, env) == Ok(st)
  {
    RenderAtomShape(text, st, env);
    assert Render(Atom(text), st, env) == Ok(RenderAtom(text, st, env));
  }

  lemma RenderAtomShape(text: string, st: TexState, env: Env)
    requires '|' !in text
    ensures env.graphemes(text) > 1 ==>
      RenderAtom(text, st, env) == TexState(st.Flush().tex + "\\mathrm{" + EscapeString(text, env.symbols) + "}", false, false)
    ensures env.graphemes(text) <= 1 && text != [] ==>
      RenderAtom(text, st, env) == TexState(st.Flush().tex + EscapeString(text, env.symbols), false, false)
    ensures env.graphemes(text) <= 1 && text == [] ==> RenderAtom(text, st, env) == st
  {
    if env.graphemes(text) > 1 {
      var s0 := st.PushStr("\\mathrm{");
      var pre := st.Flush().tex + "\\mathrm{";
      assert s0 == TexState(pre, false, false);
      AtomCharsWithoutBar(text, s0, env.symbols);
      EscapeCharsFlagFree(text, s0, env.symbols);
      var s1 := EscapeChars(text, s0, env.symbols);
      assert s1.PushStr("}") == TexState(pre + EscapeString(text, env.symbols) + "}", false, false);
    } else {
      AtomCharsWithoutBar(text, st, env.symbols);
      if text != [] {
        EscapeCharsShape(text, st, env.symbols);
      }
    }
  }

  /** `|` is the one supportive atom character: a weak space before it
      shows, and the position after it stays supportive. */
  lemma BarIsSupportive(st: TexState, env: Env)
    requires env.graphemes("|") <= 1
    ensures Render(Atom("|"), st, env) ==
      Ok(TexState(st.tex + (if st.space then ExplicitSpace else "") + "|", false, true))
  {
    assert "|"[1..] == [];
    assert Escape('|', env.symbols) == "|";
  }

  // ---------------------------------------------------------------------
  // Output shapes of the structural nodes
  // ---------------------------------------------------------------------

  /** A body as a command writes it right after its opening directive
      `open`, with its pending space settled by the directive that follows. */
  function After(open: string, body: Content, env: Env): (r: Result<string, Error>)
    ensures r.Ok? ==> open <= r.value
    ensures r.Ok? <==> Render(body, TexState(open, false, false), env).Ok?
  {
    RenderExtends(body, TexState(open, false, false), env);
    match Render(body, TexState(open, false, false), env)
    case Ok(s) => Ok(s.Flush().tex)
    case Err(e) => Err(e)
  }

  /** An opening directive, the untrimmed body, a closing directive. */
  lemma BetweenShape(open: string, body: Content, close: string, st: TexState, env: Env)
    requires open != []
    ensures RenderBetween(open, body, close, st, env).Ok? <==> After(open, body, env).Ok?
    ensures RenderBetween(open, body, close, st, env).Ok? ==>
      RenderBetween(open, body, close, st, env).value ==
      TexState(st.Flush().tex + After(open, body, env).value + close, false, false)
    ensures RenderBetween(open, body, close, st, env).Err? ==>
      Render(body, TexState(open, false, false), env).Err? &&
      RenderBetween(open, body, close, st, env).error == Render(body, TexState(open, false, false), env).error
  {
    var f := st.Flush().tex;
    var seed := TexState(open, false, false);
    assert st.PushStr(open) == Prepend(seed, f);
    RenderPrepend(body, seed, f, env);
    var r := Render(body, seed, env);
    if r.Ok? {
      PushStrPrepend(r.value, f, close);
      assert f + r.value.Flush().tex + close == f + (r.value.Flush().tex + close);
    }
  }

  lemma SqrtShape(body: Content, st: TexState, env: Env)
    ensures Render(Sqrt(body), st, env).Ok? <==> After("\\sqrt{", body, env).Ok?
    ensures Render(Sqrt(body), st, env).Ok? ==>
      (Render(Sqrt(body), st, env).value ==
       TexState(st.Flush().tex + After("\\sqrt{", body, env).value + "}", false, false))
  {
    BetweenShape("\\sqrt{", body, "}", st, env);
  }

  lemma FloorShape(body: Content, st: TexState, env: Env)
    ensures Render(Floor(body), st, env).Ok? <==> After("\\left\\lfloor ", body, env).Ok?
    ensures Render(Floor(body), st, env).Ok? ==>
      (Render(Floor(body), st, env).value ==
       TexState(st.Flush().tex + After("\\left\\lfloor ", body, env).value + "\\right\\rfloor ", false, false))
  {
    BetweenShape("\\left\\lfloor ", body, "\\right\\rfloor ", st, env);
  }

  lemma CeilShape(body: Content, st: TexState, env: Env)
    ensures Render(Ceil(body), st, env).Ok? <==> After("\\left\\lceil ", body, env).Ok?
    ensures Render(Ceil(body), st, env).Ok? ==>
      (Render(Ceil(body), st, env).value ==
       TexState(st.Flush().tex + After("\\left\\lceil ", body, env).value + "\\right\\rceil ", false, false))
  {
    BetweenShape("\\left\\lceil ", body, "\\right\\rceil ", st, env);
  }

  /** An accent with an accent-class row in the Unicode math table wraps its
      base in that command; without one, the base is written alone. */
  lemma AccShape(base: Content, accent: char, st: TexState, env: Env)
    ensures FindSymbol(env.symbols, accent, true).None? ==>
      Render(Acc(base, accent), st, env) == Render(base, st, env)
    ensures FindSymbol(env.symbols, accent, true).Some? ==>
      var open := "\\" + FindSymbol(env.symbols, accent, true).value.name + "{";
      (Render(Acc(base, accent), st, env).Ok? <==> After(open, base, env).Ok?) &&
      (Render(Acc(base, accent), st, env).Ok? ==>
         (Render(Acc(base, accent), st, env).value ==
          TexState(st.Flush().tex + After(open, base, env).value + "}", false, false)))
  {
    match FindSymbol(env.symbols, accent, true) {
      case Some(sym) => BetweenShape("\\" + sym.name + "{", base, "}", st, env);
      case None =>
    }
  }

  /** A binomial: both operands untrimmed, each as written right after its
      directive. */
  lemma BinomShape(upper: Content, lower: Content, st: TexState, env: Env)
    ensures Render(Binom(upper, lower), st, env).Ok? <==>
      After("\\binom{", upper, env).Ok? && After("}{", lower, env).Ok?
    ensures Render(Binom(upper, lower), st, env).Ok? ==>
      (Render(Binom(upper, lower), st, env).value ==
       TexState(st.Flush().tex + After("\\binom{", upper, env).value + After("}{", lower, env).value + "}", false, false))
  {
    RenderBinomShape(upper, lower, st, env);
    assert Render(Binom(upper, lower), st, env) == RenderBinom(upper, lower, st, env);
  }

  lemma RenderBinomShape(upper: Content, lower: Content, st: TexState, env: Env)
    ensures RenderBinom(upper, lower, st, env).Ok? <==>
      After("\\binom{", upper, env).Ok? && After("}{", lower, env).Ok?
    ensures RenderBinom(upper, lower, st, env).Ok? ==>
      (RenderBinom(upper, lower, st, env).value ==
       TexState(st.Flush().tex + After("\\binom{", upper, env).value + After("}{", lower, env).value + "}", false, false))
  {
    var f := st.Flush().tex;
    assert st.PushStr("\\binom{") == TexState(f + "\\binom{", false, false);
    AfterPrefix("\\binom{", upper, f, env);
    if After("\\binom{", upper, env).Ok? {
      var a := After("\\binom{", upper, env).value;
      var s1 := Render(upper, TexState(f + "\\binom{", false, false), env).value;
      assert s1.PushStr("}{") == TexState(f + a + "}{", false, false);
      AfterPrefix("}{", lower, f + a, env);
      if After("}{", lower, env).Ok? {
        var b := After("}{", lower, env).value;
        var s2 := Render(lower, TexState(f + a + "}{", false, false), env).value;
        assert s2.PushStr("}") == TexState(f + a + b + "}", false, false);
      }
    }
  }

  /** An untrimmed body converted after `p + open` writes `p` followed by
      what it writes after `open` alone. */
  lemma AfterPrefix(open: string, body: Content, p: string, env: Env)
    requires open != []
    ensures Render(body, TexState(p + open, false, false), env).Ok? <==> After(open, body, env).Ok?
    ensures After(open, body, env).Ok? ==>
      Render(body, TexState(p + open, false, false), env).value.Flush().tex == p + After(open, body, env).value
  {
    var seed := TexState(open, false, false);
    assert Prepend(seed, p) == TexState(p + open, false, false);
    RenderPrepend(body, seed, p, env);
    var r := Render(body, seed, env);
    if r.Ok? {
      var t := r.value.tex;
      var x := if r.value.space && r.value.support then ExplicitSpace else "";
      assert p + t + x == p + (t + x);
    }
  }

  /** A fraction: both operands trimmed, each rendered on its own into a
      fresh builder. */
  lemma FracShape(num: Content, denom: Content, st: TexState, env: Env)
    ensures Render(Frac(num, denom), st, env).Ok? <==> Standalone(num, env).Ok? && Standalone(denom, env).Ok?
    ensures Render(Frac(num, denom), st, env).Ok? ==>
      (Render(Frac(num, denom), st, env).value ==
       TexState(st.Flush().tex + "\\frac{" + Unparen(Standalone(num, env).value) + "}{" +
                Unparen(Standalone(denom, env).value) + "}", false, false))
    ensures Standalone(num, env).Err? ==> Render(Frac(num, denom), st, env) == Err(Standalone(num, env).error)
    ensures Standalone(num, env).Ok? && Standalone(denom, env).Err? ==>
      Render(Frac(num, denom), st, env) == Err(Standalone(denom, env).error)
  {
    RenderFracShape(num, denom, st, env);
    assert Render(Frac(num, denom), st, env) == RenderFrac(num, denom, st, env);
  }

  lemma RenderFracShape(num: Content, denom: Content, st: TexState, env: Env)
    ensures RenderFrac(num, denom, st, env).Ok? ==> Standalone(num, env).Ok? && Standalone(denom, env).Ok?
    ensures Standalone(num, env).Ok? && Standalone(denom, env).Ok? ==>
      RenderFrac(num, denom, st, env) ==
      Ok(TexState(st.Flush().tex + "\\frac{" + Unparen(Standalone(num, env).value) + "}{" +
                  Unparen(Standalone(denom, env).value) + "}", false, false))
    ensures Standalone(num, env).Err? ==> RenderFrac(num, denom, st, env) == Err(Standalone(num, env).error)
    ensures Standalone(num, env).Ok? && Standalone(denom, env).Err? ==>
      RenderFrac(num, denom, st, env) == Err(Standalone(denom, env).error)
  {
    var rn := Standalone(num, env);
    var rd := Standalone(denom, env);
    if rn.Ok? && rd.Ok? {
      FracOk(num, denom, rn.value, rd.value, st, env);
    } else {
      FracErr(num, denom, st, env);
    }
  }

  lemma FracOk(num: Content, denom: Content, n: string, d: string, st: TexState, env: Env)
    requires Standalone(num, env) == Ok(n) && Standalone(denom, env) == Ok(d)
    ensures RenderFrac(num, denom, st, env) ==
      Ok(TexState(st.Flush().tex + "\\frac{" + Unparen(n) + "}{" + Unparen(d) + "}", false, false))
  {
    var f := st.Flush().tex;
    var s0 := TexState(f + "\\frac{", false, false);
    FlagFreePush(st.Flush(), "\\frac{");
    assert st.PushStr("\\frac{") == s0;
    UnparenOk(num, n, s0, env);
    var s1 := TexState(s0.tex + Unparen(n) + "}{", false, false);
    FlagFreePush(TexState(s0.tex + Unparen(n), false, false), "}{");
    UnparenOk(denom, d, s1, env);
    var s2 := TexState(s1.tex + Unparen(d), false, false);
    FlagFreePush(s2, "}");
    assert RenderFrac(num, denom, st, env) == Ok(s2.PushStr("}"));
  }

  /** With no flag set, a push appends its text and nothing else. */
  lemma FlagFreePush(s: TexState, x: string)
    requires !s.space && !s.support
    ensures s.PushStr(x) == TexState(s.tex + x, false, false)
  {
  }

  /** A trimmed operand pushed onto a flag-free state appends its text. */
  lemma UnparenOk(c: Content, x: string, s: TexState, env: Env)
    requires Standalone(c, env) == Ok(x) && !s.space && !s.support
    ensures RenderUnparen(c, s, env) == Ok(TexState(s.tex + Unparen(x), false, false))
  {
    FlagFreePush(s, Unparen(x));
  }

  lemma FracErr(num: Content, denom: Content, st: TexState, env: Env)
    ensures Standalone(num, env).Err? ==> RenderFrac(num, denom, st, env) == Err(Standalone(num, env).error)
    ensures Standalone(num, env).Ok? && Standalone(denom, env).Err? ==>
      RenderFrac(num, denom, st, env) == Err(Standalone(denom, env).error)
  {
    var s0 := st.PushStr("\\frac{");
    var rn := Standalone(num, env);
    if rn.Ok? {
      var s1 := s0.PushStr(Unparen(rn.value));
      assert RenderUnparen(num, s0, env) == Ok(s1);
      var rd := Standalone(denom, env);
      if rd.Err? {
        assert RenderUnparen(denom, s1.PushStr("}{"), env) == Err(rd.error);
      }
    } else {
      assert RenderUnparen(num, s0, env) == Err(rn.error);
    }
  }

  /** The text one script slot writes: `open`, the trimmed script, `}`. */
  function SlotText(open: string, slot: Option<Content>, env: Env): Result<string, Error> {
    match slot
    case None => Ok("")
    case Some(x) =>
      var s :- Standalone(x, env);
      Ok(open + Unparen(s) + "}")
  }

  lemma SlotShape(open: string, slot: Option<Content>, st: TexState, env: Env)
    requires slot.Some?
    ensures RenderSlot(open, slot, st, env).Ok? <==> SlotText(open, slot, env).Ok?
    ensures RenderSlot(open, slot, st, env).Ok? ==>
      RenderSlot(open, slot, st, env).value == TexState(st.Flush().tex + SlotText(open, slot, env).value, false, false)
    ensures RenderSlot(open, slot, st, env).Err? ==> RenderSlot(open, slot, st, env).error == SlotText(open, slot, env).error
  {
  }

  /** A script: the base untrimmed, then `_{..}` only when there is a
      subscript and `^{..}` only when there is a superscript, both trimmed. */
  lemma ScriptShape(base: Content, sub: Option<Content>, sup: Option<Content>, st: TexState, env: Env)
    ensures Render(base, st, env).Err? ==> Render(Script(base, sub, sup), st, env) == Err(Render(base, st, env).error)
    ensures sub.None? && sup.None? ==> Render(Script(base, sub, sup), st, env) == Render(base, st, env)
    ensures Render(Script(base, sub, sup), st, env).Ok? <==>
      Render(base, st, env).Ok? && SlotText("_{", sub, env).Ok? && SlotText("^{", sup, env).Ok?
    ensures Render(Script(base, sub, sup), st, env).Ok? && (sub.Some? || sup.Some?) ==>
      Render(Script(base, sub, sup), st, env).value ==
      TexState(Render(base, st, env).value.Flush().tex + SlotText("_{", sub, env).value +
               SlotText("^{", sup, env).value, false, false)
  {
    assert Render(Script(base, sub, sup), st, env) == RenderScript(base, sub, sup, st, env);
    var rb := Render(base, st, env);
    if rb.Ok? {
      ScriptSlotsShape("_{", "^{", sub, sup, rb.value, env);
    }
  }

  /** The two slots of a script, after its base has been written. */
  lemma ScriptSlotsShape(o1: string, o2: string, sub: Option<Content>, sup: Option<Content>, b: TexState, env: Env)
    ensures RenderSlot(o1, sub, b, env).Ok? <==> SlotText(o1, sub, env).Ok?
    ensures RenderSlot(o1, sub, b, env).Ok? ==>
      (RenderSlot(o2, sup, RenderSlot(o1, sub, b, env).value, env).Ok? <==> SlotText(o2, sup, env).Ok?)
    ensures sub.None? && sup.None? ==> RenderSlot(o1, sub, b, env) == Ok(b) && RenderSlot(o2, sup, b, env) == Ok(b)
    ensures SlotText(o1, sub, env).Ok? && SlotText(o2, sup, env).Ok? && (sub.Some? || sup.Some?) ==>
      RenderSlot(o1, sub, b, env).Ok? &&
      RenderSlot(o2, sup, RenderSlot(o1, sub, b, env).value, env) ==
      Ok(TexState(b.Flush().tex + SlotText(o1, sub, env).value + SlotText(o2, sup, env).value, false, false))
  {
    if sub.Some? {
      SlotShape(o1, sub, b, env);
      var r2 := RenderSlot(o1, sub, b, env);
      if r2.Ok? {
        var s2 := r2.value;
        assert s2.Flush() == s2;
        if sup.Some? {
          SecondSlot(o2, sup, s2, env);
        } else {
          NoSlot(o2, sup, s2, env);
          assert s2.tex + SlotText(o2, sup, env).value == s2.tex;
        }
      }
    } else {
      NoSlot(o1, sub, b, env);
      if sup.Some? {
        SlotShape(o2, sup, b, env);
        if SlotText(o2, sup, env).Ok? {
          assert b.Flush().tex + SlotText(o1, sub, env).value == b.Flush().tex;
        }
      } else {
        NoSlot(o2, sup, b, env);
      }
    }
  }

  /** An absent slot writes nothing. */
  lemma NoSlot(open: string, slot: Option<Content>, st: TexState, env: Env)
    requires slot.None?
    ensures RenderSlot(open, slot, st, env) == Ok(st)
    ensures SlotText(open, slot, env) == Ok("")
  {
  }

  /** A present slot written after a flag-free state appends its text. */
  lemma SecondSlot(open: string, slot: Option<Content>, s: TexState, env: Env)
    requires slot.Some? && s.Flush() == s
    ensures RenderSlot(open, slot, s, env).Ok? <==> SlotText(open, slot, env).Ok?
    ensures RenderSlot(open, slot, s, env).Ok? ==>
      RenderSlot(open, slot, s, env).value == TexState(s.tex + SlotText(open, slot, env).value, false, false)
  {
    SlotShape(open, slot, s, env);
  }

  /** An alignment point writes nothing and changes nothing. */
  lemma AlignPointEmitsNothing(index: NonZero, st: TexState, env: Env)
    ensures Render(AlignPoint(index), st, env) == Ok(st)
  {
  }

  /** A resolved symbol is one escaped character; an unresolved one is an
      error only when it has a span, and otherwise writes nothing. */
  lemma SymbolOutcome(name: string, span: Option<Span>, st: TexState, env: Env)
    ensures name in env.symmie ==>
      Render(Symbol(name, span), st, env) == Ok(st.PushEscaped(env.symmie[name], env.symbols))
    ensures name !in env.symmie && span.Some? ==>
      Render(Symbol(name, span), st, env) == Err(Error(span.value, UnknownSymbol))
    ensures name !in env.symmie && span.None? ==> Render(Symbol(name, span), st, env) == Ok(st)
    ensures Render(Symbol(name, span), st, env).Err? <==> name !in env.symmie && span.Some?
  {
  }

  /** Content with no conversion of its own fails with "not allowed here"
      when it has a span, and is skipped otherwise. */
  lemma UnsupportedOutcome(span: Option<Span>, st: TexState, env: Env)
    ensures Render(Unsupported(span), st, env).Err? <==> span.Some?
    ensures Render(Unsupported(span), st, env).Err? ==>
      Render(Unsupported(span), st, env).error == Error(span.value, NotAllowedHere)
    ensures Render(Unsupported(span), st, env).Ok? ==> Render(Unsupported(span), st, env).value == st
  {
  }

  // ---------------------------------------------------------------------
  // Sequences: concatenation and the first error
  // ---------------------------------------------------------------------

  /** Converting `xs + ys` converts `xs`, then `ys` from where `xs` ended;
      an error in `xs` is the error of the whole. */
  lemma {:induction false} RenderAllConcat(xs: seq<Content>, ys: seq<Content>, st: TexState, env: Env)
    ensures RenderAll(xs + ys, st, env) ==
      match RenderAll(xs, st, env)
      case Ok(s) => RenderAll(ys, s, env)
      case Err(e) => Err(e)
    decreases xs
  {
    if xs == [] {
      assert xs + ys == ys;
    } else {
      assert (xs + ys)[0] == xs[0];
      assert (xs + ys)[1..] == xs[1..] + ys;
      var r1 := Render(xs[0], st, env);
      if r1.Ok? {
        RenderAllConcat(xs[1..], ys, r1.value, env);
      }
    }
  }

  /** The first child that fails decides the outcome: the siblings after it
      are never converted, whatever they are. */
  lemma FirstErrorStops(xs: seq<Content>, bad: Content, ys: seq<Content>, st: TexState, env: Env)
    requires RenderAll(xs, st, env).Ok?
    requires Render(bad, RenderAll(xs, st, env).value, env).Err?
    ensures RenderAll(xs + [bad] + ys, st, env) == Err(Render(bad, RenderAll(xs, st, env).value, env).error)
  {
    RenderAllConcat(xs, [bad] + ys, st, env);
    assert xs + [bad] + ys == xs + ([bad] + ys);
    assert ([bad] + ys)[0] == bad;
  }
}
