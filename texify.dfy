/** The conversion itself (`Texify::texify` for `Content` and for every
    node, and `texify_unparen`, mod.rs lines 134-149 and 240-760): methods
    that append to one shared `Texifier`, each proved to leave it in the
    state `Render` describes, or to fail with the error `Render` reports. */
module Texify {
  import opened Wrappers
  import opened Tables
  import opened Nodes
  import opened TexBuilder
  import opened Rendering

  /** A method's outcome and the builder it leaves agree with the
      specification's result: on success the same state, on failure the
      same error. */
  predicate Agrees(r: Outcome<Error>, spec: Result<TexState, Error>, now: TexState) {
    match spec
    case Ok(st) => r == Pass && now == st
    case Err(e) => r == Fail(e)
  }

  /** `texify` for `Content`: the structural leaves are handled here, every
      other node goes to its own conversion. */
  method TexifyContent(c: Content, t: Texifier, env: Env) returns (r: Outcome<Error>)
    modifies t
    ensures Agrees(r, Render(c, old(t.State()), env), t.State())
    decreases c, 2
  {
    match c
    case Space =>
      t.PushSpace();
      r := Pass;
    case Linebreak =>
      t.PushStr("\\");
      r := Pass;
    case Symbol(name, span) =>
      if name in env.symmie {
        t.PushEscaped(env.symmie[name], env.symbols);
        return Pass;
      } else if span.Some? {
        return Fail(Error(span.value, UnknownSymbol));
      }
      // an unresolved symbol without a span falls through every other test
      r := Pass;
    case Text(text) =>
      t.Support();
      t.PushStr("\\mathrm{");
      ghost var s0 := t.State();
      var i := 0;
      while i < |text|
        invariant 0 <= i <= |text|
        invariant EscapeChars(text[i..], t.State(), env.symbols) == EscapeChars(text, s0, env.symbols)
      {
        assert text[i..][1..] == text[i + 1..];
        t.PushEscaped(text[i], env.symbols);
        i := i + 1;
      }
      t.PushStr("}");
      t.Support();
      r := Pass;
    case Sequence(children) =>
      ghost var s0 := t.State();
      var i := 0;
      while i < |children|
        invariant 0 <= i <= |children|
        invariant RenderAll(children[i..], t.State(), env) == RenderAll(children, s0, env)
      {
        assert children[i..][1..] == children[i + 1..];
        :- TexifyContent(children[i], t, env);
        i := i + 1;
      }
      r := Pass;
    case Math(_, _) => r := TexifyMath(c, t, env);
    case Atom(_) => r := TexifyAtom(c, t, env);
    case Acc(_, _) => r := TexifyAcc(c, t, env);
    case Frac(_, _) => r := TexifyFrac(c, t, env);
    case Binom(_, _) => r := TexifyBinom(c, t, env);
    case Script(_, _, _) => r := TexifyScript(c, t, env);
    case AlignPoint(_) => r := TexifyAlignPoint(c, t, env);
    case Sqrt(_) => r := TexifySqrt(c, t, env);
    case Floor(_) => r := TexifyFloor(c, t, env);
    case Ceil(_) => r := TexifyCeil(c, t, env);
    case Unsupported(span) =>
      if span.Some? {
        return Fail(Error(span.value, NotAllowedHere));
      }
      r := Pass;
  }

  /** `texify_unparen`: the node rendered into a scratch builder, trimmed of
      one `\left(` ... `\right)` pair, then pushed. */
  method TexifyUnparen(c: Content, t: Texifier, env: Env) returns (r: Outcome<Error>)
    modifies t
    ensures Agrees(r, RenderUnparen(c, old(t.State()), env), t.State())
    decreases c, 3
  {
    var sub := new Texifier();
    assert Standalone(c, env) == match Render(c, sub.State(), env)
                                 case Ok(st) => Ok(st.tex)
                                 case Err(e) => Err(e);
    :- TexifyContent(c, sub, env);
    var s := sub.Finish();
    t.PushStr(Unparen(s));
    r := Pass;
  }

  method TexifyMath(node: Content, t: Texifier, env: Env) returns (r: Outcome<Error>)
    requires node.Math?
    modifies t
    ensures Agrees(r, Render(node, old(t.State()), env), t.State())
    decreases node, 1
  {
    ghost var s0 := t.State();
    var i := 0;
    while i < |node.children|
      invariant 0 <= i <= |node.children|
      invariant RenderAll(node.children[i..], t.State(), env) == RenderAll(node.children, s0, env)
    {
      assert node.children[i..][1..] == node.children[i + 1..];
      :- TexifyContent(node.children[i], t, env);
      i := i + 1;
    }
    r := Pass;
  }

  method TexifyAtom(node: Content, t: Texifier, env: Env) returns (r: Outcome<Error>)
    requires node.Atom?
    modifies t
    ensures Agrees(r, Render(node, old(t.State()), env), t.State())
  {
    var multi := env.graphemes(node.text) > 1;
    if multi {
      t.PushStr("\\mathrm{");
    }
    ghost var s0 := t.State();
    var i := 0;
    while i < |node.text|
      invariant 0 <= i <= |node.text|
      invariant AtomChars(node.text[i..], t.State(), env.symbols) == AtomChars(node.text, s0, env.symbols)
    {
      assert node.text[i..][1..] == node.text[i + 1..];
      var c := node.text[i];
      var supportive := c == '|';
      if supportive {
        t.Support();
      }
      t.PushEscaped(c, env.symbols);
      if supportive {
        t.Support();
      }
      i := i + 1;
    }
    if multi {
      t.PushStr("}");
    }
    r := Pass;
  }

  method TexifyAcc(node: Content, t: Texifier, env: Env) returns (r: Outcome<Error>)
    requires node.Acc?
    modifies t
    ensures Agrees(r, Render(node, old(t.State()), env), t.State())
    decreases node, 1
  {
    ghost var s0 := t.State();
    var sym := FindSymbol(env.symbols, node.accent, true);
    if sym.Some? {
      PushStrJoin(s0, "\\", sym.value.name);
      PushStrJoin(s0, "\\" + sym.value.name, "{");
      t.PushStr("\\");
      t.PushStr(sym.value.name);
      t.PushStr("{");
      assert t.State() == s0.PushStr("\\" + sym.value.name + "{");
      assert Render(node, s0, env) == RenderBetween("\\" + sym.value.name + "{", node.base, "}", s0, env);
      :- TexifyContent(node.base, t, env);
      t.PushStr("}");
    } else {
      assert Render(node, s0, env) == Render(node.base, s0, env);
      :- TexifyContent(node.base, t, env);
    }
    r := Pass;
  }

  method TexifyFrac(node: Content, t: Texifier, env: Env) returns (r: Outcome<Error>)
    requires node.Frac?
    modifies t
    ensures Agrees(r, Render(node, old(t.State()), env), t.State())
    decreases node, 1
  {
    assert Render(node, t.State(), env) == RenderFrac(node.num, node.denom, t.State(), env);
    t.PushStr("\\frac{");
    :- TexifyUnparen(node.num, t, env);
    t.PushStr("}{");
    :- TexifyUnparen(node.denom, t, env);
    t.PushStr("}");
    r := Pass;
  }

  method TexifyBinom(node: Content, t: Texifier, env: Env) returns (r: Outcome<Error>)
    requires node.Binom?
    modifies t
    ensures Agrees(r, Render(node, old(t.State()), env), t.State())
    decreases node, 1
  {
    assert Render(node, t.State(), env) == RenderBinom(node.upper, node.lower, t.State(), env);
    t.PushStr("\\binom{");
    :- TexifyContent(node.upper, t, env);
    t.PushStr("}{");
    :- TexifyContent(node.lower, t, env);
    t.PushStr("}");
    r := Pass;
  }

  method TexifyScript(node: Content, t: Texifier, env: Env) returns (r: Outcome<Error>)
    requires node.Script?
    modifies t
    ensures Agrees(r, Render(node, old(t.State()), env), t.State())
    decreases node, 1
  {
    assert Render(node, t.State(), env) == RenderScript(node.base, node.sub, node.sup, t.State(), env);
    :- TexifyContent(node.base, t, env);
    ghost var s1 := t.State();
    if node.sub.Some? {
      t.PushStr("_{");
      var o := TexifyUnparen(node.sub.value, t, env);
      if o.Fail? {
        assert RenderSlot("_{", node.sub, s1, env) == Err(o.error);
        return o;
      }
      t.PushStr("}");
    }
    assert RenderSlot("_{", node.sub, s1, env) == Ok(t.State());
    ghost var s2 := t.State();
    if node.sup.Some? {
      t.PushStr("^{");
      var o := TexifyUnparen(node.sup.value, t, env);
      if o.Fail? {
        assert RenderSlot("^{", node.sup, s2, env) == Err(o.error);
        return o;
      }
      t.PushStr("}");
    }
    assert RenderSlot("^{", node.sup, s2, env) == Ok(t.State());
    r := Pass;
  }

  method TexifyAlignPoint(node: Content, t: Texifier, env: Env) returns (r: Outcome<Error>)
    requires node.AlignPoint?
    modifies t
    ensures Agrees(r, Render(node, old(t.State()), env), t.State())
  {
    r := Pass;
  }

  method TexifySqrt(node: Content, t: Texifier, env: Env) returns (r: Outcome<Error>)
    requires node.Sqrt?
    modifies t
    ensures Agrees(r, Render(node, old(t.State()), env), t.State())
    decreases node, 1
  {
    assert Render(node, t.State(), env) == RenderBetween("\\sqrt{", node.body, "}", t.State(), env);
    t.PushStr("\\sqrt{");
    :- TexifyContent(node.body, t, env);
    t.PushStr("}");
    r := Pass;
  }

  method TexifyFloor(node: Content, t: Texifier, env: Env) returns (r: Outcome<Error>)
    requires node.Floor?
    modifies t
    ensures Agrees(r, Render(node, old(t.State()), env), t.State())
    decreases node, 1
  {
    assert Render(node, t.State(), env) == RenderBetween("\\left\\lfloor ", node.body, "\\right\\rfloor ", t.State(), env);
    t.PushStr("\\left\\lfloor ");
    :- TexifyContent(node.body, t, env);
    t.PushStr("\\right\\rfloor ");
    r := Pass;
  }

  method TexifyCeil(node: Content, t: Texifier, env: Env) returns (r: Outcome<Error>)
    requires node.Ceil?
    modifies t
    ensures Agrees(r, Render(node, old(t.State()), env), t.State())
    decreases node, 1
  {
    assert Render(node, t.State(), env) == RenderBetween("\\left\\lceil ", node.body, "\\right\\rceil ", t.State(), env);
    t.PushStr("\\left\\lceil ");
    :- TexifyContent(node.body, t, env);
    t.PushStr("\\right\\rceil ");
    r := Pass;
  }

  /** The conversion of one formula as the layout step runs it: a fresh
      builder, the formula converted into it, and the finished text. */
  method Convert(formula: Content, env: Env) returns (r: Result<string, Error>)
    ensures r == Standalone(formula, env)
  {
    var t := new Texifier();
    var o := TexifyContent(formula, t, env);
    if o.Fail? {
      return Err(o.error);
    }
    var tex := t.Finish();
    r := Ok(tex);
  }
}
