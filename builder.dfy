/** The output builder of the linearizer (`Texifier`, mod.rs lines 152-238):
    a text buffer, a pending weak space and a "supportive position" mark.
    `TexState` is the builder's value and gives each operation as a function;
    the class `Texifier` holds the same three fields and updates them in
    place, each method proved to produce the state its function describes. */
module TexBuilder {
  import opened Wrappers
  import opened Tables

  /** The explicit-space command a visible weak space becomes. */
  const ExplicitSpace := "\\ "

  /** The operators written through unchanged. */
  predicate IsOperator(c: char) {
    c == '*' || c == '+' || c == '-' || c == '?' || c == '!' || c == '=' || c == '<' || c == '>' ||
    c == ':' || c == ',' || c == ';' || c == '|' || c == '/' || c == '@' || c == '.' || c == '"'
  }

  /** Characters written through unchanged: ASCII letters and digits, the
      Greek capital and small letter ranges, and the operators. */
  predicate IsVerbatim(c: char) {
    ('a' <= c <= 'z') || ('A' <= c <= 'Z') || ('0' <= c <= '9') ||
    ('\U{0391}' <= c <= '\U{03A9}') || ('\U{03B1}' <= c <= '\U{03C9}') ||
    IsOperator(c)
  }

  /** TeX's reserved characters, written as `\c `. */
  predicate IsReserved(c: char) {
    c == '%' || c == '&' || c == '$' || c == '#'
  }

  /** The brackets that become auto-sized `\left` and `\right` brackets. */
  predicate IsOpening(c: char) {
    c == '[' || c == '('
  }

  predicate IsClosing(c: char) {
    c == ']' || c == ')'
  }

  /** Characters that the escape table handles by a rule of its own. */
  predicate IsEscapedSpecially(c: char) {
    c == ' ' || IsReserved(c) || c == '{' || c == '}' || IsOpening(c) || IsClosing(c)
  }

  /** The text `push_escaped` writes for one character after flushing. */
  function Escape(c: char, symbols: seq<MathSymbol>): string {
    if c == ' ' then "\\ "
    else if IsReserved(c) then ['\\', c, ' ']
    else if c == '{' then "\\left\\{"
    else if c == '}' then "\\right\\}"
    else if IsOpening(c) then "\\left" + [c]
    else if IsClosing(c) then "\\right" + [c]
    else if IsVerbatim(c) then [c]
    else match FindSymbol(symbols, c, false)
         case Some(sym) => "\\" + sym.name + " "
         case None => ""
  }

  /** The builder's value: the buffer and the two pending flags. */
  datatype TexState = TexState(tex: string, space: bool, support: bool) {

    /** Record a weak space; one recorded on an empty buffer is forgotten. */
    function PushSpace(): TexState {
      this.(space := tex != [])
    }

    /** Mark the current position as one next to which a space may show. */
    function Support(): TexState {
      this.(support := true)
    }

    /** Settle the pending space and clear both flags. */
    function Flush(): TexState {
      TexState(tex + (if space && support then ExplicitSpace else ""), false, false)
    }

    function PushStr(s: string): TexState {
      var f := Flush();
      f.(tex := f.tex + s)
    }

    function PushEscaped(c: char, symbols: seq<MathSymbol>): TexState {
      var f := Flush();
      f.(tex := f.tex + Escape(c, symbols))
    }
  }

  /** A freshly created builder. */
  const Empty := TexState("", false, false)

  class Texifier {
    var tex: string
    var support: bool
    var space: bool

    function State(): TexState
      reads this
    {
      TexState(tex, space, support)
    }

    constructor ()
      ensures State() == Empty
    {
      tex := "";
      support := false;
      space := false;
    }

    method Finish() returns (s: string)
      ensures s == State().tex
    {
      s := tex;
    }

    method PushSpace()
      modifies this
      ensures State() == old(State()).PushSpace()
      ensures tex == old(tex) && support == old(support)
      ensures space <==> old(tex) != []
    {
      space := tex != [];
    }

    method Support()
      modifies this
      ensures State() == old(State()).Support()
      ensures tex == old(tex) && space == old(space) && support
    {
      support := true;
    }

    method Flush()
      modifies this
      ensures State() == old(State()).Flush()
      ensures tex == old(tex) + (if old(space) && old(support) then ExplicitSpace else "")
      ensures !space && !support
    {
      if space && support {
        tex := tex + ExplicitSpace;
      }
      space := false;
      support := false;
    }

    method PushStr(s: string)
      modifies this
      ensures State() == old(State()).PushStr(s)
      ensures old(tex) <= tex && tex[|tex| - |s|..] == s
      ensures !space && !support
    {
      Flush();
      tex := tex + s;
    }

    method PushEscaped(c: char, symbols: seq<MathSymbol>)
      modifies this
      ensures State() == old(State()).PushEscaped(c, symbols)
      ensures !space && !support
    {
      Flush();
      ghost var f := tex;
      if c == ' ' {
        tex := tex + "\\ ";
      } else if IsReserved(c) {
        tex := tex + ['\\'];
        tex := tex + [c];
        tex := tex + [' '];
        assert f + ['\\'] + [c] + [' '] == f + (['\\'] + [c] + [' ']);
      } else if c == '{' {
        tex := tex + "\\left\\{";
      } else if c == '}' {
        tex := tex + "\\right\\}";
      } else if IsOpening(c) {
        tex := tex + "\\left";
        tex := tex + [c];
        assert f + "\\left" + [c] == f + ("\\left" + [c]);
      } else if IsClosing(c) {
        tex := tex + "\\right";
        tex := tex + [c];
        assert f + "\\right" + [c] == f + ("\\right" + [c]);
      } else if IsVerbatim(c) {
        tex := tex + [c];
      } else {
        var sym := FindSymbol(symbols, c, false);
        if sym.Some? {
          tex := tex + ['\\'];
          tex := tex + sym.value.name;
          tex := tex + [' '];
          assert f + ['\\'] + sym.value.name + [' '] == f + (['\\'] + sym.value.name + [' ']);
        }
      }
      assert tex == f + Escape(c, symbols);
    }
  }

  // ---------------------------------------------------------------------
  // Properties of the builder's operations
  // ---------------------------------------------------------------------

  /** A weak space recorded on an empty buffer never shows, even with the
      position marked supportive on both sides. */
  lemma WeakSpaceOnEmptyDropped(st: TexState, s: string)
    requires st.tex == []
    ensures st.PushSpace().Support().PushStr(s) == TexState(s, false, false)
    ensures st.Support().PushSpace().PushStr(s) == TexState(s, false, false)
  {
  }

  /** Two pushes in a row write what one push of the joined text writes:
      the second push finds nothing to flush. */
  lemma PushStrJoin(st: TexState, a: string, b: string)
    ensures st.PushStr(a).PushStr(b) == st.PushStr(a + b)
  {
    assert st.Flush().tex + a + b == st.Flush().tex + (a + b);
  }

  /** Consecutive weak spaces collapse into one. */
  lemma PushSpaceCollapses(st: TexState)
    ensures st.PushSpace().PushSpace() == st.PushSpace()
  {
  }

  /** `flush` writes the explicit space exactly when both flags are set,
      writes nothing otherwise, and always leaves both flags clear. */
  lemma FlushEmitsIff(st: TexState)
    ensures st.tex <= st.Flush().tex
    ensures st.Flush().tex == st.tex + ExplicitSpace <==> st.space && st.support
    ensures st.Flush().tex == st.tex <==> !(st.space && st.support)
    ensures !st.Flush().space && !st.Flush().support
  {
  }

  /** `push_str` only appends: the old buffer is a prefix, the new buffer
      ends with the pushed text, and in between stands at most the flushed
      explicit space. */
  lemma PushStrAppends(st: TexState, s: string)
    ensures st.tex <= st.PushStr(s).tex
    ensures st.PushStr(s).tex == st.tex + s ||
            (st.space && st.support && st.PushStr(s).tex == st.tex + ExplicitSpace + s)
    ensures |st.PushStr(s).tex| >= |s| && st.PushStr(s).tex[|st.PushStr(s).tex| - |s|..] == s
  {
  }

  /** The escape table of `push_escaped`, row by row. */
  lemma EscapeTable(c: char, symbols: seq<MathSymbol>)
    ensures IsVerbatim(c) ==> Escape(c, symbols) == [c]
    ensures IsReserved(c) ==> Escape(c, symbols) == ['\\', c, ' ']
    ensures IsOpening(c) ==> Escape(c, symbols) == "\\left" + [c]
    ensures IsClosing(c) ==> Escape(c, symbols) == "\\right" + [c]
    ensures c == '{' ==> Escape(c, symbols) == "\\left\\{"
    ensures c == '}' ==> Escape(c, symbols) == "\\right\\}"
    ensures c == ' ' ==> Escape(c, symbols) == ExplicitSpace
    ensures !IsVerbatim(c) && !IsEscapedSpecially(c) ==>
      Escape(c, symbols) == match FindSymbol(symbols, c, false)
                            case Some(sym) => "\\" + sym.name + " "
                            case None => ""
  {
  }

  /** A character escapes to nothing exactly when no rule covers it and the
      Unicode math table has no row for its codepoint. */
  lemma EscapeDropsOnlyUnknown(c: char, symbols: seq<MathSymbol>)
    ensures Escape(c, symbols) == [] <==>
      !IsVerbatim(c) && !IsEscapedSpecially(c) &&
      forall j :: 0 <= j < |symbols| ==> symbols[j].codepoint != c
  {
    if !IsVerbatim(c) && !IsEscapedSpecially(c) {
      var r := FindSymbol(symbols, c, false);
      if r.Some? {
        assert Escape(c, symbols) == "\\" + r.value.name + " ";
        var i :| 0 <= i < |symbols| && symbols[i] == r.value;
        assert symbols[i].codepoint == c;
      } else {
        forall j | 0 <= j < |symbols| ensures symbols[j].codepoint != c {
          assert !Matches(symbols[j], c, false);
        }
      }
    }
  }

  /** The characters that have a meaning of their own in TeX markup. */
  predicate IsTexSpecial(c: char) {
    IsReserved(c) || c == '{' || c == '}' || c == '^' || c == '_' || c == '~'
  }

  /** Every TeX special character in `s` is preceded by a backslash. */
  predicate NoBareSpecial(s: string) {
    forall i :: 0 <= i < |s| && IsTexSpecial(s[i]) ==> 0 < i && s[i - 1] == '\\'
  }

  predicate IsCommandName(name: string) {
    forall k :: 0 <= k < |name| ==> ('a' <= name[k] <= 'z') || ('A' <= name[k] <= 'Z')
  }

  /** A named command `\name ` with a letter name has no special at all. */
  lemma CommandNeutral(name: string)
    requires IsCommandName(name)
    ensures NoBareSpecial("\\" + name + " ")
  {
    var e := "\\" + name + " ";
    forall k | 0 <= k < |e| ensures !IsTexSpecial(e[k]) {
      if 0 < k < |e| - 1 {
        assert e[k] == name[k - 1];
      }
    }
  }

  /** A text whose only special is a final brace right after a backslash. */
  lemma BraceCommandNeutral(s: string, brace: char)
    requires forall k :: 0 <= k < |s| ==> !IsTexSpecial(s[k])
    ensures NoBareSpecial(s + ['\\', brace])
  {
    var e := s + ['\\', brace];
    forall k | 0 <= k < |e| && IsTexSpecial(e[k]) ensures 0 < k && e[k - 1] == '\\' {
      assert k == |e| - 1;
    }
  }

  /** When every command name of the table is made of letters, no single
      escaped character leaves a TeX special character unescaped. */
  lemma EscapeNeutralizesSpecials(c: char, symbols: seq<MathSymbol>)
    requires forall j :: 0 <= j < |symbols| ==> IsCommandName(symbols[j].name)
    ensures NoBareSpecial(Escape(c, symbols))
  {
    var e := Escape(c, symbols);
    if c == ' ' {
      assert e == "\\" + [] + " ";
      CommandNeutral([]);
    } else if IsReserved(c) {
      assert e == ['\\', c, ' '];
      assert forall k :: 0 < k < |e| ==> e[k] == c || e[k] == ' ';
    } else if c == '{' {
      assert e == "\\left" + ['\\', '{'];
      BraceCommandNeutral("\\left", '{');
    } else if c == '}' {
      assert e == "\\right" + ['\\', '}'];
      BraceCommandNeutral("\\right", '}');
    } else if IsOpening(c) {
      assert e == "\\left" + [c];
    } else if IsClosing(c) {
      assert e == "\\right" + [c];
    } else if IsVerbatim(c) {
      assert e == [c];
    } else {
      match FindSymbol(symbols, c, false)
      case Some(sym) =>
        var i :| 0 <= i < |symbols| && symbols[i] == sym;
        CommandNeutral(sym.name);
      case None =>
    }
  }
}
