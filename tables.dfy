/** The two foreign lookup tables the linearizer consults, given as data:
    the name-to-codepoint map of the symbol library (`symmie::get`) and the
    ordered list of math symbols of the Unicode math table
    (`unicode_math::SYMBOLS`). Grapheme segmentation is an uninterpreted
    count supplied with them. */
module Tables {
  import opened Wrappers

  /** Only the accent class matters to the linearizer; every other atom
      type of the Unicode math table is `Other`. */
  datatype AtomType = Accent | Other

  /** One row of the Unicode math table. */
  datatype MathSymbol = MathSymbol(codepoint: char, name: string, atomType: AtomType)

  /** The environment of one conversion. */
  datatype Env = Env(
    symmie: map<string, char>,          // symbol name -> codepoint
    symbols: seq<MathSymbol>,           // the Unicode math table, in table order
    graphemes: string -> nat)           // number of extended grapheme clusters

  /** Whether a table row is what a search for `c` looks for; with
      `accentOnly` the row must also be of the accent class. */
  predicate Matches(sym: MathSymbol, c: char, accentOnly: bool) {
    sym.codepoint == c && (accentOnly ==> sym.atomType == Accent)
  }

  /** The index of the first row at or after `from` that matches, as
      `iter().find(..)` scans the table front to back. */
  function FindFrom(symbols: seq<MathSymbol>, c: char, accentOnly: bool, from: nat): (r: Option<nat>)
    requires from <= |symbols|
    ensures r.Some? ==> from <= r.value < |symbols| && Matches(symbols[r.value], c, accentOnly)
    ensures r.Some? ==> forall j :: from <= j < r.value ==> !Matches(symbols[j], c, accentOnly)
    ensures r.None? ==> forall j :: from <= j < |symbols| ==> !Matches(symbols[j], c, accentOnly)
    decreases |symbols| - from
  {
    if from == |symbols| then None
    else if Matches(symbols[from], c, accentOnly) then Some(from)
    else FindFrom(symbols, c, accentOnly, from + 1)
  }

  /** The first row of the table that matches, if any. */
  function FindSymbol(symbols: seq<MathSymbol>, c: char, accentOnly: bool): (r: Option<MathSymbol>)
    ensures r.Some? ==> r.value in symbols && Matches(r.value, c, accentOnly)
    ensures r.Some? ==> exists i :: 0 <= i < |symbols| && symbols[i] == r.value &&
                         forall j :: 0 <= j < i ==> !Matches(symbols[j], c, accentOnly)
    ensures r.None? <==> forall j :: 0 <= j < |symbols| ==> !Matches(symbols[j], c, accentOnly)
  {
    match FindFrom(symbols, c, accentOnly, 0)
    case Some(i) => Some(symbols[i])
    case None => None
  }
}
