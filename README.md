# Math-to-TeX linearizer

This project models the part of typst's math module that turns a formula's
content tree into one TeX string. The string goes to an external TeX
renderer. It lives in `library/src/math/mod.rs`:

- the `Texifier` output builder: a text buffer plus two flags that turn a
  weak space into an explicit `\ ` only when the position is marked as
  supportive;
- `push_escaped`, the per-character escape table, with its fallback to the
  Unicode math symbol table;
- `texify` for `Content` and for every math node;
- `texify_unparen`, the parenthesis elision for the trimmed slots of
  fractions and scripts;
- `extract`, the accent normalizer, together with the way
  `AccNode::construct` maps its result to errors.

The model is layered:

- `wrappers.dfy` holds `Option`, `Result` and `Outcome`, the last being the
  unit result `SourceResult<()>`.
- `tables.dfy` holds the symbol tables. They are abstract parameters, and
  only their lookup (`find` over the table) is defined.
- `content.dfy` holds the closed node datatype and the error messages.
- `builder.dfy` holds the builder twice. `TexState` is a value with one
  function per operation. The `Texifier` class has the same three fields,
  and every method is proved to move `State()` exactly as its function
  says.
- `accent.dfy` holds `extract` and the accent node's construction.
- `render.dfy` holds `Render`, the conversion as a pure function over
  `TexState`, together with `Unparen`.
- `texify.dfy` holds the conversion as the source runs it: methods that
  append to one shared `Texifier` object. Each is proved to leave the
  builder in the state `Render` computes, or to fail with the error
  `Render` reports.
- `facts.dfy` holds the properties of `Render`:
  - the output only grows;
  - once the buffer holds text, the output does not depend on what precedes it;
  - the shape of every node's output;
  - the error behaviour.
- `scenarios.dfy` holds concrete consequences: weak spaces between
  neighbours, elision of one paren layer, and the fraction and script forms.

## Behaviour of `mod.rs` worth knowing

- **Parenthesis elision is a plain prefix/suffix test**
  (`mod.rs:141-145`). `texify_unparen` strips `\left(` and `\right)`
  whenever the buffer starts with the first and ends with the second, with
  no check that the two belong together. So `\left(a\right)+\left(b\right)`
  becomes `a\right)+\left(b` (`Scenarios.UnparenNotDepthMatched`).
- **Support is a single flag** (`mod.rs:183-195`). Either neighbour of a weak
  space can set it, and `flush` writes `\ ` when the flag is set and a space
  is pending. A supportive node on one side is therefore enough: a space
  between an atom and a literal text shows (`Scenarios.AtomSpaceText`).
- **Literal text is one `\mathrm{…}` group** (`mod.rs:270-279`). The group
  opens once, each character inside it goes through `push_escaped`, and
  the group closes once (`RenderFacts.TextShape`).
- **A linebreak writes one backslash character** (`mod.rs:256-259`). The
  string pushed is the single character `\`
  (`Scenarios.LinebreakIsOneBackslash`).
- **An unknown symbol without a source span writes nothing and succeeds**
  (`mod.rs:261-268`). The span test fails, so the node falls through every
  later test to the final `Ok(())`
  (`Scenarios.UnknownSymbolWithoutSpanSkipped`).
- **Content with no conversion** fails with "not allowed here" when it
  carries a span, and is skipped when it does not (`mod.rs:292-296`,
  `RenderFacts.UnsupportedOutcome`).
- **A trimmed slot drops a pending weak space** (`mod.rs:134-149`). The
  scratch builder is finished without a flush, so a supported trailing space
  inside a fraction slot is lost (`Scenarios.FracDropsTrailingSpace`). The
  same space in an untrimmed body, such as a square root, shows before the
  closing brace (`Scenarios.SqrtKeepsTrailingSpace`).

## Model

| member | source | states |
|---|---|---|
| TexBuilder.Texifier.constructor | library/src/math/mod.rs:162-169 | a new builder has an empty buffer and both flags clear |
| TexBuilder.Texifier.Finish | library/src/math/mod.rs:172-174 | returns the buffer as it stands, without flushing a pending space, and leaves the builder unchanged |
| TexBuilder.Texifier.PushSpace | library/src/math/mod.rs:177-179 | sets the pending-space flag to whether the buffer is non-empty, keeping the buffer and the support flag |
| TexBuilder.Texifier.Support | library/src/math/mod.rs:183-185 | the new state is the old state with the support flag set |
| TexBuilder.Texifier.Flush | library/src/math/mod.rs:188-195 | the new state is `Flush` of the old state |
| TexBuilder.Texifier.PushStr | library/src/math/mod.rs:198-201 | the new state is the old state flushed, with the string appended |
| TexBuilder.Texifier.PushEscaped | library/src/math/mod.rs:205-237 | the new state is the old state flushed, with the character's escape appended |
| TexBuilder.TexState.PushSpace | library/src/math/mod.rs:177-179 | defines the value form of `push_space`: the pending-space flag becomes whether the buffer is non-empty (properties in `WeakSpaceOnEmptyDropped`, `PushSpaceCollapses`) |
| TexBuilder.TexState.Support | library/src/math/mod.rs:183-185 | defines the value form of `support`: only the support flag is set |
| TexBuilder.TexState.Flush | library/src/math/mod.rs:188-195 | defines the value form of `flush` (properties in `FlushEmitsIff`) |
| TexBuilder.TexState.PushStr | library/src/math/mod.rs:198-201 | defines the value form of `push_str`: a flush, then the string appended (properties in `PushStrAppends`, `PushStrJoin`) |
| TexBuilder.TexState.PushEscaped | library/src/math/mod.rs:205-237 | defines the value form of `push_escaped`: a flush, then the character's `Escape` appended |
| TexBuilder.Escape | library/src/math/mod.rs:207-236 | defines the escape table row by row, with the symbol-table fallback (properties in `EscapeTable`, `EscapeDropsOnlyUnknown`, `EscapeNeutralizesSpecials`) |
| TexBuilder.WeakSpaceOnEmptyDropped | library/src/math/mod.rs:177-179 | a space recorded on an empty buffer never shows, even when support is marked before or after it |
| TexBuilder.PushSpaceCollapses | library/src/math/mod.rs:177-179 | two weak spaces in a row act as one |
| TexBuilder.FlushEmitsIff | library/src/math/mod.rs:188-195 | flush appends `\ ` if and only if both flags are set, otherwise appends nothing, and always clears both flags |
| TexBuilder.PushStrAppends | library/src/math/mod.rs:198-201 | the old buffer is a prefix of the new one, the new buffer ends with the pushed text, and at most the explicit space comes between them |
| TexBuilder.PushStrJoin | library/src/math/mod.rs:198-201 | pushing `a` and then `b` equals pushing `a + b` |
| TexBuilder.EscapeTable | library/src/math/mod.rs:207-226 | each row of the escape table: verbatim characters, `\%`-style escapes, auto-sized brackets and braces, the explicit space, and the symbol-table command with its trailing space |
| TexBuilder.EscapeDropsOnlyUnknown | library/src/math/mod.rs:227-235 | a character escapes to nothing if and only if no rule covers it and no symbol-table row has its codepoint |
| TexBuilder.EscapeNeutralizesSpecials | library/src/math/mod.rs:205-237 | if the table's command names are letters only, no escaped character leaves a TeX special character without a preceding backslash |
| Tables.FindFrom | library/src/math/mod.rs:228-230 | the result is the first matching row at or after the start index, or none if no such row exists |
| Tables.FindSymbol | library/src/math/mod.rs:442-445 | the result is a table row that matches and that no earlier row matches; none if and only if no row matches |
| Accent.OperandChar | library/src/math/mod.rs:410-422 | defines the operand step of `extract`: the character of a one-character atom or of a resolved symbol, "unknown symbol" for an unresolved one, and none otherwise |
| Accent.AccentCanonical | library/src/math/mod.rs:424-437 | defines the alias table: each alias and each canonical accent maps to the canonical accent of its row; anything else maps to none (properties in `AccentCanonicalIdempotent`, `AccentAliases`) |
| Accent.Canonical | library/src/math/mod.rs:424-437 | the table step gives a result exactly when the character has a row, and that result is the row's canonical accent |
| Accent.Extract | library/src/math/mod.rs:409-438 | a result requires a formula with exactly one child; a one-character atom, or a symbol the name table resolves, gives its character's canonical accent through `Canonical`, and none for a character outside the alias table; "unknown symbol" comes exactly from an unresolved symbol child; an atom of any other length, and any other kind of child, give none |
| Accent.ConstructAcc | library/src/math/mod.rs:396-405 | builds the accent node exactly when extraction yields an accent, with that canonical accent; otherwise the error carries the argument's span: "not an accent" for none, "unknown symbol" for an unresolved name |
| Accent.AccentCanonicalIdempotent | library/src/math/mod.rs:424-437 | every alias maps to a canonical accent, which maps to itself |
| Accent.AccentAliases | library/src/math/mod.rs:424-437 | the aliases of every accent row, including `` ` ``, `^`, `~` and `.` |
| Accent.AliasBuildsSameNode | library/src/math/mod.rs:396-405 | an accent given by an alias builds the same node as one given by the canonical codepoint |
| Accent.TwoCharsNotAnAccent | library/src/math/mod.rs:411-414 | a two-character atom operand fails with "not an accent" |
| Accent.OutsideTableNotAnAccent | library/src/math/mod.rs:436 | a one-character operand outside the alias table fails with "not an accent" at the argument's span |
| Accent.SymbolAccent | library/src/math/mod.rs:415-437 | a resolved symbol operand builds the same result as an atom of its character: the canonical accent for a table character, "not an accent" otherwise |
| Accent.UnknownSymbolOperand | library/src/math/mod.rs:415-419 | an unresolved symbol operand fails with "unknown symbol" at the argument's span |
| Rendering.Render | library/src/math/mod.rs:249-298 | defines the conversion of every node as a function from builder state to new state or error (properties in `RenderFacts`, and `Texify.TexifyContent` proves the methods agree) |
| Rendering.RenderAll | library/src/math/mod.rs:281-286 | defines a sequence's conversion: children in order, stopping at the first error (properties in `RenderAllConcat`, `FirstErrorStops`) |
| Rendering.RenderText | library/src/math/mod.rs:270-279 | defines literal text: support, `\mathrm{`, each character escaped, `}`, support (shape in `TextShape`) |
| Rendering.EscapeChars | library/src/math/mod.rs:273-275 | defines the loop that escapes a text's characters one by one (shape in `EscapeCharsShape`) |
| Rendering.RenderAtom | library/src/math/mod.rs:321-345 | defines an atom: a `\mathrm{…}` group around its characters when it has several graphemes, the characters alone otherwise (shape in `AtomShape`) |
| Rendering.AtomChars | library/src/math/mod.rs:328-337 | defines an atom's character loop: each escaped, with support marked on both sides of `\|` (property in `BarIsSupportive`) |
| Rendering.RenderBetween | library/src/math/mod.rs:683-690 | defines an opener, an untrimmed body and a closer, as roots, floors and ceilings write them (shape in `BetweenShape`) |
| Rendering.RenderFrac | library/src/math/mod.rs:501-510 | defines a fraction from its two trimmed operands (shape in `FracShape`) |
| Rendering.RenderBinom | library/src/math/mod.rs:548-557 | defines a binomial from its two untrimmed operands (shape in `BinomShape`) |
| Rendering.RenderSlot | library/src/math/mod.rs:612-616 | defines one optional script slot: opener, trimmed slot, `}` (shape in `SlotShape`) |
| Rendering.RenderScript | library/src/math/mod.rs:608-626 | defines a script: base, then subscript slot, then superscript slot (shape in `ScriptShape`) |
| Rendering.Standalone | library/src/math/mod.rs:135-139 | defines the text a node converts to in a fresh scratch builder, finished without a flush |
| Rendering.RenderUnparen | library/src/math/mod.rs:134-149 | defines the trimmed conversion: the scratch text with one paren layer elided, pushed onto the builder (agreement in `Texify.TexifyUnparen`) |
| Rendering.MarkersDisjoint | library/src/math/mod.rs:141-142 | a buffer that both starts with `\left(` and ends with `\right)` has at least 13 characters, so the two markers cannot overlap |
| Rendering.Unparen | library/src/math/mod.rs:141-145 | a wrapped text is the markers around the result, and the result is 13 characters shorter; any other text is returned unchanged |
| Texify.TexifyContent | library/src/math/mod.rs:249-298 | converting any node into the shared builder succeeds with the state `Render` computes, or fails with `Render`'s error |
| Texify.TexifyUnparen | library/src/math/mod.rs:134-149 | the trimmed conversion agrees with `RenderUnparen` |
| Texify.TexifyMath | library/src/math/mod.rs:240-247 | a formula converts its children left to right and stops at the first error, agreeing with `Render` |
| Texify.TexifyAtom | library/src/math/mod.rs:321-345 | an atom's conversion agrees with `Render` |
| Texify.TexifyAcc | library/src/math/mod.rs:440-456 | an accent's conversion agrees with `Render` |
| Texify.TexifyFrac | library/src/math/mod.rs:501-510 | a fraction's conversion agrees with `Render` |
| Texify.TexifyBinom | library/src/math/mod.rs:548-557 | a binomial's conversion agrees with `Render` |
| Texify.TexifyScript | library/src/math/mod.rs:608-626 | a script's conversion agrees with `Render` |
| Texify.TexifyAlignPoint | library/src/math/mod.rs:649-653 | an alignment point's conversion agrees with `Render`, which leaves the state unchanged |
| Texify.TexifySqrt | library/src/math/mod.rs:683-690 | a root's conversion agrees with `Render` |
| Texify.TexifyFloor | library/src/math/mod.rs:718-725 | a floor's conversion agrees with `Render` |
| Texify.TexifyCeil | library/src/math/mod.rs:753-760 | a ceiling's conversion agrees with `Render` |
| Texify.Convert | library/src/math/mod.rs:118-120 | converting a formula into a fresh builder and finishing it yields `Standalone`'s text or its error |
| RenderFacts.RenderExtends | library/src/math/mod.rs:249-298 | a successful conversion only appends to the buffer |
| RenderFacts.RenderAllExtends | library/src/math/mod.rs:281-286 | converting a sequence of children only appends to the buffer |
| RenderFacts.RenderPrepend | library/src/math/mod.rs:249-298 | on a non-empty buffer, the result does not depend on the text already written: prefixing the buffer prefixes the output and keeps the errors |
| RenderFacts.EscapeCharsShape | library/src/math/mod.rs:273-275 | escaping a non-empty string writes the flushed buffer followed by the concatenated escapes of its characters, and clears both flags |
| RenderFacts.TextShape | library/src/math/mod.rs:270-279 | literal text writes `\mathrm{`, the escaped characters and `}`, preceded by `\ ` exactly when a space is pending, and leaves support marked |
| RenderFacts.AtomShape | library/src/math/mod.rs:321-345 | without bars, an atom of several graphemes writes one `\mathrm{…}` group, an atom of one grapheme writes its escaped characters, and an empty atom writes nothing |
| RenderFacts.BarIsSupportive | library/src/math/mod.rs:329-336 | a bar atom marks support on both sides, so a pending space before it shows as `\ ` |
| RenderFacts.BetweenShape | library/src/math/mod.rs:683-690 | a command wrapping an untrimmed body writes the flushed buffer, the opener, the body converted from a clean state and the closer; its errors are the body's |
| RenderFacts.SqrtShape | library/src/math/mod.rs:683-690 | a root writes `\sqrt{`, its body and `}`, and succeeds exactly when its body does |
| RenderFacts.FloorShape | library/src/math/mod.rs:718-725 | a floor writes `\left\lfloor `, its body and `\right\rfloor `, and succeeds exactly when its body does |
| RenderFacts.CeilShape | library/src/math/mod.rs:753-760 | a ceiling writes `\left\lceil `, its body and `\right\rceil `, and succeeds exactly when its body does |
| RenderFacts.AccShape | library/src/math/mod.rs:440-456 | with an accent-class table row, the output is `\name{`, the base and `}`; with none, the accent is dropped and only the base is written |
| RenderFacts.BinomShape | library/src/math/mod.rs:548-557 | a binomial writes `\binom{upper}{lower}` with both operands untrimmed, and succeeds exactly when both do |
| RenderFacts.FracShape | library/src/math/mod.rs:501-510 | a fraction writes `\frac{n}{d}` from the stand-alone conversions of its operands with one paren layer elided; the numerator's error comes first, then the denominator's |
| RenderFacts.SlotShape | library/src/math/mod.rs:612-616 | a present script slot writes its opener, the trimmed stand-alone conversion of the slot and `}`, or fails with that conversion's error |
| RenderFacts.ScriptShape | library/src/math/mod.rs:608-626 | a script writes its untrimmed base, then the subscript slot, then the superscript slot; a base error comes first; with no slots the output is the base alone |
| RenderFacts.AlignPointEmitsNothing | library/src/math/mod.rs:649-653 | an alignment point leaves the state unchanged |
| RenderFacts.SymbolOutcome | library/src/math/mod.rs:261-268 | a resolved symbol writes its escaped codepoint; an unresolved one fails with "unknown symbol" if and only if it has a span, and otherwise writes nothing |
| RenderFacts.UnsupportedOutcome | library/src/math/mod.rs:292-296 | content with no conversion fails with "not allowed here" at its span if and only if it has one, and otherwise leaves the state unchanged |
| RenderFacts.RenderAllConcat | library/src/math/mod.rs:281-286 | converting `xs + ys` is converting `xs`, then `ys` from the resulting state, with the first error kept |
| RenderFacts.FirstErrorStops | library/src/math/mod.rs:242-245 | the first failing child decides the error of the whole sequence; later children are never converted |
| Scenarios.UnparenOfWrapped | library/src/math/mod.rs:141-145 | one pair of parens around any text is removed exactly |
| Scenarios.UnparenNotDepthMatched | library/src/math/mod.rs:141-145 | two separate groups `\left(a\right)+\left(b\right)` are also stripped, since the test is not depth-matched |
| Scenarios.UnparenOneLayer | library/src/math/mod.rs:141-145 | with two nested paren pairs, exactly one layer remains |
| Scenarios.SingleGraphemeAtom | library/src/math/mod.rs:321-345 | an atom of plain characters with one grapheme converts to its own text, e.g. `x` to `x` |
| Scenarios.WordAtom | library/src/math/mod.rs:323-341 | an atom of several graphemes converts to `\mathrm{text}` |
| Scenarios.TextSpaceText | library/src/math/mod.rs:188-195 | a space between two literal texts shows as `\ ` |
| Scenarios.AtomSpaceAtom | library/src/math/mod.rs:188-195 | a space between two plain atoms is dropped |
| Scenarios.AtomSpaceText | library/src/math/mod.rs:188-195 | a space between an atom and a following literal text shows: one supportive neighbour is enough |
| Scenarios.TextSpaceAtom | library/src/math/mod.rs:188-195 | a space between a literal text and a following atom shows |
| Scenarios.LeadingSpaceDropped | library/src/math/mod.rs:177-179 | a space at the start of a formula never shows |
| Scenarios.LinebreakIsOneBackslash | library/src/math/mod.rs:256-259 | a linebreak between two atoms writes a single backslash |
| Scenarios.UnknownSymbolWithoutSpanSkipped | library/src/math/mod.rs:261-268 | an unresolved symbol without a span between two atoms is skipped without error |
| Scenarios.FracElidesParens | library/src/math/mod.rs:501-510 | a numerator of `(`, `x`, `)` appears in the fraction without its paren pair |
| Scenarios.SqrtKeepsParens | library/src/math/mod.rs:683-690 | the same operand under a root keeps its parens, since the body is untrimmed |
| Scenarios.FracDropsTrailingSpace | library/src/math/mod.rs:501-510 | a supported trailing space in a numerator is lost, because the scratch builder is not flushed |
| Scenarios.SqrtKeepsTrailingSpace | library/src/math/mod.rs:683-690 | the same trailing space under a root shows before the closing brace |
| Scenarios.SubscriptOnly | library/src/math/mod.rs:608-626 | a script with only a subscript writes `b_{i}` |
| Scenarios.SuperscriptOnly | library/src/math/mod.rs:608-626 | a script with only a superscript writes `b^{p}` |

## Left out

- Layout and rendering: `layout` hands the finished text to `layout_tex`,
  an external TeX renderer, and falls back to an empty frame on failure.
  `Texify.Convert` models only building and finishing the text.
- The `Show` implementations, style chains and the surrounding element
  machinery. The builder stores its style chain (`mod.rs:157`) and hands it
  to the scratch builder of `texify_unparen` (`mod.rs:136`), but the chain
  never affects the text written, so the model's builder has no style field.
- Argument parsing in `construct` (`Args`, `Vm`, `expect`, `named` and
  `all`) and the `field` accessors. `Accent.ConstructAcc`
  receives the base, the accent operand and its span already parsed.
- Dynamic downcasts (`to::<…>()`, `Texify` lookup through `with`). They
  are replaced by a closed `Content` datatype. Any content without a
  conversion is the single variant `Unsupported`.
- The contents of `unicode_math::SYMBOLS` and of the `symmie` name table.
  Both are parameters in `Tables.Env`, so every property holds for any
  table.
- Grapheme segmentation is an abstract count `env.graphemes`. Only its
  comparison with one is used, as in the source.
- Source spans are carried only by symbols and by unsupported content,
  which are the only places where the conversion raises errors. The other
  nodes cannot fail on their own.
- The matrix, style and layout submodules and the other node kinds outside
  `mod.rs` are not part of this model.
- Texify.TexifyContent: after an error, the builder's state is left
  unspecified, as the source discards it.
- `EcoString` is modelled as a sequence of characters. The fixed 13-byte
  strip in `texify_unparen` equals 13 characters here, because both
  markers are ASCII.
