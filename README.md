# Token stream patcher

A Dafny model of Parsoid's token stream patcher (`lib/ext.core.TokenStreamPatcher.js`).
This stage sits directly after the wikitext tokenizer. It sees the tokens one at a time and
re-derives context the context-free tokenizer does not track:

- whether the next token starts a line (`sol`), with a source cursor (`srcOffset`);
- whether it is inside a nowiki region (`inNowiki`);
- how many wiki-syntax tables are open (`wikiTableNesting`), at top level only (`atTopLevel`).

With that context it repairs the stream. Text `{|…` at the start of a line is reparsed as a
table start. A stray wiki `td`/`th`/`tr` start tag or `</table>` end tag, with no table open,
is turned back into the source text it came from.

Files:

- `tokens.dfy` (module `Tokens`): the token kinds (text, comment, start/end/self-closing tags,
  newline and end-of-input markers), tag data (name, attributes, source range `tsr`, the
  `autoInsertedStart`/`autoInsertedEnd` flags, HTML-vs-wiki syntax), and the JavaScript string
  operations the patcher uses (`substring`, `/^\{\|/`, `/^\s*$/`).
- `patcher.dfy` (module `TokenStreamPatcher`): each handler as a step function on a
  `PatcherState` value, `_convertTokenToString` as `ConvertTokenToString`, and the class
  `Patcher`. The class holds the five fields and implements `reset`, `resetState`,
  `onNewline`, `onEnd`, `clearSOL` and `onAny` as methods that update them in place. Every
  method keeps the class invariant `wikiTableNesting >= 0`. `Reset`, `ClearSOL`, `OnNewline`,
  `OnEnd` and `OnAny` are proved to leave the state and output of their step functions;
  `ResetState` sets `atTopLevel` and changes nothing else.
- `properties.dfy` (module `PatcherProperties`): what the handlers promise for one token, and
  what follows for a whole stream. `Run` delivers a stream the way the pipeline does:
  newline markers to `onNewline`, end markers to `onEnd`, everything else to `onAny`.

The page source is a `string` parameter. The tokenizer call on a `{|` fragment, together with
the shift of the resulting source ranges by the cursor, is a function parameter
`reparse: (string, Option<int>) -> seq<Token>` that the model leaves uninterpreted.

Three points of the code that are easy to misread:

- The nowiki flag gates only the text branch (line 103): both the `{|` reparse and the
  white-space cursor advance. Inside nowiki, white space at start of line clears `sol`
  instead of keeping it. The start-tag and end-tag branches (lines 139 and 154) do not look
  at the flag, so inside nowiki a stray wiki `td` tag is still converted
  (`NowikiGatesOnlyText`).
- Text that arrives when `sol` is already false, or inside nowiki, still runs `clearSOL`
  (lines 117-118).
- Besides `onNewline`, `reset` (and so `onEnd`) also sets `sol`.

## Model

| member | source | states |
|---|---|---|
| TokenStreamPatcher.AfterReset | lib/ext.core.TokenStreamPatcher.js:45-50 | reset keeps `atTopLevel` and leaves nesting at 0 |
| TokenStreamPatcher.AfterClearSol | lib/ext.core.TokenStreamPatcher.js:63-67 | clearSOL drops start-of-line and the cursor and changes no other field |
| TokenStreamPatcher.ConvertTokenToString | lib/ext.core.TokenStreamPatcher.js:69-92 | the result is either text or the token itself; text taken from a non-empty range is no longer than the page source |
| Tokens.JsSubstring | lib/ext.core.TokenStreamPatcher.js:74 | JavaScript `substring`: an in-bounds ordered pair of offsets gives exactly that slice, a reversed pair the swapped slice, and the result is never longer than the string |
| TokenStreamPatcher.NewlineStep | lib/ext.core.TokenStreamPatcher.js:52-56 | onNewline returns `[token]`, sets `sol`, cursor = `tsr[1]` or null; nesting, nowiki and `atTopLevel` unchanged |
| TokenStreamPatcher.EndStep | lib/ext.core.TokenStreamPatcher.js:58-61 | onEnd returns `[token]` and leaves `sol` on, nowiki off, cursor 0, nesting 0, `atTopLevel` kept |
| TokenStreamPatcher.AnyStep | lib/ext.core.TokenStreamPatcher.js:94-170 | onAny never changes `atTopLevel`, keeps nesting non-negative, lowers nesting only by one and only from a positive count, and changes nesting only at top level |
| TokenStreamPatcher.Patcher.constructor | lib/ext.core.TokenStreamPatcher.js:23-35 | a new patcher is in the reset state, with `atTopLevel` still unset (false) |
| TokenStreamPatcher.Patcher.ResetState | lib/ext.core.TokenStreamPatcher.js:41-43 | `atTopLevel` becomes `opts && opts.toplevel`; a missing option counts as false; no other field changes |
| TokenStreamPatcher.Patcher.Reset | lib/ext.core.TokenStreamPatcher.js:45-50 | nowiki off, nesting 0, cursor 0, `sol` on, `atTopLevel` kept, invariant established |
| TokenStreamPatcher.Patcher.OnNewline | lib/ext.core.TokenStreamPatcher.js:52-56 | returns `[token]`, sets `sol`, takes the cursor from the range end or null, keeps nesting and nowiki |
| TokenStreamPatcher.Patcher.OnEnd | lib/ext.core.TokenStreamPatcher.js:58-61 | returns `[token]` and leaves the reset state, `atTopLevel` kept |
| TokenStreamPatcher.Patcher.ClearSOL | lib/ext.core.TokenStreamPatcher.js:63-67 | cursor null, `sol` off, other fields unchanged |
| TokenStreamPatcher.Patcher.OnAny | lib/ext.core.TokenStreamPatcher.js:94-170 | the in-place handler leaves exactly the state and output of `AnyStep` and keeps nesting non-negative |
| PatcherProperties.EndRestoresInitialState | lib/ext.core.TokenStreamPatcher.js:45-61 | onEnd returns `[token]`, restores the initial state but for `atTopLevel`, and a second end marker changes nothing |
| PatcherProperties.ConvertTakesSourceSlice | lib/ext.core.TokenStreamPatcher.js:72-74 | a range with `tsr[1] > tsr[0]` inside the source converts to exactly `src[tsr[0]..tsr[1]]` |
| PatcherProperties.ConvertFabricatedIsEmpty | lib/ext.core.TokenStreamPatcher.js:75-76 | with no usable range, a tag auto-inserted at both ends converts to the empty string |
| PatcherProperties.ConvertFallsBackToWikiSyntax | lib/ext.core.TokenStreamPatcher.js:77-91 | otherwise the fixed wiki syntax of `td`, `th`, `tr` and an end `table` (a bar, a bang, bar-dash, bar-brace), and any other tag is returned unconverted |
| PatcherProperties.ConvertedTableTagsAreText | lib/ext.core.TokenStreamPatcher.js:79-86 | the tags onAny converts (cell/row start tags, table end tags) always convert to text |
| PatcherProperties.AnyStepConvertsExactlyStrayTableTags | lib/ext.core.TokenStreamPatcher.js:136-163 | for a non-text token, onAny outputs exactly `[ConvertTokenToString(token)]`, which is text, if and only if the token is a non-nowiki wiki cell/row start tag or table end tag at top level with no table open; otherwise `[token]` |
| PatcherProperties.StrayCellIsConverted | lib/ext.core.TokenStreamPatcher.js:139-146 | a stray wiki `td`/`th`/`tr` start tag at top level with nesting 0 is replaced by its literal text, whatever the nowiki flag |
| PatcherProperties.TableCloseNeverGoesNegative | lib/ext.core.TokenStreamPatcher.js:154-160 | a wiki `</table>` at top level decrements a positive nesting and passes through; at 0 it becomes the converted text and nesting stays |
| PatcherProperties.TagsClearStartOfLine | lib/ext.core.TokenStreamPatcher.js:136-163 | every start and end tag leaves `sol` off and the cursor null, whichever branch ran |
| PatcherProperties.OtherSelfClosingClearsStartOfLine | lib/ext.core.TokenStreamPatcher.js:128-133 | a self-closing tag other than a wiki `meta` tag passes through alone, clears start-of-line and the cursor, and changes no other field |
| PatcherProperties.TagStateEffect | lib/ext.core.TokenStreamPatcher.js:136-163 | the whole state after a start or end tag: a nowiki start tag sets `inNowiki`, a nowiki end tag clears it, any other tag leaves it; nesting moves only for a non-nowiki wiki `table` tag at top level, up by one for a start tag and down by one for an end tag while positive; `sol` and the cursor are cleared |
| PatcherProperties.CommentsAndMetaAreTransparent | lib/ext.core.TokenStreamPatcher.js:122-134 | comments and wiki `meta` tags pass through and only move the cursor to `tsr[1]` or null |
| PatcherProperties.WhitespaceKeepsStartOfLine | lib/ext.core.TokenStreamPatcher.js:110-113 | white-space text at start of line outside nowiki keeps `sol`, passes through, and advances the cursor by its length |
| PatcherProperties.TableOpenTextIsReparsed | lib/ext.core.TokenStreamPatcher.js:103-109 | table-open text at start of line at top level outside nowiki is replaced by the reparsed tokens; nesting rises by exactly one; `sol` stays |
| PatcherProperties.OtherTextClearsStartOfLine | lib/ext.core.TokenStreamPatcher.js:114-119 | all other text, including text after `sol` is off or inside nowiki, passes through and clears start-of-line |
| PatcherProperties.NowikiGatesOnlyText | lib/ext.core.TokenStreamPatcher.js:103-146 | inside nowiki, in any state, text passes through alone and clears start-of-line (no reparse, no white-space cursor advance); a stray wiki cell tag at top level with no table open is still converted |
| PatcherProperties.NotTopLevelPassesThrough | lib/ext.core.TokenStreamPatcher.js:97-169 | below top level every onAny output is exactly `[token]` and nesting never changes |
| PatcherProperties.Deliver | lib/ext.core.TokenStreamPatcher.js:27-32 | the pipeline's dispatch of one token to onNewline, onEnd or onAny keeps `atTopLevel` and a non-negative nesting |
| PatcherProperties.AnyStepIgnoresMarkers | lib/ext.core.TokenStreamPatcher.js:165-166 | onAny leaves newline and end markers and the state alone |
| PatcherProperties.RunKeepsNestingNonNegative | lib/ext.core.TokenStreamPatcher.js:27-32 | over any stream delivered in order, `atTopLevel` is unchanged and a non-negative nesting stays non-negative |
| PatcherProperties.RunNotTopLevelIsIdentity | lib/ext.core.TokenStreamPatcher.js:97-169 | below top level the patcher outputs every stream unchanged and nesting only ever resets to 0 |
| PatcherProperties.TableOpensRaiseNesting | lib/ext.core.TokenStreamPatcher.js:139-141 | k wiki table start tags at top level raise nesting by k and pass through |
| PatcherProperties.TableClosesLowerNesting | lib/ext.core.TokenStreamPatcher.js:154-156 | k wiki table end tags with at least k tables open lower nesting by k and pass through |
| PatcherProperties.BalancedTablesReturnToZero | lib/ext.core.TokenStreamPatcher.js:136-163 | N opens then N closes return nesting to 0, for any wiki table tags; one more close is replaced by its converted text and nesting stays 0 |
| PatcherProperties.BalancedTablesExtraCloseIsBarBrace | lib/ext.core.TokenStreamPatcher.js:79-90 | when that extra close has no source range and was not fabricated, its converted text is the literal bar-brace |
| PatcherProperties.EndMarkerForgetsHistory | lib/ext.core.TokenStreamPatcher.js:58-61 | after an end marker the rest of a stream runs as from the initial state, whatever came before: the same final state, and the same output after the marker |

## Left out

- The tokenizer re-run on `{|` text (`tokenize(token, 'table_start_tag')`) and the shift of its source ranges (`Util.shiftTokenTSR`), lines 107-108: that code is not part of this model. They form the uninterpreted `reparse` parameter. So a reparsed table start whose range begins at the cursor is not proved.
- Transform registration, bound callbacks and the rank constants (lines 24-39) are pipeline plumbing. `Run` stands in for the pipeline's in-order delivery. Tokens a handler returns are not fed back into the patcher.
- Trace logging (line 95) is observability only.
- `manager.env.page.src` is a plain `src` parameter. `isHTMLTag()` and `stx === "html"` are an `isHTML` flag. `getAttribute` is a lookup in an attribute map.
- TokenStreamPatcher.ConvertTokenToString: source offsets and text lengths count Dafny characters (Unicode scalar values), not JavaScript's UTF-16 code units. With a character outside the Basic Multilingual Plane before `tsr[0]`, JavaScript's `substring` would cut a different slice. The cursor advance by `token.length` agrees, because every JavaScript white-space character is a single code unit.
- Source ranges are pairs of integers. A range whose entries are null or undefined is not modelled. JavaScript numbers are unbounded integers here.
- `_convertTokenToString` on a token without `dataAttribs` (line 75 would throw) is not modelled. `ConvertTokenToString` requires a tag token, and the only callers pass tags.
- `TokenStreamPatcher.Patcher.OnNewline` requires a newline token, because the pipeline registers `onNewline` for newline tokens only.
- A start `table` tag with no usable range falls through `_convertTokenToString` and comes back unconverted. The model keeps this behaviour. `onAny` never reaches that case.
- The `null + length` in the white-space branch (line 113) is modelled as JavaScript evaluates it: a null cursor counts as 0.
