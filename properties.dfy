/** Properties of the token stream patcher: what each handler promises about
    one token, and what follows for a whole stream delivered in order. */
module PatcherProperties {
  import opened Tokens
  import opened TokenStreamPatcher

  /** The state at stream start and after every end-of-input marker. */
  function Initial(atTopLevel: bool): PatcherState {
    PatcherState(atTopLevel, false, 0, Some(0), true)
  }

  // ---- onEnd ----

  /** `onEnd` returns its token and restores the initial state, keeping only
      `atTopLevel`; a second end marker changes nothing more. */
  lemma EndRestoresInitialState(s: PatcherState, t: Token, t': Token)
    ensures EndStep(s, t).tokens == [t]
    ensures EndStep(s, t).state == Initial(s.atTopLevel)
    ensures EndStep(EndStep(s, t).state, t').state == EndStep(s, t).state
  {
  }

  // ---- _convertTokenToString ----

  /** Case 1: a non-empty range inside the source yields exactly that slice. */
  lemma ConvertTakesSourceSlice(t: Token, src: string)
    requires t.IsTag() && t.tag.tsr.Some?
    requires 0 <= t.tag.tsr.value.startOffset < t.tag.tsr.value.endOffset <= |src|
    ensures ConvertTokenToString(t, src)
            == Text(src[t.tag.tsr.value.startOffset..t.tag.tsr.value.endOffset])
  {
  }

  /** Case 2: without a usable range, a tag fabricated at both ends is empty text. */
  lemma ConvertFabricatedIsEmpty(t: Token, src: string)
    requires t.IsTag()
    requires t.tag.tsr.None? || t.tag.tsr.value.endOffset <= t.tag.tsr.value.startOffset
    requires t.tag.autoInsertedStart && t.tag.autoInsertedEnd
    ensures ConvertTokenToString(t, src) == Text("")
  {
  }

  /** Case 3: otherwise the fixed wiki syntax of the table tags, and for any
      other tag the token itself. */
  lemma ConvertFallsBackToWikiSyntax(t: Token, src: string)
    requires t.IsTag()
    requires t.tag.tsr.None? || t.tag.tsr.value.endOffset <= t.tag.tsr.value.startOffset
    requires !(t.tag.autoInsertedStart && t.tag.autoInsertedEnd)
    ensures t.tag.name == "td" ==> ConvertTokenToString(t, src) == Text("|")
    ensures t.tag.name == "th" ==> ConvertTokenToString(t, src) == Text("!")
    ensures t.tag.name == "tr" ==> ConvertTokenToString(t, src) == Text("|-")
    ensures t.tag.name == "table" && t.EndTag? ==> ConvertTokenToString(t, src) == Text("|}")
    ensures !IsCellOrRow(t.tag.name) && !(t.tag.name == "table" && t.EndTag?)
            ==> ConvertTokenToString(t, src) == t
  {
  }

  /** The tags `onAny` may convert always have a literal form: cell and row
      start tags and table end tags convert to text. */
  lemma ConvertedTableTagsAreText(t: Token, src: string)
    requires (t.StartTag? && IsCellOrRow(t.tag.name)) || (t.EndTag? && t.tag.name == "table")
    ensures ConvertTokenToString(t, src).Text?
  {
  }

  /** The tags `onAny` converts: wiki-syntax cell or row start tags and table
      end tags, at top level with no table open, that are not nowiki markers. */
  predicate IsStrayTableTag(s: PatcherState, t: Token) {
    s.atTopLevel && s.wikiTableNesting == 0 && t.IsTag() && !t.tag.isHTML && !IsNowikiMarker(t.tag)
    && ((t.StartTag? && IsCellOrRow(t.tag.name)) || (t.EndTag? && t.tag.name == "table"))
  }

  /** For a non-text token `onAny` outputs the converted text exactly when the
      token is a stray table tag, and the token alone otherwise. */
  lemma AnyStepConvertsExactlyStrayTableTags(s: PatcherState, t: Token, src: string, reparse: Reparser)
    requires !t.Text? && s.wikiTableNesting >= 0
    ensures IsStrayTableTag(s, t) ==>
              AnyStep(s, t, src, reparse).tokens == [ConvertTokenToString(t, src)]
              && ConvertTokenToString(t, src).Text?
    ensures !IsStrayTableTag(s, t) ==> AnyStep(s, t, src, reparse).tokens == [t]
  {
    if IsStrayTableTag(s, t) {
      ConvertedTableTagsAreText(t, src);
    }
  }

  /** A stray wiki `td`, `th` or `tr` start tag at top level with no table open
      is replaced by its literal text, whether or not nowiki is on. */
  lemma StrayCellIsConverted(s: PatcherState, tag: Tag, src: string, reparse: Reparser)
    requires s.atTopLevel && s.wikiTableNesting == 0
    requires !tag.isHTML && IsCellOrRow(tag.name) && !IsNowikiMarker(tag)
    ensures AnyStep(s, StartTag(tag), src, reparse).tokens
            == [ConvertTokenToString(StartTag(tag), src)]
    ensures ConvertTokenToString(StartTag(tag), src).Text?
  {
    ConvertedTableTagsAreText(StartTag(tag), src);
  }

  // ---- table nesting ----

  /** A wiki `</table>` at top level lowers the nesting when a table is open;
      with none open it is replaced by its literal text and nesting stays 0. */
  lemma TableCloseNeverGoesNegative(s: PatcherState, tag: Tag, src: string, reparse: Reparser)
    requires s.atTopLevel && !tag.isHTML && tag.name == "table" && !IsNowikiMarker(tag)
    ensures s.wikiTableNesting > 0 ==>
              AnyStep(s, EndTag(tag), src, reparse).state.wikiTableNesting == s.wikiTableNesting - 1
              && AnyStep(s, EndTag(tag), src, reparse).tokens == [EndTag(tag)]
    ensures s.wikiTableNesting <= 0 ==>
              AnyStep(s, EndTag(tag), src, reparse).state.wikiTableNesting == s.wikiTableNesting
              && AnyStep(s, EndTag(tag), src, reparse).tokens == [ConvertTokenToString(EndTag(tag), src)]
  {
  }

  // ---- start of line ----

  /** Every start and end tag leaves start-of-line cleared, whichever branch ran. */
  lemma TagsClearStartOfLine(s: PatcherState, t: Token, src: string, reparse: Reparser)
    requires t.StartTag? || t.EndTag?
    ensures !AnyStep(s, t, src, reparse).state.sol
    ensures AnyStep(s, t, src, reparse).state.srcOffset == None
  {
  }

  /** A self-closing tag other than a wiki `meta` tag passes through and clears
      start-of-line, changing nothing else. */
  lemma OtherSelfClosingClearsStartOfLine(s: PatcherState, tag: Tag, src: string, reparse: Reparser)
    requires !(tag.name == "meta" && !tag.isHTML)
    ensures AnyStep(s, SelfClosing(tag), src, reparse) == Outcome(AfterClearSol(s), [SelfClosing(tag)])
  {
  }

  /** The whole state a start or end tag leaves: a nowiki marker sets (start)
      or clears (end) the nowiki flag; any other tag leaves it alone and moves
      the nesting only when it is a wiki `table` tag at top level, up for a
      start tag and down for an end tag while a table is open. Start-of-line
      is cleared in every case. */
  lemma TagStateEffect(s: PatcherState, t: Token, src: string, reparse: Reparser)
    requires t.StartTag? || t.EndTag?
    ensures AnyStep(s, t, src, reparse).state
            == AfterClearSol(s.(inNowiki := if IsNowikiMarker(t.tag) then t.StartTag? else s.inNowiki,
                                wikiTableNesting :=
                                  if !IsNowikiMarker(t.tag) && s.atTopLevel && !t.tag.isHTML && t.tag.name == "table" then
                                    (if t.StartTag? then s.wikiTableNesting + 1
                                     else if s.wikiTableNesting > 0 then s.wikiTableNesting - 1
                                     else s.wikiTableNesting)
                                  else s.wikiTableNesting))
  {
  }

  /** Comments and wiki-syntax `meta` tags are transparent: only the cursor moves. */
  lemma CommentsAndMetaAreTransparent(s: PatcherState, t: Token, src: string, reparse: Reparser)
    requires t.Comment? || (t.SelfClosing? && t.tag.name == "meta" && !t.tag.isHTML)
    ensures AnyStep(s, t, src, reparse).tokens == [t]
    ensures AnyStep(s, t, src, reparse).state
            == s.(srcOffset := RangeEnd(if t.Comment? then t.tsr else t.tag.tsr))
  {
  }

  /** White-space text at start of line outside nowiki keeps start-of-line and
      advances the cursor by its length (a null cursor counts as 0). */
  lemma WhitespaceKeepsStartOfLine(s: PatcherState, text: string, src: string, reparse: Reparser)
    requires s.sol && !s.inNowiki && AllWhitespace(text)
    ensures AnyStep(s, Text(text), src, reparse).tokens == [Text(text)]
    ensures AnyStep(s, Text(text), src, reparse).state
            == s.(srcOffset := Some(OffsetOrZero(s.srcOffset) + |text|))
  {
  }

  /** `{|` text at start of line at top level, outside nowiki, is replaced by
      the reparsed table start; nesting rises by one and start-of-line stays. */
  lemma TableOpenTextIsReparsed(s: PatcherState, text: string, src: string, reparse: Reparser)
    requires s.sol && !s.inNowiki && s.atTopLevel && StartsWithTableOpen(text)
    ensures AnyStep(s, Text(text), src, reparse).tokens == reparse(text, s.srcOffset)
    ensures AnyStep(s, Text(text), src, reparse).state
            == s.(wikiTableNesting := s.wikiTableNesting + 1)
  {
  }

  /** Any other text clears start-of-line, including all text that arrives when
      start-of-line is already off or inside nowiki. */
  lemma OtherTextClearsStartOfLine(s: PatcherState, text: string, src: string, reparse: Reparser)
    requires !(s.sol && !s.inNowiki && AllWhitespace(text))
    requires !(s.sol && !s.inNowiki && s.atTopLevel && StartsWithTableOpen(text))
    ensures AnyStep(s, Text(text), src, reparse).tokens == [Text(text)]
    ensures AnyStep(s, Text(text), src, reparse).state == AfterClearSol(s)
  {
  }

  /** Inside nowiki, text is never reparsed nor kept at start of line,
      whatever the rest of the state: it passes through and clears
      start-of-line. The tag heuristics are not gated by the nowiki flag, so a
      stray cell tag is still converted. */
  lemma NowikiGatesOnlyText(s: PatcherState, text: string, tag: Tag, src: string, reparse: Reparser)
    requires s.inNowiki
    ensures AnyStep(s, Text(text), src, reparse) == Outcome(AfterClearSol(s), [Text(text)])
    ensures s.atTopLevel && s.wikiTableNesting == 0 && !tag.isHTML && IsCellOrRow(tag.name) && !IsNowikiMarker(tag)
            ==> AnyStep(s, StartTag(tag), src, reparse).tokens == [ConvertTokenToString(StartTag(tag), src)]
  {
  }

  /** Below top level nothing is converted or reparsed and nesting is fixed:
      every token passes through alone. */
  lemma NotTopLevelPassesThrough(s: PatcherState, t: Token, src: string, reparse: Reparser)
    requires !s.atTopLevel
    ensures AnyStep(s, t, src, reparse).tokens == [t]
    ensures AnyStep(s, t, src, reparse).state.wikiTableNesting == s.wikiTableNesting
  {
  }

  // ---- whole streams ----

  /** How the pipeline hands a token to the patcher: newline markers to
      `onNewline`, end markers to `onEnd`, everything else to `onAny`. */
  function Deliver(s: PatcherState, t: Token, src: string, reparse: Reparser): (r: Outcome)
    ensures r.state.atTopLevel == s.atTopLevel
    ensures s.wikiTableNesting >= 0 ==> r.state.wikiTableNesting >= 0
  {
    match t
    case Newline(_) => NewlineStep(s, t)
    case EndOfInput(_) => EndStep(s, t)
    case _ => AnyStep(s, t, src, reparse)
  }

  /** `onAny` leaves marker tokens alone, so delivering them to `onAny` as well
      as to their own handler makes no difference. */
  lemma AnyStepIgnoresMarkers(s: PatcherState, t: Token, src: string, reparse: Reparser)
    requires t.Newline? || t.EndOfInput?
    ensures AnyStep(s, t, src, reparse) == Outcome(s, [t])
    ensures Deliver(AnyStep(s, t, src, reparse).state, t, src, reparse) == Deliver(s, t, src, reparse)
  {
  }

  /** A stream fed through a step function token by token: the final state
      and the concatenated output. */
  function RunWith(step: (PatcherState, Token) -> Outcome, s: PatcherState, ts: seq<Token>): Outcome
    decreases |ts|
  {
    if ts == [] then
      Outcome(s, [])
    else
      var first := step(s, ts[0]);
      var rest := RunWith(step, first.state, ts[1..]);
      Outcome(rest.state, first.tokens + rest.tokens)
  }

  /** Feeding two pieces of a stream one after the other is feeding the whole. */
  lemma {:induction false} RunWithAppend(step: (PatcherState, Token) -> Outcome, s: PatcherState, a: seq<Token>, b: seq<Token>)
    ensures RunWith(step, s, a + b)
            == Outcome(RunWith(step, RunWith(step, s, a).state, b).state,
                       RunWith(step, s, a).tokens + RunWith(step, RunWith(step, s, a).state, b).tokens)
    decreases |a|
  {
    if a == [] {
      assert a + b == b;
    } else {
      assert (a + b)[0] == a[0];
      assert (a + b)[1..] == a[1..] + b;
      RunWithAppend(step, step(s, a[0]).state, a[1..], b);
    }
  }

  /** The patcher run over a stream, each token delivered as the pipeline does. */
  function Run(s: PatcherState, ts: seq<Token>, src: string, reparse: Reparser): Outcome {
    RunWith((st, t) => Deliver(st, t, src, reparse), s, ts)
  }

  /** Over any stream the patcher keeps `atTopLevel` and never drives the
      table nesting negative. */
  lemma {:induction false} RunKeepsNestingNonNegative(s: PatcherState, ts: seq<Token>, src: string, reparse: Reparser)
    ensures Run(s, ts, src, reparse).state.atTopLevel == s.atTopLevel
    ensures s.wikiTableNesting >= 0 ==> Run(s, ts, src, reparse).state.wikiTableNesting >= 0
    decreases |ts|
  {
    if ts != [] {
      RunKeepsNestingNonNegative(Deliver(s, ts[0], src, reparse).state, ts[1..], src, reparse);
    }
  }

  /** A one-token stream is one delivery. */
  lemma RunSingle(s: PatcherState, t: Token, src: string, reparse: Reparser)
    ensures Run(s, [t], src, reparse) == Deliver(s, t, src, reparse)
  {
    var first := Deliver(s, t, src, reparse);
    assert [t][1..] == [];
    assert Run(first.state, [], src, reparse) == Outcome(first.state, []);
    assert first.tokens + [] == first.tokens;
  }

  lemma RunAppend(s: PatcherState, a: seq<Token>, b: seq<Token>, src: string, reparse: Reparser)
    ensures Run(s, a + b, src, reparse)
            == Outcome(Run(Run(s, a, src, reparse).state, b, src, reparse).state,
                       Run(s, a, src, reparse).tokens + Run(Run(s, a, src, reparse).state, b, src, reparse).tokens)
  {
    RunWithAppend((st, t) => Deliver(st, t, src, reparse), s, a, b);
  }

  /** Below top level the patcher is the identity on every stream, and the
      nesting count only ever moves to 0 (at an end marker). */
  lemma {:induction false} RunNotTopLevelIsIdentity(s: PatcherState, ts: seq<Token>, src: string, reparse: Reparser)
    requires !s.atTopLevel
    ensures Run(s, ts, src, reparse).tokens == ts
    ensures Run(s, ts, src, reparse).state.wikiTableNesting in {s.wikiTableNesting, 0}
    decreases |ts|
  {
    if ts != [] {
      var first := Deliver(s, ts[0], src, reparse);
      if !ts[0].Newline? && !ts[0].EndOfInput? {
        NotTopLevelPassesThrough(s, ts[0], src, reparse);
      }
      RunNotTopLevelIsIdentity(first.state, ts[1..], src, reparse);
      assert ts == [ts[0]] + ts[1..];
    }
  }

  /** `k` copies of a token. */
  function Repeat(t: Token, k: nat): seq<Token> {
    seq(k, _ => t)
  }

  /** A wiki-syntax table tag that is not a nowiki marker. */
  predicate IsWikiTable(tag: Tag) {
    tag.name == "table" && !tag.isHTML && !IsNowikiMarker(tag)
  }

  /** At top level, `k` wiki table start tags raise the nesting by `k` and pass
      through unchanged. */
  lemma {:induction false} TableOpensRaiseNesting(s: PatcherState, tag: Tag, k: nat, src: string, reparse: Reparser)
    requires s.atTopLevel && IsWikiTable(tag)
    ensures Run(s, Repeat(StartTag(tag), k), src, reparse).tokens == Repeat(StartTag(tag), k)
    ensures Run(s, Repeat(StartTag(tag), k), src, reparse).state.wikiTableNesting == s.wikiTableNesting + k
    ensures Run(s, Repeat(StartTag(tag), k), src, reparse).state.inNowiki == s.inNowiki
    decreases k
  {
    var ts := Repeat(StartTag(tag), k);
    if k > 0 {
      var next := AnyStep(s, StartTag(tag), src, reparse).state;
      assert ts[1..] == Repeat(StartTag(tag), k - 1);
      TableOpensRaiseNesting(next, tag, k - 1, src, reparse);
      assert ts == [StartTag(tag)] + ts[1..];
    }
  }

  /** At top level, `k` wiki table end tags with at least `k` tables open lower
      the nesting by `k` and pass through unchanged. */
  lemma {:induction false} TableClosesLowerNesting(s: PatcherState, tag: Tag, k: nat, src: string, reparse: Reparser)
    requires s.atTopLevel && IsWikiTable(tag) && k <= s.wikiTableNesting
    ensures Run(s, Repeat(EndTag(tag), k), src, reparse).tokens == Repeat(EndTag(tag), k)
    ensures Run(s, Repeat(EndTag(tag), k), src, reparse).state.wikiTableNesting == s.wikiTableNesting - k
    decreases k
  {
    var ts := Repeat(EndTag(tag), k);
    if k > 0 {
      var next := AnyStep(s, EndTag(tag), src, reparse).state;
      assert ts[1..] == Repeat(EndTag(tag), k - 1);
      TableClosesLowerNesting(next, tag, k - 1, src, reparse);
      assert ts == [EndTag(tag)] + ts[1..];
    }
  }

  /** `k` wiki table opens followed by `k` closes bring the nesting back to
      where it started; one close more, with nothing open, is not a decrement
      but is replaced by its converted text. */
  lemma BalancedTablesReturnToZero(k: nat, open: Tag, close: Tag, src: string, reparse: Reparser)
    requires IsWikiTable(open) && IsWikiTable(close)
    ensures Run(Initial(true), Repeat(StartTag(open), k) + Repeat(EndTag(close), k), src, reparse).state.wikiTableNesting == 0
    ensures Run(Initial(true), Repeat(StartTag(open), k) + Repeat(EndTag(close), k) + [EndTag(close)], src, reparse).state.wikiTableNesting == 0
    ensures Run(Initial(true), Repeat(StartTag(open), k) + Repeat(EndTag(close), k) + [EndTag(close)], src, reparse).tokens
            == Repeat(StartTag(open), k) + Repeat(EndTag(close), k) + [ConvertTokenToString(EndTag(close), src)]
    ensures ConvertTokenToString(EndTag(close), src).Text?
  {
    var s := Initial(true);
    var opens, closes := Repeat(StartTag(open), k), Repeat(EndTag(close), k);
    TableOpensRaiseNesting(s, open, k, src, reparse);
    var afterOpens := Run(s, opens, src, reparse).state;
    RunKeepsNestingNonNegative(s, opens, src, reparse);
    TableClosesLowerNesting(afterOpens, close, k, src, reparse);
    RunAppend(s, opens, closes, src, reparse);
    var afterCloses := Run(s, opens + closes, src, reparse).state;
    RunKeepsNestingNonNegative(s, opens + closes, src, reparse);
    RunAppend(s, opens + closes, [EndTag(close)], src, reparse);
    RunSingle(afterCloses, EndTag(close), src, reparse);
    TableCloseNeverGoesNegative(afterCloses, close, src, reparse);
    ConvertedTableTagsAreText(EndTag(close), src);
  }

  /** For a close without a source range that the tokenizer did not fabricate,
      the unmatched close of a balanced run is the literal `|}`. */
  lemma BalancedTablesExtraCloseIsBarBrace(k: nat, open: Tag, close: Tag, src: string, reparse: Reparser)
    requires IsWikiTable(open) && IsWikiTable(close)
    requires close.tsr.None? && !(close.autoInsertedStart && close.autoInsertedEnd)
    ensures Run(Initial(true), Repeat(StartTag(open), k) + Repeat(EndTag(close), k) + [EndTag(close)], src, reparse).tokens
            == Repeat(StartTag(open), k) + Repeat(EndTag(close), k) + [Text("|}")]
  {
    BalancedTablesReturnToZero(k, open, close, src, reparse);
  }

  /** An end marker anywhere in a stream wipes all context before it: the rest
      runs exactly as it would from the initial state. */
  lemma EndMarkerForgetsHistory(s: PatcherState, before: seq<Token>, end: Token, after: seq<Token>, src: string, reparse: Reparser)
    requires end.EndOfInput?
    ensures Run(s, before + [end] + after, src, reparse).state
            == Run(Initial(s.atTopLevel), after, src, reparse).state
    ensures Run(s, before + [end] + after, src, reparse).tokens
            == Run(s, before, src, reparse).tokens + [end]
               + Run(Initial(s.atTopLevel), after, src, reparse).tokens
  {
    RunAppend(s, before + [end], after, src, reparse);
    RunAppend(s, before, [end], src, reparse);
    var mid := Run(s, before, src, reparse).state;
    RunKeepsNestingNonNegative(s, before, src, reparse);
    RunSingle(mid, end, src, reparse);
    var head := Run(s, before, src, reparse).tokens;
    var tail := Run(Initial(s.atTopLevel), after, src, reparse).tokens;
    assert Run(s, before + [end], src, reparse).tokens == head + [end];
    assert (head + [end]) + tail == head + [end] + tail;
  }
}
