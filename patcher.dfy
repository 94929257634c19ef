/** The token stream patcher: a stage right after the wikitext tokenizer that
    tracks start-of-line, nowiki and wiki-table nesting context the tokenizer
    cannot see, reparses `{|` text at start of line as a table start, and turns
    stray wiki table tags back into their source text.

    The step functions below specify each handler on a value of the patcher's
    state; the class `Patcher` holds that state in fields and implements the
    handlers imperatively, each proved equal to its step function. */
module TokenStreamPatcher {
  import opened Tokens

  /** The patcher's fields as a value. */
  datatype PatcherState = PatcherState(
    atTopLevel: bool,
    inNowiki: bool,
    wikiTableNesting: int,
    srcOffset: Option<int>,
    sol: bool)

  /** What a handler returns (`{tokens: ...}`) together with the state it leaves. */
  datatype Outcome = Outcome(state: PatcherState, tokens: seq<Token>)

  /** The tokenizer re-run on a fragment under the `table_start_tag` rule, with
      the resulting source ranges shifted by the given offset. */
  type Reparser = (string, Option<int>) -> seq<Token>

  /** The state `reset` establishes; `atTopLevel` is kept. */
  function AfterReset(s: PatcherState): (r: PatcherState)
    ensures r.atTopLevel == s.atTopLevel && r.wikiTableNesting == 0
  {
    s.(inNowiki := false, wikiTableNesting := 0, srcOffset := Some(0), sol := true)
  }

  /** The state `clearSOL` leaves: start-of-line and the source cursor dropped. */
  function AfterClearSol(s: PatcherState): (r: PatcherState)
    ensures !r.sol && r.srcOffset == None
    ensures r.atTopLevel == s.atTopLevel && r.inNowiki == s.inNowiki
    ensures r.wikiTableNesting == s.wikiTableNesting
  {
    s.(srcOffset := None, sol := false)
  }

  /** `onNewline`: start-of-line is set and the cursor is taken from the
      newline's range end, or null without a range. */
  function NewlineStep(s: PatcherState, t: Token): (r: Outcome)
    requires t.Newline?
    ensures r.tokens == [t] && r.state.sol
    ensures t.tsr.Some? ==> r.state.srcOffset == Some(t.tsr.value.endOffset)
    ensures t.tsr.None? ==> r.state.srcOffset == None
    ensures r.state.atTopLevel == s.atTopLevel && r.state.inNowiki == s.inNowiki
    ensures r.state.wikiTableNesting == s.wikiTableNesting
  {
    Outcome(s.(srcOffset := RangeEnd(t.tsr), sol := true), [t])
  }

  /** `onEnd`: the reset state, whatever came before. */
  function EndStep(s: PatcherState, t: Token): (r: Outcome)
    ensures r.tokens == [t]
    ensures r.state.sol && !r.state.inNowiki && r.state.srcOffset == Some(0)
    ensures r.state.wikiTableNesting == 0 && r.state.atTopLevel == s.atTopLevel
  {
    Outcome(AfterReset(s), [t])
  }

  /** `_convertTokenToString`: the literal source text a tag token stands for.
      The source range wins when it is non-empty; a tag the tokenizer fabricated
      at both ends stands for nothing; otherwise the table tags fall back to
      their fixed wiki syntax, and any other tag comes back unconverted. */
  function ConvertTokenToString(t: Token, src: string): (r: Token)
    requires t.IsTag()
    ensures r == t || r.Text?
    ensures r.Text? && t.tag.tsr.Some? && t.tag.tsr.value.endOffset > t.tag.tsr.value.startOffset
            ==> |r.text| <= |src|
  {
    var tag := t.tag;
    if tag.tsr.Some? && tag.tsr.value.endOffset > tag.tsr.value.startOffset then
      Text(JsSubstring(src, tag.tsr.value.startOffset, tag.tsr.value.endOffset))
    else if tag.autoInsertedStart && tag.autoInsertedEnd then
      Text("")
    else if tag.name == "td" then
      Text("|")
    else if tag.name == "th" then
      Text("!")
    else if tag.name == "tr" then
      Text("|-")
    else if tag.name == "table" && t.EndTag? then
      Text("|}")
    else
      t
  }

  /** A wiki-syntax table cell or row tag name. */
  predicate IsCellOrRow(name: string) {
    name == "td" || name == "th" || name == "tr"
  }

  /** `onAny`, dispatching on the token's kind. */
  function AnyStep(s: PatcherState, t: Token, src: string, reparse: Reparser): (r: Outcome)
    ensures r.state.atTopLevel == s.atTopLevel
    ensures s.wikiTableNesting >= 0 ==> r.state.wikiTableNesting >= 0
    ensures r.state.wikiTableNesting < s.wikiTableNesting ==>
              s.wikiTableNesting > 0 && r.state.wikiTableNesting == s.wikiTableNesting - 1
    ensures r.state.wikiTableNesting != s.wikiTableNesting ==> s.atTopLevel
  {
    match t
    case Text(text) =>
      if s.sol && !s.inNowiki then
        if s.atTopLevel && StartsWithTableOpen(text) then
          Outcome(s.(wikiTableNesting := s.wikiTableNesting + 1), reparse(text, s.srcOffset))
        else if AllWhitespace(text) then
          Outcome(s.(srcOffset := Some(OffsetOrZero(s.srcOffset) + |text|)), [t])
        else
          Outcome(AfterClearSol(s), [t])
      else
        Outcome(AfterClearSol(s), [t])
    case Comment(_, tsr) =>
      Outcome(s.(srcOffset := RangeEnd(tsr)), [t])
    case SelfClosing(tag) =>
      if tag.name == "meta" && !tag.isHTML then
        Outcome(s.(srcOffset := RangeEnd(tag.tsr)), [t])
      else
        Outcome(AfterClearSol(s), [t])
    case StartTag(tag) =>
      if IsNowikiMarker(tag) then
        Outcome(AfterClearSol(s.(inNowiki := true)), [t])
      else if s.atTopLevel && !tag.isHTML && tag.name == "table" then
        Outcome(AfterClearSol(s.(wikiTableNesting := s.wikiTableNesting + 1)), [t])
      else if s.atTopLevel && !tag.isHTML && s.wikiTableNesting == 0 && IsCellOrRow(tag.name) then
        Outcome(AfterClearSol(s), [ConvertTokenToString(t, src)])
      else
        Outcome(AfterClearSol(s), [t])
    case EndTag(tag) =>
      if IsNowikiMarker(tag) then
        Outcome(AfterClearSol(s.(inNowiki := false)), [t])
      else if s.atTopLevel && !tag.isHTML && tag.name == "table" then
        if s.wikiTableNesting > 0 then
          Outcome(AfterClearSol(s.(wikiTableNesting := s.wikiTableNesting - 1)), [t])
        else
          Outcome(AfterClearSol(s), [ConvertTokenToString(t, src)])
      else
        Outcome(AfterClearSol(s), [t])
    case Newline(_) =>
      Outcome(s, [t])
    case EndOfInput(_) =>
      Outcome(s, [t])
  }

  /** The patcher object. One instance serves one pipeline run; the pipeline
      hands it every token in stream order. */
  class Patcher {
    var atTopLevel: bool
    var inNowiki: bool
    var wikiTableNesting: int
    var srcOffset: Option<int>
    var sol: bool

    /** The table nesting count never goes negative. */
    ghost predicate Valid()
      reads this
    {
      wikiTableNesting >= 0
    }

    function State(): PatcherState
      reads this
    {
      PatcherState(atTopLevel, inNowiki, wikiTableNesting, srcOffset, sol)
    }

    /** The constructor runs `reset`; `atTopLevel` stays undefined (false)
        until `resetState` sets it. */
    constructor ()
      ensures Valid()
      ensures !atTopLevel && !inNowiki && wikiTableNesting == 0
      ensures srcOffset == Some(0) && sol
    {
      atTopLevel := false;
      inNowiki := false;
      wikiTableNesting := 0;
      srcOffset := Some(0);
      sol := true;
    }

    /** `resetState(opts)`: `atTopLevel := opts && opts.toplevel`; a missing
        options object or a missing `toplevel` counts as false. */
    method ResetState(toplevel: Option<bool>)
      requires Valid()
      modifies this
      ensures Valid()
      ensures atTopLevel == (toplevel == Some(true))
      ensures inNowiki == old(inNowiki) && wikiTableNesting == old(wikiTableNesting)
      ensures srcOffset == old(srcOffset) && sol == old(sol)
    {
      atTopLevel := toplevel == Some(true);
    }

    method Reset()
      modifies this
      ensures Valid()
      ensures State() == AfterReset(old(State()))
      ensures !inNowiki && wikiTableNesting == 0 && srcOffset == Some(0) && sol
      ensures atTopLevel == old(atTopLevel)
    {
      inNowiki := false;
      wikiTableNesting := 0;
      srcOffset := Some(0);
      sol := true;
    }

    method OnNewline(token: Token) returns (tokens: seq<Token>)
      requires Valid() && token.Newline?
      modifies this
      ensures Valid()
      ensures Outcome(State(), tokens) == NewlineStep(old(State()), token)
      ensures tokens == [token] && sol && srcOffset == RangeEnd(token.tsr)
      ensures atTopLevel == old(atTopLevel) && inNowiki == old(inNowiki)
      ensures wikiTableNesting == old(wikiTableNesting)
    {
      srcOffset := RangeEnd(token.tsr);
      sol := true;
      tokens := [token];
    }

    method OnEnd(token: Token) returns (tokens: seq<Token>)
      modifies this
      ensures Valid()
      ensures Outcome(State(), tokens) == EndStep(old(State()), token)
      ensures tokens == [token]
      ensures !inNowiki && wikiTableNesting == 0 && srcOffset == Some(0) && sol
      ensures atTopLevel == old(atTopLevel)
    {
      Reset();
      tokens := [token];
    }

    method ClearSOL()
      requires Valid()
      modifies this
      ensures Valid()
      ensures State() == AfterClearSol(old(State()))
      ensures srcOffset == None && !sol
      ensures atTopLevel == old(atTopLevel) && inNowiki == old(inNowiki)
      ensures wikiTableNesting == old(wikiTableNesting)
    {
      srcOffset := None;
      sol := false;
    }

    method OnAny(token: Token, src: string, reparse: Reparser) returns (tokens: seq<Token>)
      requires Valid()
      modifies this
      ensures Valid()
      ensures Outcome(State(), tokens) == AnyStep(old(State()), token, src, reparse)
      ensures atTopLevel == old(atTopLevel)
    {
      tokens := [token];
      match token {
        case Text(text) =>
          if sol && !inNowiki {
            if atTopLevel && StartsWithTableOpen(text) {
              tokens := reparse(text, srcOffset);
              wikiTableNesting := wikiTableNesting + 1;
            } else if AllWhitespace(text) {
              srcOffset := Some(OffsetOrZero(srcOffset) + |text|);
            } else {
              ClearSOL();
            }
          } else {
            ClearSOL();
          }
        case Comment(_, tsr) =>
          srcOffset := RangeEnd(tsr);
        case SelfClosing(tag) =>
          if tag.name == "meta" && !tag.isHTML {
            srcOffset := RangeEnd(tag.tsr);
          } else {
            ClearSOL();
          }
        case StartTag(tag) =>
          if IsNowikiMarker(tag) {
            inNowiki := true;
          } else if atTopLevel && !tag.isHTML {
            if tag.name == "table" {
              wikiTableNesting := wikiTableNesting + 1;
            } else if wikiTableNesting == 0 && IsCellOrRow(tag.name) {
              tokens := [ConvertTokenToString(token, src)];
            }
          }
          ClearSOL();
        case EndTag(tag) =>
          if IsNowikiMarker(tag) {
            inNowiki := false;
          } else if atTopLevel && !tag.isHTML && tag.name == "table" {
            if wikiTableNesting > 0 {
              wikiTableNesting := wikiTableNesting - 1;
            } else {
              tokens := [ConvertTokenToString(token, src)];
            }
          }
          ClearSOL();
        case Newline(_) =>
        case EndOfInput(_) =>
      }
    }
  }
}
