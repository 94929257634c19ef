/** The tokens the wikitext tokenizer emits and the patcher inspects, with the
    few JavaScript string operations the patcher relies on. */
module Tokens {

  datatype Option<+T> = None | Some(value: T)

  /** A token's source range (`dataAttribs.tsr`): offsets into the page source,
      `endOffset` exclusive. */
  datatype SourceRange = SourceRange(startOffset: int, endOffset: int)

  /** The data a tag token carries: its name, its attributes and the lexer's
      bookkeeping flags from `dataAttribs`. `isHTML` is `stx === "html"`, i.e.
      the tag was written in HTML syntax rather than wiki syntax. */
  datatype Tag = Tag(
    name: string,
    attribs: map<string, string>,
    tsr: Option<SourceRange>,
    autoInsertedStart: bool,
    autoInsertedEnd: bool,
    isHTML: bool)

  /** A token of the stream: plain text (a JavaScript string), a comment, the
      three tag kinds, and the two marker tokens for newline and end of input. */
  datatype Token =
    | Text(text: string)
    | Comment(value: string, tsr: Option<SourceRange>)
    | StartTag(tag: Tag)
    | EndTag(tag: Tag)
    | SelfClosing(tag: Tag)
    | Newline(tsr: Option<SourceRange>)
    | EndOfInput(tsr: Option<SourceRange>)
  {
    predicate IsTag() {
      StartTag? || EndTag? || SelfClosing?
    }
  }

  /** `token.getAttribute(name)`: the attribute's value, or null when absent. */
  function GetAttribute(tag: Tag, name: string): Option<string> {
    if name in tag.attribs then Some(tag.attribs[name]) else None
  }

  /** True when the tag opens or closes a nowiki region. */
  predicate IsNowikiMarker(tag: Tag) {
    GetAttribute(tag, "typeof") == Some("mw:Nowiki")
  }

  /** `(tsr || [null, null])[1]`: the end of the range, or null without one. */
  function RangeEnd(tsr: Option<SourceRange>): Option<int> {
    match tsr
    case None => None
    case Some(range) => Some(range.endOffset)
  }

  /** JavaScript's `null + n`: a missing offset counts as 0 in an addition. */
  function OffsetOrZero(offset: Option<int>): int {
    match offset
    case None => 0
    case Some(n) => n
  }

  /** The regular expression `/^\{\|/`: the text starts with the table-open marker. */
  predicate StartsWithTableOpen(s: string) {
    |s| >= 2 && s[0] == '{' && s[1] == '|'
  }

  /** A character in JavaScript's `\s` class. */
  predicate IsJsWhitespace(c: char) {
    var n := c as int;
    n == 0x09 || n == 0x0A || n == 0x0B || n == 0x0C || n == 0x0D || n == 0x20 ||
    n == 0xA0 || n == 0x1680 || (0x2000 <= n <= 0x200A) || n == 0x2028 || n == 0x2029 ||
    n == 0x202F || n == 0x205F || n == 0x3000 || n == 0xFEFF
  }

  /** The regular expression `/^\s*$/`: every character is white space. */
  predicate AllWhitespace(s: string) {
    forall i :: 0 <= i < |s| ==> IsJsWhitespace(s[i])
  }

  function Clamp(x: int, n: nat): (r: nat)
    ensures r <= n
    ensures 0 <= x <= n ==> r == x
  {
    if x < 0 then 0 else if x > n then n else x
  }

  /** JavaScript's `s.substring(a, b)`: both ends are clamped to `[0, |s|]` and
      swapped when out of order. */
  function JsSubstring(s: string, a: int, b: int): (r: string)
    ensures |r| <= |s|
    ensures 0 <= a <= b <= |s| ==> r == s[a..b]
    ensures 0 <= b <= a <= |s| ==> r == s[b..a]
  {
    var lo, hi := Clamp(a, |s|), Clamp(b, |s|);
    if lo <= hi then s[lo..hi] else s[hi..lo]
  }
}
