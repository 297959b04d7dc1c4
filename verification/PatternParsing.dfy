/** The parser undoes the canonical rendering of every well-formed chunk list. */
module PatternParsing {
  import opened Wrappers
  import opened PatternParser

  function Mark(m: ChunkModifier): string {
    match m
    case Single => ""
    case Optional => "?"
    case OneOrMore => "+"
    case ZeroOrMore => "*"
  }

  function Render(c: Chunk): string {
    match c.kind
    case Unknown => "/"
    case Static => "/" + c.pattern + Mark(c.modifier)
    case Dynamic => "/:" + c.key + (if c.pattern == "" then "" else "(" + c.pattern + ")") + Mark(c.modifier)
    case Wildcard => (if c.pattern == "" then "/*" else "/(" + c.pattern + ")") + Mark(c.modifier)
  }

  function RenderAll(chunks: seq<Chunk>): string {
    if |chunks| == 0 then "" else Render(chunks[0]) + RenderAll(chunks[1..])
  }

  predicate IsMark(rune: char) {
    rune == '?' || rune == '+' || rune == '*'
  }

  predicate Plain(text: string) {
    '/' !in text && '(' !in text
  }

  /** Text that is not read as ending in a modifier. */
  predicate Unmarked(text: string) {
    |text| > 0 ==> !IsMark(text[|text| - 1])
  }

  predicate WellFormed(c: Chunk) {
    match c.kind
    case Unknown => c == BLANK
    case Static =>
      && c.key == "" && Plain(c.pattern) && (c.modifier.Single? ==> Unmarked(c.pattern))
      && (if c.pattern == "" then c.modifier.Optional?
          || c.modifier.OneOrMore? else c.pattern[0] != ':' && c.pattern[0] != '*')
    case Dynamic =>
      && Plain(c.key) && ')' !in c.pattern && (c.pattern != "" ==> c.key != "")
      && (c.pattern == "" && c.modifier.Single? ==> Unmarked(c.key))
    case Wildcard => c.key == "" && ')' !in c.pattern
  }

  predicate AtChunkEnd(rest: string) {
    |rest| == 0 || rest[0] == '/'
  }

  function WithText(c: Chunk, text: string): Chunk {
    match c.kind
    case Dynamic => c.(key := c.key + text)
    case Static => c.(pattern := c.pattern + text)
    case _ => c
  }

  lemma {:induction false} ScanText(c: Chunk, text: string, rest: string)
    requires (c.kind.Static? || c.kind.Dynamic?) && c.modifier.Single? && Plain(text)
    requires !AtChunkEnd(rest) || Unmarked(text)
    ensures Scan(text + rest, Some(c)) == Scan(rest, Some(WithText(c, text)))
    decreases |text|
  {
    if |text| == 0 {
      assert text + rest == rest && WithText(c, text) == c;
    } else {
      var all := text + rest;
      assert all[0] == text[0] && all[1..] == text[1..] + rest;
      assert |text| > 1 ==> all[1] == text[1] && text[1] in text;
      ScanText(WithRune(c, text[0]), text[1..], rest);
      assert [text[0]] + text[1..] == text;
      if c.kind.Static? {
        assert c.pattern + [text[0]] + text[1..] == c.pattern + text;
      } else {
        assert c.key + [text[0]] + text[1..] == c.key + text;
      }
    }
  }

  lemma ScanMark(c: Chunk, m: ChunkModifier, rest: string)
    requires !c.kind.Unknown? && c.modifier.Single? && AtChunkEnd(rest)
    ensures Scan(Mark(m) + rest, Some(c)) == Scan(rest, Some(c.(modifier := m)))
  {
    var all := Mark(m) + rest;
    if m.Single? {
      assert all == rest;
    } else {
      assert all[1..] == rest;
    }
  }

  lemma {:induction false} ClosingAt(s: string, from: nat, at: nat)
    requires from <= at < |s| && s[at] == ')' && forall k :: from <= k < at ==> s[k] != ')'
    ensures Closing(s, from) == at
    decreases at - from
  {
    if from < at { ClosingAt(s, from + 1, at); }
  }

  lemma ScanSubpattern(c: Chunk, subpattern: string, rest: string)
    requires (c.kind.Dynamic? && c.key != "") || c.kind.Wildcard?
    requires c.pattern == "" && ')' !in subpattern
    ensures Scan("(" + subpattern + ")" + rest, Some(c)) == Scan(rest, Some(c.(pattern := subpattern)))
  {
    var all := "(" + subpattern + ")" + rest;
    var j := |subpattern| + 1;
    assert forall k :: 1 <= k < j ==> all[k] == subpattern[k - 1];
    ClosingAt(all, 1, j);
    assert all[1..j] == subpattern && all[j + 1..] == rest;
  }

  lemma ScanStatic(c: Chunk, rest: string)
    requires WellFormed(c) && c.kind.Static? && AtChunkEnd(rest)
    ensures Scan(c.pattern + Mark(c.modifier) + rest, Some(BLANK)) == Scan(rest, Some(c))
  {
    var named := BLANK.(kind := Static);
    var text := Mark(c.modifier) + rest;
    var all := c.pattern + text;
    assert c.pattern + Mark(c.modifier) + rest == all;
    assert |c.pattern| > 0 ==> all[0] == c.pattern[0] && c.pattern[0] in c.pattern;
    assert Scan(all, Some(BLANK)) == Scan(all, Some(named));
    ScanText(named, c.pattern, text);
    assert WithText(named, c.pattern) == named.(pattern := c.pattern);
    ScanMark(WithText(named, c.pattern), c.modifier, rest);
  }

  lemma ScanNamed(c: Chunk, rest: string)
    requires WellFormed(c) && c.kind.Dynamic? && c.pattern == "" && AtChunkEnd(rest)
    ensures Scan(c.key + (Mark(c.modifier) + rest), Some(BLANK.(kind := Dynamic))) == Scan(rest, Some(c))
  {
    var named := BLANK.(kind := Dynamic);
    ScanText(named, c.key, Mark(c.modifier) + rest);
    assert WithText(named, c.key) == named.(key := c.key);
    ScanMark(named.(key := c.key), c.modifier, rest);
  }

  lemma ScanNamedGroup(c: Chunk, rest: string)
    requires WellFormed(c) && c.kind.Dynamic? && c.pattern != "" && AtChunkEnd(rest)
    ensures Scan(c.key + ("(" + c.pattern + ")" + (Mark(c.modifier) + rest)), Some(BLANK.(kind := Dynamic)))
            == Scan(rest, Some(c))
  {
    var named, text := BLANK.(kind := Dynamic), Mark(c.modifier) + rest;
    ScanText(named, c.key, "(" + c.pattern + ")" + text);
    assert WithText(named, c.key) == named.(key := c.key);
    ScanSubpattern(named.(key := c.key), c.pattern, text);
    ScanMark(named.(key := c.key, pattern := c.pattern), c.modifier, rest);
  }

  lemma ScanDynamic(c: Chunk, rest: string)
    requires WellFormed(c) && c.kind.Dynamic? && AtChunkEnd(rest)
    ensures Scan(Render(c)[1..] + rest, Some(BLANK)) == Scan(rest, Some(c))
  {
    var all := Render(c)[1..] + rest;
    assert all[0] == ':';
    if c.pattern == "" {
      assert all[1..] == c.key + (Mark(c.modifier) + rest);
      ScanNamed(c, rest);
    } else {
      assert all[1..] == c.key + ("(" + c.pattern + ")" + (Mark(c.modifier) + rest));
      ScanNamedGroup(c, rest);
    }
  }

  lemma ScanWildcard(c: Chunk, rest: string)
    requires WellFormed(c) && c.kind.Wildcard? && AtChunkEnd(rest)
    ensures Scan(Render(c)[1..] + rest, Some(BLANK)) == Scan(rest, Some(c))
  {
    var named := BLANK.(kind := Wildcard);
    var text := Mark(c.modifier) + rest;
    var all := Render(c)[1..] + rest;
    if c.pattern == "" {
      assert all[0] == '*' && all[1..] == text;
    } else {
      assert all == "(" + c.pattern + ")" + text;
      ScanSubpattern(named, c.pattern, text);
    }
    ScanMark(named.(pattern := c.pattern), c.modifier, rest);
  }

  lemma ScanChunk(c: Chunk, rest: string, current: Option<Chunk>)
    requires WellFormed(c) && AtChunkEnd(rest)
    ensures Scan(Render(c) + rest, current) == Prepend(Finished(current), Scan(rest, Some(c)))
  {
    var all := Render(c) + rest;
    assert all[0] == '/' && all[1..] == Render(c)[1..] + rest;
    match c.kind {
      case Unknown => assert all[1..] == rest;
      case Static =>
        assert all[1..] == c.pattern + Mark(c.modifier) + rest;
        ScanStatic(c, rest);
      case Dynamic => ScanDynamic(c, rest);
      case Wildcard => ScanWildcard(c, rest);
    }
  }

  lemma RenderingStarts(chunks: seq<Chunk>)
    ensures AtChunkEnd(RenderAll(chunks))
  {
    if |chunks| > 0 { assert Render(chunks[0])[0] == '/'; }
  }

  lemma {:induction false} ScanRendering(chunks: seq<Chunk>, current: Option<Chunk>)
    requires forall i :: 0 <= i < |chunks| ==> WellFormed(chunks[i])
    ensures Scan(RenderAll(chunks), current) == Ok(Finished(current) + chunks)
    decreases |chunks|
  {
    if |chunks| == 0 {
      assert Finished(current) + chunks == Finished(current);
    } else {
      var first, rest := chunks[0], chunks[1..];
      RenderingStarts(rest);
      ScanChunk(first, RenderAll(rest), current);
      ScanRendering(rest, Some(first));
      assert [first] + rest == chunks;
    }
  }

  predicate AllWellFormed(chunks: seq<Chunk>) {
    forall i :: 0 <= i < |chunks| ==> WellFormed(chunks[i])
  }

  /** Every well-formed chunk list is parsed back from its canonical rendering. */
  lemma ParseUndoesRender(chunks: seq<Chunk>)
    requires AllWellFormed(chunks)
    ensures Parse(RenderAll(chunks)) == Ok(chunks)
  {
    ScanRendering(chunks, None);
    NothingBefore(chunks);
  }

  lemma NothingBefore(chunks: seq<Chunk>)
    ensures Finished(None) + chunks == chunks
  {}
}
