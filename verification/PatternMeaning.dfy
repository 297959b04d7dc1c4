/** What a compiled pattern accepts and captures: each chunk takes as many path segments as its modifier allows. */
module PatternMeaning {
  import opened Wrappers
  import opened PatternParser
  import opened Regexes
  import opened PatternCompiler

  predicate Allows(m: ChunkModifier, segments: nat) {
    match m
    case Single => segments == 1
    case Optional => segments <= 1
    case OneOrMore => segments >= 1
    case ZeroOrMore => true
  }

  /** The segments a chunk can take. */
  predicate Fits(lang: Language, c: Chunk, part: seq<string>) {
    if c.kind.Unknown? then part == []
    else Allows(c.modifier, |part|) && forall i :: 0 <= i < |part| ==> InLanguage(lang, Subpattern(c), part[i])
  }

  function Join(segments: seq<string>): string {
    if |segments| == 0 then "" else "/" + segments[0] + Join(segments[1..])
  }

  /** What a named chunk captures: its segments with the slashes between them, or nothing. */
  function Capture(c: Chunk, part: seq<string>): seq<Option<string>> {
    if !c.kind.Dynamic? then []
    else if |part| == 0 then [None]
    else [Some(part[0] + Join(part[1..]))]
  }

  predicate Divided(lang: Language, chunks: seq<Chunk>, parts: seq<seq<string>>) {
    |parts| == |chunks| && forall i :: 0 <= i < |chunks| ==> Fits(lang, chunks[i], parts[i])
  }

  function JoinParts(parts: seq<seq<string>>): string {
    if |parts| == 0 then "" else Join(parts[0]) + JoinParts(parts[1..])
  }

  function Captures(chunks: seq<Chunk>, parts: seq<seq<string>>): seq<Option<string>>
    requires |parts| == |chunks|
  {
    if |chunks| == 0 then [] else Capture(chunks[0], parts[0]) + Captures(chunks[1..], parts[1..])
  }

  // ---- One segment, any number of segments

  lemma {:induction false} BelowMeans(lang: Language, c: Chunk, word: string, captures: seq<Option<string>>)
    ensures Accepts(lang, Below(c), word, captures) <==>
              |word| > 0 && word[0] == '/' && InLanguage(lang, Subpattern(c), word[1..]) && captures == []
  {
    if Accepts(lang, Below(c), word, captures) {
      BeforeSlash(lang, Text(Subpattern(c)), word, captures);
    }
    if |word| > 0 && word[0] == '/' && InLanguage(lang, Subpattern(c), word[1..]) && captures == [] {
      AfterSlash(lang, Text(Subpattern(c)), word[1..], []);
      assert "/" + word[1..] == word;
    }
  }

  lemma {:induction false} MoreAccepts(lang: Language, c: Chunk, segments: seq<string>)
    requires forall i :: 0 <= i < |segments| ==> InLanguage(lang, Subpattern(c), segments[i])
    ensures Accepts(lang, MoreBelow(c), Join(segments), [])
    decreases |segments|
  {
    if |segments| > 0 {
      MoreAccepts(lang, c, segments[1..]);
      var word, first := Join(segments), "/" + segments[0];
      BelowMeans(lang, c, first, []);
      assert first[1..] == segments[0] && word[..|first|] == first && word[|first|..] == Join(segments[1..]);
      assert Accepts(lang, NonCapture(Below(c)), word[..|first|], []);
      assert OnceMore(lang, MoreBelow(c), word, |first|);
    }
  }

  lemma {:induction false} MoreSegments(lang: Language, c: Chunk, word: string, captures: seq<Option<string>>)
    returns (segments: seq<string>)
    requires Accepts(lang, MoreBelow(c), word, captures)
    ensures captures == [] && Join(segments) == word
    ensures forall i :: 0 <= i < |segments| ==> InLanguage(lang, Subpattern(c), segments[i])
    decreases |word|
  {
    if word == "" {
      segments := [];
    } else {
      var i: nat :| OnceMore(lang, MoreBelow(c), word, i);
      assert Accepts(lang, NonCapture(Below(c)), word[..i], []);
      BelowMeans(lang, c, word[..i], []);
      var more := MoreSegments(lang, c, word[i..], []);
      segments := [word[..i][1..]] + more;
      assert segments[1..] == more && word == word[..i] + word[i..] && "/" + word[..i][1..] == word[..i];
    }
  }

  // ---- At least one segment, with and without a group

  /** A first segment and any further ones, as the repeating modifiers emit it. */
  function Run(c: Chunk): Re {
    Cat(Below(c), MoreBelow(c))
  }

  lemma NothingTwice()
    ensures var nothing: seq<Option<string>> := []; nothing + nothing == nothing
  {}

  lemma {:induction false} RunAccepts(lang: Language, c: Chunk, part: seq<string>)
    requires |part| > 0 && forall i :: 0 <= i < |part| ==> InLanguage(lang, Subpattern(c), part[i])
    ensures Accepts(lang, Run(c), Join(part), [])
  {
    BelowMeans(lang, c, "/" + part[0], []);
    assert ("/" + part[0])[1..] == part[0];
    MoreAccepts(lang, c, part[1..]);
    Joined(lang, Below(c), MoreBelow(c), "/" + part[0], Join(part[1..]), [], []);
    NothingTwice();
  }

  lemma {:induction false} RunSegments(lang: Language, c: Chunk, word: string, captures: seq<Option<string>>)
    returns (part: seq<string>)
    requires Accepts(lang, Run(c), word, captures)
    ensures captures == [] && |part| > 0 && Join(part) == word
    ensures forall i :: 0 <= i < |part| ==> InLanguage(lang, Subpattern(c), part[i])
  {
    var i, j := Parted(lang, Below(c), MoreBelow(c), word, captures);
    BelowMeans(lang, c, word[..i], captures[..j]);
    var more := MoreSegments(lang, c, word[i..], captures[j..]);
    part := [word[..i][1..]] + more;
    assert part[1..] == more && "/" + word[..i][1..] == word[..i];
  }

  /** A word in the language of the text, and any further segments. */
  ghost predicate IsRun(lang: Language, c: Chunk, word: string, part: seq<string>) {
    && |part| > 0 && word == part[0] + Join(part[1..])
    && forall i :: 0 <= i < |part| ==> InLanguage(lang, Subpattern(c), part[i])
  }

  /** The group of a named chunk: one segment, or a first one, grouped or not, and further ones. */
  function Named(c: Chunk): Re {
    match c.modifier
    case OneOrMore => Cat(NonCapture(Text(Subpattern(c))), MoreBelow(c))
    case ZeroOrMore => Cat(Text(Subpattern(c)), MoreBelow(c))
    case _ => Text(Subpattern(c))
  }

  predicate Repeats(m: ChunkModifier) {
    m.OneOrMore? || m.ZeroOrMore?
  }

  /** The first segment inside a group, in parentheses for one of the repeating modifiers. */
  function First(c: Chunk): Re {
    if c.modifier.OneOrMore? then NonCapture(Text(Subpattern(c))) else Text(Subpattern(c))
  }

  lemma {:induction false} FirstMeans(lang: Language, c: Chunk, word: string, captures: seq<Option<string>>)
    ensures Accepts(lang, First(c), word, captures) <==> InLanguage(lang, Subpattern(c), word) && captures == []
  {
    assert Accepts(lang, Text(Subpattern(c)), word, captures) <==>
        InLanguage(lang, Subpattern(c), word) && captures == [];
  }

  lemma {:induction false} NamedAccepts(lang: Language, c: Chunk, word: string, part: seq<string>)
    requires IsRun(lang, c, word, part) && (!Repeats(c.modifier) ==> |part| == 1)
    ensures Accepts(lang, Named(c), word, [])
  {
    if Repeats(c.modifier) {
      MoreAccepts(lang, c, part[1..]);
      FirstMeans(lang, c, part[0], []);
      Joined(lang, First(c), MoreBelow(c), part[0], Join(part[1..]), [], []);
      NothingTwice();
    } else {
      assert word == part[0];
    }
  }

  lemma {:induction false} NamedRun(lang: Language, c: Chunk, word: string, captures: seq<Option<string>>)
    returns (part: seq<string>)
    requires Accepts(lang, Cat(First(c), MoreBelow(c)), word, captures)
    ensures captures == [] && IsRun(lang, c, word, part)
  {
    var i, j := Parted(lang, First(c), MoreBelow(c), word, captures);
    FirstMeans(lang, c, word[..i], captures[..j]);
    var more := MoreSegments(lang, c, word[i..], captures[j..]);
    part := [word[..i]] + more;
    assert part[1..] == more;
  }

  lemma {:induction false} NamedSegments(lang: Language, c: Chunk, word: string, captures: seq<Option<string>>)
    returns (part: seq<string>)
    requires Accepts(lang, Named(c), word, captures)
    ensures captures == [] && IsRun(lang, c, word, part) && (!Repeats(c.modifier) ==> |part| == 1)
  {
    if Repeats(c.modifier) {
      part := NamedRun(lang, c, word, captures);
    } else {
      part := [word];
      assert word == word + "";
    }
  }

  lemma {:induction false} GroupAccepts(lang: Language, c: Chunk, part: seq<string>)
    requires |part| > 0 && (!Repeats(c.modifier) ==> |part| == 1)
    requires forall i :: 0 <= i < |part| ==> InLanguage(lang, Subpattern(c), part[i])
    ensures Accepts(lang, Cat(Slash, Group(c.key, Named(c))), Join(part), [Some(part[0] + Join(part[1..]))])
  {
    var word := part[0] + Join(part[1..]);
    assert "/" + word == Join(part);
    NamedAccepts(lang, c, word, part);
    GroupOf(lang, c.key, Named(c), word, Join(part));
  }

  lemma {:induction false} GroupOf(lang: Language, key: string, re: Re, word: string, path: string)
    requires Accepts(lang, re, word, []) && path == "/" + word
    ensures Accepts(lang, Cat(Slash, Group(key, re)), path, [Some(word)])
  {
    Grouped(lang, key, re, word);
    AfterSlash(lang, Group(key, re), word, [Some(word)]);
  }

  lemma {:induction false} GroupSegments(lang: Language, c: Chunk, word: string, captures: seq<Option<string>>)
    returns (part: seq<string>)
    requires Accepts(lang, Cat(Slash, Group(c.key, Named(c))), word, captures)
    ensures |part| > 0 && (!Repeats(c.modifier) ==> |part| == 1) && Join(part) == word
    ensures forall i :: 0 <= i < |part| ==> InLanguage(lang, Subpattern(c), part[i])
    ensures captures == [Some(part[0] + Join(part[1..]))]
  {
    BeforeSlash(lang, Group(c.key, Named(c)), word, captures);
    part := NamedSegments(lang, c, word[1..], captures[1..]);
    assert captures == [captures[0]] + captures[1..];
    assert "/" + (part[0] + Join(part[1..])) == Join(part);
  }

  // ---- One chunk

  lemma ChunkKeys(c: Chunk)
    ensures Keys(ChunkRe(c)) == if c.kind.Dynamic? then [c.key] else []
  {
    assert Keys(Below(c)) == [] && Keys(MoreBelow(c)) == [] && Keys(Run(c)) == [];
    assert Keys(Named(c)) == [] by {
      assert Keys(Text(Subpattern(c))) == [] && Keys(NonCapture(Text(Subpattern(c)))) == [];
    }
    assert Keys(Group(c.key, Named(c))) == [c.key] && Keys(Cat(Slash, Group(c.key, Named(c)))) == [c.key];
  }

  /** The part of a chunk that the optional modifiers make optional. */
  function Inner(c: Chunk): Re {
    if c.kind.Dynamic? then Cat(Slash, Group(c.key, Named(c)))
    else if Repeats(c.modifier) then Run(c)
    else Below(c)
  }

  lemma ChunkForm(c: Chunk)
    requires !c.kind.Unknown?
    ensures ChunkRe(c) == if c.modifier.Optional? || c.modifier.ZeroOrMore? then Opt(NonCapture(Inner(c))) else Inner(c)
  {}

  lemma {:induction false} InnerAccepts(lang: Language, c: Chunk, part: seq<string>)
    requires !c.kind.Unknown? && |part| > 0 && Fits(lang, c, part)
    ensures Accepts(lang, Inner(c), Join(part), Capture(c, part))
  {
    if c.kind.Dynamic? {
      GroupAccepts(lang, c, part);
    } else if Repeats(c.modifier) {
      RunAccepts(lang, c, part);
    } else {
      BelowMeans(lang, c, "/" + part[0], []);
      assert ("/" + part[0])[1..] == part[0] && Join(part) == "/" + part[0] + "" == "/" + part[0];
    }
  }

  lemma {:induction false} InnerSegments(lang: Language, c: Chunk, word: string, captures: seq<Option<string>>)
    returns (part: seq<string>)
    requires !c.kind.Unknown? && Accepts(lang, Inner(c), word, captures)
    ensures |part| > 0 && Fits(lang, c, part) && Join(part) == word && Capture(c, part) == captures
  {
    if c.kind.Dynamic? {
      part := GroupSegments(lang, c, word, captures);
    } else if Repeats(c.modifier) {
      part := RunSegments(lang, c, word, captures);
    } else {
      BelowMeans(lang, c, word, captures);
      part := [word[1..]];
      assert Join(part) == "/" + word[1..] + "" == word;
    }
  }

  lemma {:induction false} ChunkAccepts(lang: Language, c: Chunk, part: seq<string>)
    requires Fits(lang, c, part)
    ensures Accepts(lang, ChunkRe(c), Join(part), Capture(c, part))
  {
    if !c.kind.Unknown? {
      ChunkForm(c);
      if |part| > 0 {
        InnerAccepts(lang, c, part);
        assert Accepts(lang, NonCapture(Inner(c)), Join(part), Capture(c, part));
      } else {
        ChunkKeys(c);
      }
    }
  }

  lemma {:induction false} ChunkSegments(lang: Language, c: Chunk, word: string, captures: seq<Option<string>>)
    returns (part: seq<string>)
    requires Accepts(lang, ChunkRe(c), word, captures)
    ensures Fits(lang, c, part) && Join(part) == word && Capture(c, part) == captures
  {
    if c.kind.Unknown? {
      part := [];
    } else {
      ChunkForm(c);
      ChunkKeys(c);
      if Accepts(lang, Inner(c), word, captures) {
        part := InnerSegments(lang, c, word, captures);
      } else {
        assert !Accepts(lang, NonCapture(Inner(c)), word, captures);
        part := [];
      }
    }
  }

  // ---- Whole patterns

  lemma {:induction false} BodyAccepts(lang: Language, chunks: seq<Chunk>, parts: seq<seq<string>>)
    requires Divided(lang, chunks, parts)
    ensures Accepts(lang, Body(chunks), JoinParts(parts), Captures(chunks, parts))
    decreases |chunks|
  {
    if |chunks| > 0 {
      ChunkAccepts(lang, chunks[0], parts[0]);
      BodyAccepts(lang, chunks[1..], parts[1..]);
      Joined(lang, ChunkRe(chunks[0]), Body(chunks[1..]), Join(parts[0]), JoinParts(parts[1..]),
             Capture(chunks[0], parts[0]), Captures(chunks[1..], parts[1..]));
    }
  }

  lemma {:induction false} BodyParts(lang: Language, chunks: seq<Chunk>, word: string, captures: seq<Option<string>>)
    returns (parts: seq<seq<string>>)
    requires Accepts(lang, Body(chunks), word, captures)
    ensures Divided(lang, chunks, parts) && JoinParts(parts) == word && Captures(chunks, parts) == captures
    decreases |chunks|
  {
    if |chunks| == 0 {
      parts := [];
    } else {
      var i, j := Parted(lang, ChunkRe(chunks[0]), Body(chunks[1..]), word, captures);
      var part := ChunkSegments(lang, chunks[0], word[..i], captures[..j]);
      var rest := BodyParts(lang, chunks[1..], word[i..], captures[j..]);
      parts := [part] + rest;
      FirstAndRest(lang, chunks, part, rest);
    }
  }

  lemma {:induction false} FirstAndRest(lang: Language, chunks: seq<Chunk>, part: seq<string>, rest: seq<seq<string>>)
    requires |chunks| > 0 && Fits(lang, chunks[0], part) && Divided(lang, chunks[1..], rest)
    ensures var parts := [part] + rest;
            && Divided(lang, chunks, parts) && JoinParts(parts) == Join(part) + JoinParts(rest)
            && Captures(chunks, parts) == Capture(chunks[0], part) + Captures(chunks[1..], rest)
  {
    assert ([part] + rest)[1..] == rest;
  }

  /** A path divided among the chunks of a pattern, with or without a trailing slash. */
  ghost predicate Splits(lang: Language, chunks: seq<Chunk>, parts: seq<seq<string>>, path: string,
                         captures: seq<Option<string>>) {
    && Divided(lang, chunks, parts) && captures == Captures(chunks, parts)
    && (path == JoinParts(parts) || path == JoinParts(parts) + "/")
  }

  lemma {:induction false} TrailingSlash(lang: Language, word: string, captures: seq<Option<string>>)
    ensures Accepts(lang, Opt(Slash), word, captures) <==> captures == [] && (word == "" || word == "/")
  {
    assert Absent(|Keys(Slash)|) == [];
  }

  lemma {:induction false} WholeAccepts(lang: Language, chunks: seq<Chunk>, parts: seq<seq<string>>, path: string,
                                        captures: seq<Option<string>>)
    requires Splits(lang, chunks, parts, path, captures)
    ensures Accepts(lang, Whole(chunks), path, captures)
  {
    var nothing: seq<Option<string>> := [];
    BodyAccepts(lang, chunks, parts);
    var slash := if path == JoinParts(parts) then "" else "/";
    TrailingSlash(lang, slash, nothing);
    Joined(lang, Body(chunks), Opt(Slash), JoinParts(parts), slash, captures, nothing);
    assert path == JoinParts(parts) + slash && captures + nothing == captures;
  }

  lemma {:induction false} WholeParts(lang: Language, chunks: seq<Chunk>, path: string, captures: seq<Option<string>>)
    returns (parts: seq<seq<string>>)
    requires Accepts(lang, Whole(chunks), path, captures)
    ensures Splits(lang, chunks, parts, path, captures)
  {
    var i, j := Parted(lang, Body(chunks), Opt(Slash), path, captures);
    TrailingSlash(lang, path[i..], captures[j..]);
    parts := BodyParts(lang, chunks, path[..i], captures[..j]);
    assert captures == captures[..j];
  }

  /** Compilation preserves meaning: the emitted expression matches a path, with these captures, exactly if the path
      divides into segments that the chunks take by their modifiers, up to one trailing slash, and each named chunk
      captures the segments it took. */
  lemma {:induction false} CompiledMeaning(lang: Language, chunks: seq<Chunk>, path: string,
                                           captures: seq<Option<string>>)
    ensures Accepts(lang, Whole(chunks), path, captures) <==>
              exists parts :: Splits(lang, chunks, parts, path, captures)
  {
    if Accepts(lang, Whole(chunks), path, captures) {
      var parts := WholeParts(lang, chunks, path, captures);
    }
    if parts :| Splits(lang, chunks, parts, path, captures) {
      WholeAccepts(lang, chunks, parts, path, captures);
    }
  }
}
