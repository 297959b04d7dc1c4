/** From chunks to a regular expression, and what that accepts in terms of path segments. */
module PatternCompiler {
  import opened PatternParser
  import opened Regexes

  const SEGMENT := "[^\\/]+"

  /** The text a chunk's segments must match. */
  function Subpattern(c: Chunk): string {
    if c.pattern == "" then SEGMENT else c.pattern
  }

  function Below(c: Chunk): Re {
    Cat(Slash, Text(Subpattern(c)))
  }

  function MoreBelow(c: Chunk): Re {
    Star(NonCapture(Below(c)))
  }

  function ChunkRe(c: Chunk): Re {
    match (c.kind, c.modifier)
    case (Unknown, _) => Epsilon
    case (Dynamic, Single) => Cat(Slash, Group(c.key, Text(Subpattern(c))))
    case (Dynamic, Optional) => Opt(NonCapture(Cat(Slash, Group(c.key, Text(Subpattern(c))))))
    case (Dynamic, OneOrMore) => Cat(Slash, Group(c.key, Cat(NonCapture(Text(Subpattern(c))), MoreBelow(c))))
    case (Dynamic, ZeroOrMore) => Opt(NonCapture(Cat(Slash, Group(c.key, Cat(Text(Subpattern(c)), MoreBelow(c))))))
    case (_, Single) => Below(c)
    case (_, Optional) => Opt(NonCapture(Below(c)))
    case (_, OneOrMore) => Cat(Below(c), MoreBelow(c))
    case (_, ZeroOrMore) => Opt(NonCapture(Cat(Below(c), MoreBelow(c))))
  }

  function Body(chunks: seq<Chunk>): Re {
    if |chunks| == 0 then Epsilon else Cat(ChunkRe(chunks[0]), Body(chunks[1..]))
  }

  function Whole(chunks: seq<Chunk>): Re {
    Cat(Body(chunks), Opt(Slash))
  }

  /** The text emitted for a static or wildcard chunk. */
  function SegmentText(c: Chunk): string {
    match c.modifier
    case Single => "\\/" + c.pattern
    case Optional => "(?:\\/" + c.pattern + ")?"
    case OneOrMore => "\\/" + c.pattern + "(?:\\/" + c.pattern + ")*"
    case ZeroOrMore => "(?:\\/" + c.pattern + "(?:\\/" + c.pattern + ")*)?"
  }

  /** The text emitted for a dynamic chunk. */
  function NamedText(c: Chunk): string {
    match c.modifier
    case Single => "\\/(?P<" + c.key + ">" + c.pattern + ")"
    case Optional => "(?:\\/(?P<" + c.key + ">" + c.pattern + "))?"
    case OneOrMore => "\\/(?P<" + c.key + ">(?:" + c.pattern + ")(?:\\/" + c.pattern + ")*)"
    case ZeroOrMore => "(?:\\/(?P<" + c.key + ">" + c.pattern + "(?:\\/" + c.pattern + ")*))?"
  }

  lemma ShowBelow(c: Chunk)
    ensures Show(Below(c)) == "\\/" + Subpattern(c)
    ensures Show(MoreBelow(c)) == "(?:\\/" + Subpattern(c) + ")*"
  {
    assert "(?:" + ("\\/" + Subpattern(c)) + ")" + "*" == "(?:\\/" + Subpattern(c) + ")*";
  }

  lemma ShowSegment(c: Chunk)
    requires c.pattern != "" && (c.kind.Static? || c.kind.Wildcard?)
    ensures Show(ChunkRe(c)) == SegmentText(c)
  {
    ShowBelow(c);
    var p := c.pattern;
    match c.modifier {
      case Single =>
      case Optional => assert "(?:" + ("\\/" + p) + ")" + "?" == SegmentText(c);
      case OneOrMore => assert "\\/" + p + ("(?:\\/" + p + ")*") == SegmentText(c);
      case ZeroOrMore =>
        assert Show(Cat(Below(c), MoreBelow(c))) == "\\/" + p + ("(?:\\/" + p + ")*");
        assert "(?:" + ("\\/" + p + ("(?:\\/" + p + ")*")) + ")" + "?" == SegmentText(c);
    }
  }

  lemma ShowNamed(c: Chunk)
    requires c.pattern != "" && c.kind.Dynamic?
    ensures Show(ChunkRe(c)) == NamedText(c)
  {
    match c.modifier {
      case Single => ShowNamedOnce(c);
      case Optional => ShowNamedOnce(c);
      case OneOrMore => ShowNamedOnwards(c);
      case ZeroOrMore => ShowNamedMany(c);
    }
  }

  lemma ShowNamedOnce(c: Chunk)
    requires c.pattern != "" && c.kind.Dynamic? && (c.modifier.Single? || c.modifier.Optional?)
    ensures Show(ChunkRe(c)) == NamedText(c)
  {
    var k, p := c.key, c.pattern;
    var named := "\\/" + ("(?P<" + k + ">" + p + ")");
    assert Show(Cat(Slash, Group(k, Text(p)))) == named by {
      assert Show(Group(k, Text(p))) == "(?P<" + k + ">" + p + ")";
    }
    assert named == "\\/(?P<" + k + ">" + p + ")";
    assert "(?:" + named + ")" + "?" == "(?:\\/(?P<" + k + ">" + p + "))?";
  }

  lemma ShowNamedOnwards(c: Chunk)
    requires c.pattern != "" && c.kind.Dynamic? && c.modifier.OneOrMore?
    ensures Show(ChunkRe(c)) == NamedText(c)
  {
    var k, p, more := c.key, c.pattern, "(?:\\/" + c.pattern + ")*";
    ShowBelow(c);
    var inner := Cat(NonCapture(Text(p)), MoreBelow(c));
    assert Show(inner) == "(?:" + p + ")" + more;
    assert Show(Group(k, inner)) == "(?P<" + k + ">" + ("(?:" + p + ")" + more) + ")";
    assert "\\/" + ("(?P<" + k + ">" + ("(?:" + p + ")" + more) + ")") == NamedText(c);
  }

  lemma ShowOptional(re: Re)
    ensures Show(Opt(NonCapture(re))) == "(?:" + Show(re) + ")?"
  {}

  /** The same text, put together in two ways. */
  lemma ManyText(k: string, p: string)
    ensures "(?:" + ("\\/" + ("(?P<" + k + ">" + (p + ("(?:\\/" + p + ")*")) + ")")) + ")?"
            == "(?:\\/(?P<" + k + ">" + p + "(?:\\/" + p + ")*))?"
  {}

  lemma ShowNamedMany(c: Chunk)
    requires c.pattern != "" && c.kind.Dynamic? && c.modifier.ZeroOrMore?
    ensures Show(ChunkRe(c)) == NamedText(c)
  {
    var k, p := c.key, c.pattern;
    ShowBelow(c);
    var inner := Cat(Text(p), MoreBelow(c));
    assert Show(inner) == p + ("(?:\\/" + p + ")*");
    assert Show(Group(k, inner)) == "(?P<" + k + ">" + (p + ("(?:\\/" + p + ")*")) + ")";
    assert Show(Cat(Slash, Group(k, inner))) == "\\/" + Show(Group(k, inner));
    ShowOptional(Cat(Slash, Group(k, inner)));
    ManyText(k, p);
  }

  /** The texts of all kinds and modifiers, as they are written out. */
  lemma EmittedTexts(k: string, p: string)
    requires p != ""
    ensures forall kind :: kind == Static || kind == Wildcard ==>
              && Show(ChunkRe(Chunk(kind, Single, k, p))) == "\\/" + p
              && Show(ChunkRe(Chunk(kind, Optional, k, p))) == "(?:\\/" + p + ")?"
              && Show(ChunkRe(Chunk(kind, OneOrMore, k, p))) == "\\/" + p + "(?:\\/" + p + ")*"
              && Show(ChunkRe(Chunk(kind, ZeroOrMore, k, p))) == "(?:\\/" + p + "(?:\\/" + p + ")*)?"
    ensures Show(ChunkRe(Chunk(Dynamic, Single, k, p))) == "\\/(?P<" + k + ">" + p + ")"
    ensures Show(ChunkRe(Chunk(Dynamic, Optional, k, p))) == "(?:\\/(?P<" + k + ">" + p + "))?"
    ensures Show(ChunkRe(Chunk(Dynamic, OneOrMore, k, p))) == "\\/(?P<" + k + ">(?:" + p + ")(?:\\/" + p + ")*)"
    ensures Show(ChunkRe(Chunk(Dynamic, ZeroOrMore, k, p))) == "(?:\\/(?P<" + k + ">" + p + "(?:\\/" + p + ")*))?"
  {
    forall kind, m | kind == Static || kind == Wildcard
      ensures Show(ChunkRe(Chunk(kind, m, k, p))) == SegmentText(Chunk(kind, m, k, p))
    {
      ShowSegment(Chunk(kind, m, k, p));
    }
    forall m ensures Show(ChunkRe(Chunk(Dynamic, m, k, p))) == NamedText(Chunk(Dynamic, m, k, p)) {
      ShowNamed(Chunk(Dynamic, m, k, p));
    }
  }

  /** A chunk without text stands for one segment of any runes but the slash; an empty chunk adds nothing. */
  lemma DefaultTexts(c: Chunk)
    requires c.pattern == ""
    ensures ChunkRe(c) == if c.kind.Unknown? then Epsilon else ChunkRe(c.(pattern := "[^\\/]+"))
    ensures Show(Epsilon) == ""
  {}

  method RegExpFromChunks(chunks: seq<Chunk>) returns (text: string)
    ensures text == "^" + Show(Whole(chunks)) + "$"
  {
    text := "^";
    var n := 0;
    while n < |chunks|
      invariant n <= |chunks|
      invariant text + Show(Body(chunks[n..])) == "^" + Show(Body(chunks))
    {
      ghost var before := text;
      var emitted := EmitChunk(chunks[n]);
      text := text + emitted;
      assert chunks[n..][1..] == chunks[n + 1..];
      assert before + (emitted + Show(Body(chunks[n + 1..]))) == text + Show(Body(chunks[n + 1..]));
      n := n + 1;
    }
    assert Show(Whole(chunks)) == Show(Body(chunks)) + "\\/?" by { assert Show(Opt(Slash)) == "\\/?"; }
    assert text + "" == text && "^" + Show(Body(chunks)) + "\\/?$" == "^" + (Show(Body(chunks)) + "\\/?") + "$";
    text := text + "\\/?$";
  }

  method EmitChunk(c: Chunk) returns (text: string)
    ensures text == Show(ChunkRe(c))
  {
    var d := c;
    if d.pattern == "" { d := d.(pattern := SEGMENT); }
    assert ChunkRe(d) == ChunkRe(c);
    match d.kind {
      case Static =>
        ShowSegment(d);
        text := SegmentText(d);
      case Wildcard =>
        ShowSegment(d);
        text := SegmentText(d);
      case Dynamic =>
        ShowNamed(d);
        text := NamedText(d);
      case Unknown => text := "";
    }
  }
}
