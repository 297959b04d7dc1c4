/** The parser of route patterns: a scan over the runes that fills one chunk per slash. */
module PatternParser {
  import opened Wrappers

  datatype ChunkKind = Unknown | Static | Dynamic | Wildcard

  datatype ChunkModifier = Single | Optional | OneOrMore | ZeroOrMore

  datatype Chunk = Chunk(kind: ChunkKind, modifier: ChunkModifier, key: string, pattern: string)

  const BLANK := Chunk(Unknown, Single, "", "")

  const NO_LEADING_SLASH := "pattern must start with a leading slash"
  const NO_NAME := "dynamic chunks must have a name"
  const SECOND_SUBPATTERN := "pattern chunks cannot contain multiple subpatterns"

  function Prepend(chunks: seq<Chunk>, rest: Result<seq<Chunk>>): Result<seq<Chunk>> {
    match rest
    case Ok(more) => Ok(chunks + more)
    case Err(reason) => Err(reason)
  }

  function Finished(current: Option<Chunk>): seq<Chunk> {
    match current
    case Some(c) => [c]
    case None => []
  }

  /** The position of the first closing parenthesis from `from` on, or the length. */
  function Closing(s: string, from: nat): (j: nat)
    requires from <= |s|
    ensures from <= j <= |s| && (j < |s| ==> s[j] == ')') && forall k :: from <= k < j ==> s[k] != ')'
    decreases |s| - from
  {
    if from == |s| || s[from] == ')' then from else Closing(s, from + 1)
  }

  predicate LastInChunk(rest: string)
    requires |rest| > 0
  {
    |rest| == 1 || rest[1] == '/'
  }

  function WithModifier(c: Chunk, rune: char): Chunk {
    match rune
    case '?' => c.(modifier := Optional)
    case '+' => c.(modifier := OneOrMore)
    case '*' => c.(modifier := ZeroOrMore)
    case _ => c
  }

  function WithRune(c: Chunk, rune: char): Chunk {
    match c.kind
    case Dynamic => c.(key := c.key + [rune])
    case Static => c.(pattern := c.pattern + [rune])
    case _ => c
  }

  /** What the scan makes of the remaining runes, with the chunk it is in. Setting the kind may leave the rune to be
      scanned again. */
  function Scan(rest: string, current: Option<Chunk>): Result<seq<Chunk>>
    decreases |rest|, if current.Some? && current.value.kind.Unknown? then 1 else 0
  {
    if |rest| == 0 then Ok(Finished(current))
    else if rest[0] == '/' then Prepend(Finished(current), Scan(rest[1..], Some(BLANK)))
    else if current.None? then Err(NO_LEADING_SLASH)
    else
      var c := current.value;
      if c.kind.Unknown? then
        if rest[0] == ':' then Scan(rest[1..], Some(c.(kind := Dynamic)))
        else if rest[0] == '*' then Scan(rest[1..], Some(c.(kind := Wildcard)))
        else if rest[0] == '(' then Scan(rest, Some(c.(kind := Wildcard)))
        else Scan(rest, Some(c.(kind := Static)))
      else if rest[0] == '(' then
        if c.kind.Dynamic? && c.key == "" then Err(NO_NAME)
        else if c.pattern != "" then Err(SECOND_SUBPATTERN)
        else
          var j := Closing(rest, 1);
          if j < |rest| then Scan(rest[j + 1..], Some(c.(pattern := rest[1..j]))) else Scan(rest[1..], current)
      else
        var d := if LastInChunk(rest) then WithModifier(c, rest[0]) else c;
        if LastInChunk(rest) && !d.modifier.Single? then Scan(rest[1..], Some(d))
        else Scan(rest[1..], Some(WithRune(d, rest[0])))
  }

  function Parse(pattern: string): Result<seq<Chunk>> {
    Scan(pattern, None)
  }

  lemma PrependAgain(a: seq<Chunk>, b: seq<Chunk>, rest: Result<seq<Chunk>>)
    ensures Prepend(a, Prepend(b, rest)) == Prepend(a + b, rest)
  {
    if rest.Ok? { assert a + (b + rest.value) == (a + b) + rest.value; }
  }

  lemma PrependNothing(rest: Result<seq<Chunk>>)
    ensures Prepend([], rest) == rest
  {
    if rest.Ok? { assert [] + rest.value == rest.value; }
  }

  lemma {:induction false} ClosingInSuffix(s: string, i: nat, from: nat)
    requires i + from <= |s|
    ensures Closing(s, i + from) == i + Closing(s[i..], from)
    decreases |s| - from
  {
    if i + from < |s| && s[i + from] != ')' {
      ClosingInSuffix(s, i, from + 1);
    }
  }

  method FindClosing(s: string, i: nat) returns (j: nat)
    requires i < |s|
    ensures j == Closing(s, i + 1)
  {
    j := i + 1;
    while j < |s| && s[j] != ')'
      invariant i < j <= |s| && Closing(s, i + 1) == Closing(s, j)
    {
      j := j + 1;
    }
  }

  /** One rune of a chunk: the chunk after it and the position of the last rune read, or a failure. */
  method ReadRune(pattern: string, i: nat, c: Chunk) returns (result: Result<(Chunk, int)>)
    requires i < |pattern| && pattern[i] != '/'
    ensures match result
            case Err(reason) => Scan(pattern[i..], Some(c)) == Err(reason)
            case Ok((d, j)) =>
              && i - 1 <= j < |pattern| && (j == i - 1 ==> c.kind.Unknown? && !d.kind.Unknown?)
              && Scan(pattern[i..], Some(c)) == Scan(pattern[j + 1..], Some(d))
  {
    ghost var rest := pattern[i..];
    assert rest[1..] == pattern[i + 1..];
    var lastInChunk := i + 1 == |pattern| || pattern[i + 1] == '/';
    var rune := pattern[i];
    if c.kind.Unknown? {
      match rune {
        case ':' => return Ok((c.(kind := Dynamic), i));
        case '*' => return Ok((c.(kind := Wildcard), i));
        case '(' => return Ok((c.(kind := Wildcard), i - 1));
        case _ => return Ok((c.(kind := Static), i - 1));
      }
    }
    if rune == '(' {
      if c.kind.Dynamic? && c.key == "" { return Err(NO_NAME); }
      if c.pattern != "" { return Err(SECOND_SUBPATTERN); }
      var j := FindClosing(pattern, i);
      ClosingInSuffix(pattern, i, 1);
      if j < |pattern| {
        assert pattern[i + 1..j] == rest[1..j - i] && pattern[j + 1..] == rest[j - i + 1..];
        return Ok((c.(pattern := pattern[i + 1..j]), j));
      }
      return Ok((c, i));
    }
    var d := c;
    if lastInChunk {
      d := WithModifier(d, rune);
      if !d.modifier.Single? { return Ok((d, i)); }
    }
    result := Ok((WithRune(d, rune), i));
  }

  /** The loop of the parser; reading a rune may step the position back once, to read it again with the kind known. */
  method ParsePatternChunks(pattern: string) returns (result: Result<seq<Chunk>>)
    ensures result == Parse(pattern)
  {
    var current: Option<Chunk>, chunks: seq<Chunk> := None, [];
    var i: int := 0;
    assert pattern[0..] == pattern;
    PrependNothing(Parse(pattern));
    while i < |pattern|
      invariant 0 <= i <= |pattern|
      invariant Parse(pattern) == Prepend(chunks, Scan(pattern[i..], current))
      decreases |pattern| - i, if current.Some? && current.value.kind.Unknown? then 1 else 0
    {
      if pattern[i] == '/' {
        assert pattern[i..][1..] == pattern[i + 1..];
        PrependAgain(chunks, Finished(current), Scan(pattern[i + 1..], Some(BLANK)));
        if current.Some? { chunks := chunks + [current.value]; } else { assert chunks + [] == chunks; }
        current := Some(BLANK);
      } else if current.None? {
        return Err(NO_LEADING_SLASH);
      } else {
        var read := ReadRune(pattern, i, current.value);
        match read {
          case Err(reason) => return Err(reason);
          case Ok((d, j)) => current, i := Some(d), j;
        }
      }
      i := i + 1;
    }
    if current.Some? { chunks := chunks + [current.value]; } else { assert chunks + [] == chunks; }
    result := Ok(chunks);
  }
}
