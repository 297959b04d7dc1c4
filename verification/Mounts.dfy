/** Mount paths: what a router mounted with Use is reached by, and what a mounted pattern matches. */
module Mounts {
  import opened Wrappers
  import opened PatternParser
  import opened PatternParsing
  import opened PatternMounting
  import opened Regexes
  import opened PatternCompiler
  import opened PatternMeaning
  import opened PatternRoutes

  const ANYTHING_BELOW := "/**"

  predicate HasSuffix(s: string, suffix: string) {
    |suffix| <= |s| && s[|s| - |suffix|..] == suffix
  }

  function TrimSuffix(s: string, suffix: string): string {
    if HasSuffix(s, suffix) then s[..|s| - |suffix|] else s
  }

  /** The pattern Use binds its handlers to. */
  function MountPath(custom: Option<string>): string {
    match custom
    case None => ANYTHING_BELOW
    case Some(path) => if HasSuffix(path, ANYTHING_BELOW) then path else TrimSuffix(path, "/") + ANYTHING_BELOW
  }

  // ---- A prefix and a pattern below it

  lemma {:induction false} JoinPartsAppend(a: seq<seq<string>>, b: seq<seq<string>>)
    ensures JoinParts(a + b) == JoinParts(a) + JoinParts(b)
    decreases |a|
  {
    if |a| == 0 {
      assert a + b == b && JoinParts(b) == "" + JoinParts(b);
    } else {
      assert (a + b)[1..] == a[1..] + b;
      JoinPartsAppend(a[1..], b);
    }
  }

  lemma {:induction false} CapturesAppend(c: seq<Chunk>, d: seq<Chunk>, a: seq<seq<string>>, b: seq<seq<string>>)
    requires |a| == |c| && |b| == |d|
    ensures Captures(c + d, a + b) == Captures(c, a) + Captures(d, b)
    decreases |c|
  {
    if |c| == 0 {
      assert c + d == d && a + b == b && Captures(d, b) == [] + Captures(d, b);
    } else {
      assert (a + b)[1..] == a[1..] + b && (c + d)[1..] == c[1..] + d;
      CapturesAppend(c[1..], d, a[1..], b);
    }
  }

  /** A path divides into a part the prefix takes and a part the pattern below takes, each with its captures. */
  ghost predicate InTurn(lang: Language, above: seq<Chunk>, below: seq<Chunk>, path: string,
                         captures: seq<Option<string>>) {
    Accepts(lang, Cat(Body(above), Whole(below)), path, captures)
  }

  lemma {:induction false} DividedAppend(lang: Language, c: seq<Chunk>, d: seq<Chunk>, a: seq<seq<string>>,
                                         b: seq<seq<string>>)
    requires |a| == |c| && |b| == |d|
    ensures Divided(lang, c + d, a + b) <==> Divided(lang, c, a) && Divided(lang, d, b)
  {
    if Divided(lang, c + d, a + b) {
      forall i | 0 <= i < |c| ensures Fits(lang, c[i], a[i]) { assert (c + d)[i] == c[i] && (a + b)[i] == a[i]; }
      forall i | 0 <= i < |d| ensures Fits(lang, d[i], b[i]) {
        assert (c + d)[|c| + i] == d[i] && (a + b)[|c| + i] == b[i];
      }
    }
  }

  /** Dividing a path among both is dividing its parts among each. */
  lemma {:induction false} SplitsAppend(lang: Language, c: seq<Chunk>, d: seq<Chunk>, a: seq<seq<string>>,
                                        b: seq<seq<string>>,
                     rest: string, restCaptures: seq<Option<string>>)
    requires |a| == |c| && |b| == |d|
    ensures var both := Splits(lang, c + d, a + b, JoinParts(a) + rest, Captures(c, a) + restCaptures);
            both <==> Divided(lang, c, a) && Splits(lang, d, b, rest, restCaptures)
  {
    DividedAppend(lang, c, d, a, b);
    CapturesAppend(c, d, a, b);
    SameTail(Captures(c, a), restCaptures, Captures(d, b));
    PathAppend(a, b, rest);
  }

  lemma PathAppend(a: seq<seq<string>>, b: seq<seq<string>>, rest: string)
    ensures JoinParts(a) + rest == JoinParts(a + b) <==> rest == JoinParts(b)
    ensures JoinParts(a) + rest == JoinParts(a + b) + "/" <==> rest == JoinParts(b) + "/"
  {
    JoinPartsAppend(a, b);
    SameTail(JoinParts(a), rest, JoinParts(b));
    SameTail(JoinParts(a), rest, JoinParts(b) + "/");
    assert JoinParts(a) + (JoinParts(b) + "/") == JoinParts(a) + JoinParts(b) + "/";
  }

  lemma SameTail<T>(a: seq<T>, b: seq<T>, c: seq<T>)
    ensures a + b == a + c <==> b == c
  {
    assert (a + b)[|a|..] == b && (a + c)[|a|..] == c;
  }

  lemma {:induction false} PartsInTurn(lang: Language, above: seq<Chunk>, below: seq<Chunk>, a: seq<seq<string>>,
                                       b: seq<seq<string>>,
                    rest: string, restCaptures: seq<Option<string>>)
    requires Divided(lang, above, a) && Splits(lang, below, b, rest, restCaptures)
    ensures Accepts(lang, Whole(above + below), JoinParts(a) + rest, Captures(above, a) + restCaptures)
  {
    SplitsAppend(lang, above, below, a, b, rest, restCaptures);
    WholeAccepts(lang, above + below, a + b, JoinParts(a) + rest, Captures(above, a) + restCaptures);
  }

  lemma {:induction false} InTurnAccepted(lang: Language, above: seq<Chunk>, below: seq<Chunk>, path: string,
                                          captures: seq<Option<string>>)
    requires InTurn(lang, above, below, path, captures)
    ensures Accepts(lang, Whole(above + below), path, captures)
  {
    var i, j := Parted(lang, Body(above), Whole(below), path, captures);
    var rest, restCaptures := path[i..], captures[j..];
    var a := BodyParts(lang, above, path[..i], captures[..j]);
    var b := WholeParts(lang, below, rest, restCaptures);
    PartsInTurn(lang, above, below, a, b, rest, restCaptures);
  }

  lemma {:induction false} AcceptedInTurn(lang: Language, above: seq<Chunk>, below: seq<Chunk>, path: string,
                                          captures: seq<Option<string>>)
    requires Accepts(lang, Whole(above + below), path, captures)
    ensures InTurn(lang, above, below, path, captures)
  {
    var parts := WholeParts(lang, above + below, path, captures);
    var a, b := parts[..|above|], parts[|above|..];
    assert parts == a + b;
    var i, j := HeadOf(above, below, a, b, path, captures);
    SplitsAppend(lang, above, below, a, b, path[i..], captures[j..]);
    BodyAccepts(lang, above, a);
    WholeAccepts(lang, below, b, path[i..], captures[j..]);
    Joined(lang, Body(above), Whole(below), JoinParts(a), path[i..], Captures(above, a), captures[j..]);
  }

  lemma HeadOf(above: seq<Chunk>, below: seq<Chunk>, a: seq<seq<string>>, b: seq<seq<string>>, path: string,
               captures: seq<Option<string>>) returns (i: nat, j: nat)
    requires |a| == |above| && |b| == |below| && captures == Captures(above + below, a + b)
    requires path == JoinParts(a + b) || path == JoinParts(a + b) + "/"
    ensures i <= |path| && j <= |captures| && path[..i] == JoinParts(a) && captures[..j] == Captures(above, a)
    ensures path == JoinParts(a) + path[i..] && captures == Captures(above, a) + captures[j..]
  {
    JoinPartsAppend(a, b);
    CapturesAppend(above, below, a, b);
    i, j := |JoinParts(a)|, |Captures(above, a)|;
  }

  /** The pattern a mounted descriptor gets matches exactly the paths that the mount prefix and then the descriptor's
      own pattern match, with the captures of both. */
  lemma {:induction false} MountedPatternMatchesInTurn(lang: Language, prefix: string, pattern: string, path: string,
                                                       captures: seq<Option<string>>)
    requires Parse(prefix).Ok? && Parse(pattern).Ok? && |pattern| > 0
    requires pattern[0] == '/' && (Closed(prefix) || ')' !in pattern)
    ensures Parse(prefix + pattern).Ok?
    ensures Accepts(lang, Whole(Parse(prefix + pattern).value), path, captures) <==>
              InTurn(lang, Parse(prefix).value, Parse(pattern).value, path, captures)
  {
    var above, below := Parse(prefix).value, Parse(pattern).value;
    MountedPatternParsesInTurn(prefix, pattern);
    if InTurn(lang, above, below, path, captures) {
      InTurnAccepted(lang, above, below, path, captures);
    } else if Accepts(lang, Whole(above + below), path, captures) {
      AcceptedInTurn(lang, above, below, path, captures);
      assert false;
    }
  }

  // ---- A literal mount

  function Named(name: string): Chunk {
    Chunk(Static, Single, "", name)
  }

  function Statics(names: seq<string>): (chunks: seq<Chunk>)
    ensures |chunks| == |names| && forall i :: 0 <= i < |names| ==> chunks[i] == Named(names[i])
  {
    seq(|names|, i requires 0 <= i < |names| => Named(names[i]))
  }

  const EVERYTHING := Chunk(Wildcard, ZeroOrMore, "", "")

  predicate Literal(name: string) {
    name != "" && WellFormed(Named(name))
  }

  lemma {:induction false} RenderMount(names: seq<string>)
    ensures RenderAll(Statics(names) + [EVERYTHING]) == Join(names) + ANYTHING_BELOW
    decreases |names|
  {
    var chunks := Statics(names) + [EVERYTHING];
    if |names| == 0 {
      assert chunks == [EVERYTHING] && chunks[1..] == [];
      assert RenderAll([EVERYTHING]) == Render(EVERYTHING) + "" == "/**" == "" + ANYTHING_BELOW;
    } else {
      assert chunks[1..] == Statics(names[1..]) + [EVERYTHING];
      RenderMount(names[1..]);
      assert "/" + names[0] + "" + (Join(names[1..]) + ANYTHING_BELOW)
          == "/" + names[0] + Join(names[1..]) + ANYTHING_BELOW;
    }
  }

  /** However the mount is written, with or without a trailing slash or the wildcard, it binds the same pattern. */
  lemma MountPathOfLiteral(names: seq<string>, written: string)
    requires forall n :: n in names ==> Literal(n)
    requires written == Join(names) || written == Join(names) + "/" || written == Join(names) + ANYTHING_BELOW
    ensures MountPath(Some(written)) == Join(names) + ANYTHING_BELOW
    ensures Parse(MountPath(Some(written))) == Ok(Statics(names) + [EVERYTHING])
  {
    LiteralEnd(names);
    MountPathOfPath(Join(names), written);
    ParseMount(names);
  }

  lemma MountPathOfPath(path: string, written: string)
    requires |path| > 0 ==> path[|path| - 1] != '/' && path[|path| - 1] != '*'
    requires written == path || written == path + "/" || written == path + ANYTHING_BELOW
    ensures MountPath(Some(written)) == path + ANYTHING_BELOW
  {
    assert HasSuffix(path + ANYTHING_BELOW, ANYTHING_BELOW) && HasSuffix(path + "/", "/");
    assert (path + "/")[|path|] == '/' && (path + "/")[..|path|] == path;
  }

  lemma ParseMount(names: seq<string>)
    requires forall n :: n in names ==> Literal(n)
    ensures Parse(Join(names) + ANYTHING_BELOW) == Ok(Statics(names) + [EVERYTHING])
  {
    RenderMount(names);
    forall i | 0 <= i < |names| ensures WellFormed(Statics(names)[i]) { assert names[i] in names; }
    ParseUndoesRender(Statics(names) + [EVERYTHING]);
  }

  /** The last rune of a literal path is neither a slash nor a star. */
  lemma {:induction false} LiteralEnd(names: seq<string>)
    requires forall n :: n in names ==> Literal(n)
    ensures |Join(names)| > 0 ==> Join(names)[|Join(names)| - 1] != '/' && Join(names)[|Join(names)| - 1] != '*'
    decreases |names|
  {
    if |names| > 0 {
      assert names[0] in names && Literal(names[0]);
      assert names[0][|names[0]| - 1] in names[0];
      LiteralEnd(names[1..]);
    }
  }

  /** Literal text matches itself, and the default subpattern any non-empty segment. */
  ghost predicate Faithful(lang: Language, names: seq<string>) {
    && (forall n, word :: n in names ==> (InLanguage(lang, n, word) <==> word == n))
    && (forall word :: InLanguage(lang, SEGMENT, word) <==> word != "" && SlashFree(word))
  }

  ghost predicate Below(names: seq<string>, path: string) {
    exists segments: seq<string> :: (forall s :: s in segments ==> s != "" && SlashFree(s))
      && (path == Join(names + segments) || path == Join(names + segments) + "/")
  }

  lemma {:induction false} StaticsAsThemselves(lang: Language, names: seq<string>, parts: seq<seq<string>>)
    requires Faithful(lang, names) && (forall n :: n in names ==> n != "")
    ensures Divided(lang, Statics(names), parts) <==>
              |parts| == |names| && forall i :: 0 <= i < |names| ==> parts[i] == [names[i]]
  {
    if |parts| == |names| {
      forall i | 0 <= i < |names| ensures Fits(lang, Statics(names)[i], parts[i]) <==> parts[i] == [names[i]] {
        assert names[i] in names && Subpattern(Named(names[i])) == names[i];
        if |parts[i]| == 1 { assert parts[i] == [parts[i][0]]; }
      }
    }
  }

  lemma {:induction false} JoinNames(names: seq<string>, parts: seq<seq<string>>)
    requires |parts| == |names| && forall i :: 0 <= i < |names| ==> parts[i] == [names[i]]
    ensures JoinParts(parts) == Join(names)
    decreases |names|
  {
    if |names| > 0 {
      JoinNames(names[1..], parts[1..]);
      assert parts[0][1..] == [] && Join(parts[0]) == "/" + names[0] + "" == "/" + names[0];
    }
  }

  lemma MountParts(names: seq<string>, segments: seq<string>, heads: seq<seq<string>>)
    requires |heads| == |names| && forall i :: 0 <= i < |names| ==> heads[i] == [names[i]]
    ensures JoinParts(heads + [segments]) == Join(names + segments)
  {
    JoinPartsAppend(heads, [segments]);
    JoinNames(names, heads);
    JoinAppend(names, segments);
    assert [segments][1..] == [] && JoinParts([segments]) == Join(segments) + "" == Join(segments);
  }

  /** A literal mount matches exactly its own path and the paths of non-empty segments below it. */
  lemma {:induction false} LiteralMountMatchesBelow(lang: Language, names: seq<string>, path: string)
    requires Faithful(lang, names) && forall n :: n in names ==> Literal(n)
    ensures (exists captures :: Accepts(lang, Whole(Statics(names) + [EVERYTHING]), path, captures)) <==>
              Below(names, path)
  {
    var chunks := Statics(names) + [EVERYTHING];
    if Below(names, path) {
      var segments :| (forall s :: s in segments ==> s != "" && SlashFree(s))
        && (path == Join(names + segments) || path == Join(names + segments) + "/");
      BelowAccepted(lang, names, segments, path);
    } else if captures :| Accepts(lang, Whole(chunks), path, captures) {
      AcceptedBelow(lang, names, path, captures);
      assert false;
    }
  }

  lemma {:induction false} BelowAccepted(lang: Language, names: seq<string>, segments: seq<string>, path: string)
    requires Faithful(lang, names) && (forall n :: n in names ==> Literal(n))
    requires forall s :: s in segments ==> s != "" && SlashFree(s)
    requires path == Join(names + segments) || path == Join(names + segments) + "/"
    ensures exists captures :: Accepts(lang, Whole(Statics(names) + [EVERYTHING]), path, captures)
  {
    var chunks := Statics(names) + [EVERYTHING];
    var heads := seq(|names|, i requires 0 <= i < |names| => [names[i]]);
    StaticsAsThemselves(lang, names, heads);
    MountParts(names, segments, heads);
    assert Fits(lang, EVERYTHING, segments) by {
      forall i | 0 <= i < |segments| ensures InLanguage(lang, SEGMENT, segments[i]) { assert segments[i] in segments; }
    }
    assert Divided(lang, chunks, heads + [segments]);
    WholeAccepts(lang, chunks, heads + [segments], path, Captures(chunks, heads + [segments]));
  }

  lemma {:induction false} AcceptedBelow(lang: Language, names: seq<string>, path: string,
                                         captures: seq<Option<string>>)
    requires Faithful(lang, names) && forall n :: n in names ==> Literal(n)
    requires Accepts(lang, Whole(Statics(names) + [EVERYTHING]), path, captures)
    ensures Below(names, path)
  {
    var chunks := Statics(names) + [EVERYTHING];
    var parts := WholeParts(lang, chunks, path, captures);
    var heads, segments := parts[..|names|], parts[|names|];
    assert parts == heads + [segments];
    assert Divided(lang, Statics(names), heads) by {
      forall i | 0 <= i < |names| ensures Fits(lang, Statics(names)[i], heads[i]) {
        assert chunks[i] == Statics(names)[i] && Fits(lang, chunks[i], parts[i]);
      }
    }
    StaticsAsThemselves(lang, names, heads);
    MountParts(names, segments, heads);
    assert chunks[|names|] == EVERYTHING && Fits(lang, EVERYTHING, segments);
    forall s | s in segments ensures s != "" && SlashFree(s) {
      var i :| 0 <= i < |segments| && segments[i] == s;
      assert InLanguage(lang, SEGMENT, segments[i]);
    }
  }
}
