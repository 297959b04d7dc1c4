/** Matching a path segment by segment: an independent account of what compiled patterns match. */
module PatternRoutes {
  import opened Wrappers
  import opened PatternParser
  import opened Regexes
  import opened PatternCompiler
  import opened PatternMeaning

  predicate SlashFree(word: string) {
    '/' !in word
  }

  /** No subpattern of these chunks matches across a slash. */
  ghost predicate Local(lang: Language, chunks: seq<Chunk>) {
    forall c, word :: c in chunks && InLanguage(lang, Subpattern(c), word) ==> SlashFree(word)
  }

  function SlashFrom(s: string, from: nat): (j: nat)
    requires from <= |s|
    ensures from <= j <= |s| && (j < |s| ==> s[j] == '/') && forall k :: from <= k < j ==> s[k] != '/'
    decreases |s| - from
  {
    if from == |s| || s[from] == '/' then from else SlashFrom(s, from + 1)
  }

  predicate Rooted(path: string) {
    |path| > 0 ==> path[0] == '/'
  }

  /** The segments of a path, each after one slash. */
  function Segments(path: string): (segments: seq<string>)
    requires Rooted(path)
    ensures Join(segments) == path
    ensures forall s :: s in segments ==> SlashFree(s)
    decreases |path|
  {
    if |path| == 0 then []
    else
      var j := SlashFrom(path, 1);
      assert path == "/" + path[1..j] + path[j..];
      [path[1..j]] + Segments(path[j..])
  }

  lemma {:induction false} SlashFromAt(s: string, from: nat, at: nat)
    requires from <= at <= |s| && (forall k :: from <= k < at ==> s[k] != '/') && (at < |s| ==> s[at] == '/')
    ensures SlashFrom(s, from) == at
    decreases at - from
  {
    if from < at { SlashFromAt(s, from + 1, at); }
  }

  /** A path determines its segments. */
  lemma {:induction false} SegmentsOfJoin(segments: seq<string>)
    requires forall i :: 0 <= i < |segments| ==> SlashFree(segments[i])
    ensures Rooted(Join(segments)) && Segments(Join(segments)) == segments
    decreases |segments|
  {
    if |segments| > 0 {
      var path, rest, j := Join(segments), Join(segments[1..]), 1 + |segments[0]|;
      SegmentsOfJoin(segments[1..]);
      assert path[j..] == rest && path[1..j] == segments[0];
      assert forall k :: 1 <= k < j ==> path[k] == segments[0][k - 1];
      SlashFromAt(path, 1, j);
    }
  }

  /** The chunks take the segments one chunk after another, leaving none. */
  ghost predicate TakeAll(lang: Language, chunks: seq<Chunk>, segments: seq<string>) {
    if |chunks| == 0 then |segments| == 0
    else
      exists n: nat ::
        n <= |segments| && Fits(lang, chunks[0], segments[..n]) && TakeAll(lang, chunks[1..], segments[n..])
  }

  /** The chunks take all segments of the path, or all but an empty last one. */
  ghost predicate RouteMatches(lang: Language, chunks: seq<Chunk>, path: string) {
    Rooted(path) &&
    var segments := Segments(path);
    TakeAll(lang, chunks, segments)
    || (|segments| > 0 && segments[|segments| - 1] == "" && TakeAll(lang, chunks, segments[..|segments| - 1]))
  }

  function Flat(parts: seq<seq<string>>): seq<string> {
    if |parts| == 0 then [] else parts[0] + Flat(parts[1..])
  }

  lemma {:induction false} JoinAppend(a: seq<string>, b: seq<string>)
    ensures Join(a + b) == Join(a) + Join(b)
    decreases |a|
  {
    if |a| == 0 {
      assert a + b == b && Join(b) == "" + Join(b);
    } else {
      assert (a + b)[1..] == a[1..] + b;
      JoinAppend(a[1..], b);
      assert "/" + a[0] + (Join(a[1..]) + Join(b)) == "/" + a[0] + Join(a[1..]) + Join(b);
    }
  }

  lemma {:induction false} JoinFlat(parts: seq<seq<string>>)
    ensures Join(Flat(parts)) == JoinParts(parts)
    decreases |parts|
  {
    if |parts| > 0 {
      JoinAppend(parts[0], Flat(parts[1..]));
      JoinFlat(parts[1..]);
    }
  }

  lemma {:induction false} PartsTakeAll(lang: Language, chunks: seq<Chunk>, parts: seq<seq<string>>)
    requires Divided(lang, chunks, parts)
    ensures TakeAll(lang, chunks, Flat(parts))
    decreases |chunks|
  {
    if |chunks| > 0 {
      var flat, n := Flat(parts), |parts[0]|;
      PartsTakeAll(lang, chunks[1..], parts[1..]);
      assert flat[..n] == parts[0] && flat[n..] == Flat(parts[1..]);
    }
  }

  lemma {:induction false} TakenParts(lang: Language, chunks: seq<Chunk>, segments: seq<string>)
    returns (parts: seq<seq<string>>)
    requires TakeAll(lang, chunks, segments)
    ensures Divided(lang, chunks, parts) && Flat(parts) == segments
    decreases |chunks|
  {
    if |chunks| == 0 {
      parts := [];
    } else {
      var n: nat :| n <= |segments| && Fits(lang, chunks[0], segments[..n])
          && TakeAll(lang, chunks[1..], segments[n..]);
      var rest := TakenParts(lang, chunks[1..], segments[n..]);
      parts := [segments[..n]] + rest;
      assert parts[1..] == rest && segments == segments[..n] + segments[n..];
    }
  }

  lemma {:induction false} FlatIsLocal(lang: Language, chunks: seq<Chunk>, parts: seq<seq<string>>)
    requires Divided(lang, chunks, parts) && Local(lang, chunks)
    ensures forall i :: 0 <= i < |Flat(parts)| ==> SlashFree(Flat(parts)[i])
    decreases |chunks|
  {
    if |chunks| > 0 {
      assert Fits(lang, chunks[0], parts[0]) && chunks[0] in chunks;
      assert forall c :: c in chunks[1..] ==> c in chunks;
      FlatIsLocal(lang, chunks[1..], parts[1..]);
    }
  }

  lemma TrailingSegment(segments: seq<string>)
    ensures Join(segments + [""]) == Join(segments) + "/"
  {
    JoinAppend(segments, [""]);
    assert Join([""]) == "/" + "" + Join([""][1..]) == "/";
  }

  lemma {:induction false} RouteAccepted(lang: Language, chunks: seq<Chunk>, path: string)
    returns (captures: seq<Option<string>>)
    requires RouteMatches(lang, chunks, path)
    ensures Accepts(lang, Whole(chunks), path, captures)
  {
    var segments := Segments(path);
    if TakeAll(lang, chunks, segments) {
      captures := TakenAccepted(lang, chunks, segments, path);
    } else {
      var taken := segments[..|segments| - 1];
      TrailingSegment(taken);
      assert taken + [""] == segments;
      captures := TakenAccepted(lang, chunks, taken, path);
    }
  }

  lemma {:induction false} TakenAccepted(lang: Language, chunks: seq<Chunk>, taken: seq<string>, path: string)
    returns (captures: seq<Option<string>>)
    requires TakeAll(lang, chunks, taken) && (path == Join(taken) || path == Join(taken) + "/")
    ensures Accepts(lang, Whole(chunks), path, captures)
  {
    var parts := TakenParts(lang, chunks, taken);
    JoinFlat(parts);
    captures := Captures(chunks, parts);
    WholeAccepts(lang, chunks, parts, path, captures);
  }

  lemma {:induction false} SplitsRoute(lang: Language, chunks: seq<Chunk>, flat: seq<string>, path: string)
    requires TakeAll(lang, chunks, flat) && (forall i :: 0 <= i < |flat| ==> SlashFree(flat[i]))
    requires path == Join(flat) || path == Join(flat) + "/"
    ensures RouteMatches(lang, chunks, path)
  {
    if path == Join(flat) {
      SegmentsOfJoin(flat);
    } else {
      TrailingSegment(flat);
      SegmentsOfJoin(flat + [""]);
      assert (flat + [""])[..|flat|] == flat;
    }
  }

  lemma {:induction false} AcceptedRoute(lang: Language, chunks: seq<Chunk>, path: string,
                                         captures: seq<Option<string>>)
    requires Local(lang, chunks) && Accepts(lang, Whole(chunks), path, captures)
    ensures RouteMatches(lang, chunks, path)
  {
    var parts := WholeParts(lang, chunks, path, captures);
    JoinFlat(parts);
    FlatIsLocal(lang, chunks, parts);
    PartsTakeAll(lang, chunks, parts);
    SplitsRoute(lang, chunks, Flat(parts), path);
  }

  /** For subpatterns that match within a segment, the compiled expression matches a path exactly if the segment matcher
      does: a path is matched by its segments alone, whatever the regular expression engine tries. */
  lemma {:induction false} CompiledMatchesSegments(lang: Language, chunks: seq<Chunk>, path: string)
    requires Local(lang, chunks)
    ensures (exists captures :: Accepts(lang, Whole(chunks), path, captures)) <==> RouteMatches(lang, chunks, path)
  {
    if RouteMatches(lang, chunks, path) {
      var captures := RouteAccepted(lang, chunks, path);
      assert Accepts(lang, Whole(chunks), path, captures);
    } else if captures :| Accepts(lang, Whole(chunks), path, captures) {
      AcceptedRoute(lang, chunks, path, captures);
      assert false;
    }
  }
}
