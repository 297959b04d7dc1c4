/** Building a path from a pattern, and how that and matching undo each other. */
module PatternPaths {
  import opened Wrappers
  import opened PatternParser
  import opened Regexes
  import opened PatternCompiler
  import opened PatternMeaning
  import opened PatternRoutes
  import opened PatternMatching

  const NOT_ENOUGH_WILDCARDS := "not enough wildcard values provided"

  function Missing(key: string): string {
    "missing required parameter: " + key
  }

  function After(text: string, rest: Result<string>): Result<string> {
    match rest
    case Ok(more) => Ok(text + more)
    case Err(reason) => Err(reason)
  }

  /** The path the chunks build, before the empty one is made a slash. */
  function Built(chunks: seq<Chunk>, params: Params, wildcards: seq<string>): Result<string> {
    if |chunks| == 0 then Ok("")
    else
      var c := chunks[0];
      match c.kind
      case Unknown => Built(chunks[1..], params, wildcards)
      case Static => After("/" + c.pattern, Built(chunks[1..], params, wildcards))
      case Dynamic =>
        if c.key in params then After("/" + params[c.key], Built(chunks[1..], params, wildcards))
        else if c.modifier.Optional? || c.modifier.ZeroOrMore? then Built(chunks[1..], params, wildcards)
        else Err(Missing(c.key))
      case Wildcard =>
        if |wildcards| == 0 then Err(NOT_ENOUGH_WILDCARDS)
        else After("/" + wildcards[0], Built(chunks[1..], params, wildcards[1..]))
  }

  function PathOf(chunks: seq<Chunk>, params: Params, wildcards: seq<string>): Result<string> {
    var built := Built(chunks, params, wildcards);
    if built == Ok("") then Ok("/") else built
  }

  lemma AfterAgain(a: string, b: string, rest: Result<string>)
    ensures After(a, After(b, rest)) == After(a + b, rest)
  {
    if rest.Ok? { assert a + (b + rest.value) == (a + b) + rest.value; }
  }

  lemma AfterNothing(rest: Result<string>)
    ensures After("", rest) == rest
  {
    if rest.Ok? { assert "" + rest.value == rest.value; }
  }

  method Path(chunks: seq<Chunk>, params: Params, wildcards: seq<string>) returns (result: Result<string>)
    ensures result == PathOf(chunks, params, wildcards)
  {
    var path, wildcardIndex, n := "", 0, 0;
    AfterNothing(Built(chunks, params, wildcards));
    assert chunks[0..] == chunks && wildcards[0..] == wildcards;
    while n < |chunks|
      invariant n <= |chunks| && wildcardIndex <= |wildcards|
      invariant Built(chunks, params, wildcards) == After(path, Built(chunks[n..], params, wildcards[wildcardIndex..]))
    {
      var c := chunks[n];
      ghost var rest := Built(chunks[n + 1..], params, wildcards[wildcardIndex..]);
      assert chunks[n..][1..] == chunks[n + 1..];
      n := n + 1;
      match c.kind {
        case Static =>
          AfterAgain(path, "/" + c.pattern, rest);
          path := path + ("/" + c.pattern);
        case Dynamic =>
          if c.key !in params {
            if c.modifier.Optional? || c.modifier.ZeroOrMore? { continue; }
            return Err("missing required parameter: " + c.key);
          }
          AfterAgain(path, "/" + params[c.key], rest);
          path := path + ("/" + params[c.key]);
        case Wildcard =>
          if wildcardIndex >= |wildcards| { return Err(NOT_ENOUGH_WILDCARDS); }
          assert wildcards[wildcardIndex..][1..] == wildcards[wildcardIndex + 1..];
          AfterAgain(path, "/" + wildcards[wildcardIndex], Built(chunks[n..], params, wildcards[wildcardIndex + 1..]));
          path := path + ("/" + wildcards[wildcardIndex]);
          wildcardIndex := wildcardIndex + 1;
        case Unknown =>
      }
    }
    assert path + "" == path;
    if path == "" { path := "/"; }
    result := Ok(path);
  }

  // ---- When a path is built, and from what

  /** How many wildcard values the chunks ask for. */
  function Wildcards(chunks: seq<Chunk>): nat {
    if |chunks| == 0 then 0 else (if chunks[0].kind.Wildcard? then 1 else 0) + Wildcards(chunks[1..])
  }

  /** The chunk cannot do without a value for its name. */
  predicate Needs(c: Chunk) {
    c.kind.Dynamic? && (c.modifier.Single? || c.modifier.OneOrMore?)
  }

  /** The chunk at this place has its value: a parameter of its name, or the wildcard value of its number. */
  predicate Supplied(chunks: seq<Chunk>, i: nat, params: Params, wildcards: seq<string>)
    requires i < |chunks|
  {
    && (Needs(chunks[i]) ==> chunks[i].key in params)
    && (chunks[i].kind.Wildcard? ==> Wildcards(chunks[..i]) < |wildcards|)
  }

  /** What the chunk at this place adds to a path. */
  function TextOf(chunks: seq<Chunk>, i: nat, params: Params, wildcards: seq<string>): string
    requires i < |chunks| && Supplied(chunks, i, params, wildcards)
  {
    var c := chunks[i];
    if c.kind.Static? then "/" + c.pattern
    else if c.kind.Wildcard? then "/" + wildcards[Wildcards(chunks[..i])]
    else if c.kind.Dynamic? && c.key in params then "/" + params[c.key]
    else ""
  }

  /** The texts of the first chunks, one after the other. */
  function TextsOf(chunks: seq<Chunk>, n: nat, params: Params, wildcards: seq<string>): string
    requires n <= |chunks| && forall i :: 0 <= i < n ==> Supplied(chunks, i, params, wildcards)
  {
    if n == 0 then "" else TextsOf(chunks, n - 1, params, wildcards) + TextOf(chunks, n - 1, params, wildcards)
  }

  lemma {:induction false} WildcardsNext(chunks: seq<Chunk>, i: nat)
    requires i < |chunks|
    ensures Wildcards(chunks[..i + 1]) == Wildcards(chunks[..i]) + if chunks[i].kind.Wildcard? then 1 else 0
    decreases i
  {
    if i > 0 {
      assert chunks[..i + 1][1..] == chunks[1..][..i] && chunks[..i][1..] == chunks[1..][..i - 1];
      WildcardsNext(chunks[1..], i - 1);
    } else {
      assert chunks[..1][1..] == [];
    }
  }

  /** As long as every chunk has its value, building goes on with the rest of the chunks and of the wildcard values. */
  lemma {:induction false} BuiltUpTo(chunks: seq<Chunk>, n: nat, params: Params, wildcards: seq<string>)
    requires n <= |chunks| && forall i :: 0 <= i < n ==> Supplied(chunks, i, params, wildcards)
    ensures Wildcards(chunks[..n]) <= |wildcards|
    ensures Built(chunks, params, wildcards)
            == After(TextsOf(chunks, n, params, wildcards),
                     Built(chunks[n..], params, wildcards[Wildcards(chunks[..n])..]))
    decreases n
  {
    if n == 0 {
      assert chunks[0..] == chunks && chunks[..0] == [] && wildcards[0..] == wildcards;
      AfterNothing(Built(chunks, params, wildcards));
    } else {
      BuiltUpTo(chunks, n - 1, params, wildcards);
      WildcardsNext(chunks, n - 1);
      assert Supplied(chunks, n - 1, params, wildcards);
      var left := wildcards[Wildcards(chunks[..n - 1])..];
      assert chunks[n - 1..][1..] == chunks[n..];
      var rest := Built(chunks[n..], params, wildcards[Wildcards(chunks[..n])..]);
      assert Built(chunks[n - 1..], params, left) == After(TextOf(chunks, n - 1, params, wildcards), rest) by {
        AfterNothing(rest);
      }
      AfterAgain(TextsOf(chunks, n - 1, params, wildcards), TextOf(chunks, n - 1, params, wildcards), rest);
    }
  }

  /** With a value for every chunk the path is their texts in order, the i-th wildcard chunk taking the i-th value;
      an empty path is a slash. */
  lemma {:induction false} PathFromValues(chunks: seq<Chunk>, params: Params, wildcards: seq<string>)
    requires forall i :: 0 <= i < |chunks| ==> Supplied(chunks, i, params, wildcards)
    ensures var path := TextsOf(chunks, |chunks|, params, wildcards);
            PathOf(chunks, params, wildcards) == Ok(if path == "" then "/" else path)
  {
    BuiltUpTo(chunks, |chunks|, params, wildcards);
    var path := TextsOf(chunks, |chunks|, params, wildcards);
    assert path + "" == path;
  }

  /** Without one, building fails with the lack of the first chunk that has no value. */
  lemma {:induction false} FirstLackFails(chunks: seq<Chunk>, i: nat, params: Params, wildcards: seq<string>)
    requires i < |chunks| && !Supplied(chunks, i, params, wildcards)
    requires forall j :: 0 <= j < i ==> Supplied(chunks, j, params, wildcards)
    ensures PathOf(chunks, params, wildcards)
            == Err(if chunks[i].kind.Wildcard? then "not enough wildcard values provided"
                   else "missing required parameter: " + chunks[i].key)
  {
    BuiltUpTo(chunks, i, params, wildcards);
    assert chunks[i..][0] == chunks[i];
  }

  /** A path is built exactly if there are as many wildcard values as wildcard chunks and a parameter for every named
      chunk that needs one. */
  lemma {:induction false} PathIsBuiltExactly(chunks: seq<Chunk>, params: Params, wildcards: seq<string>)
    ensures PathOf(chunks, params, wildcards).Ok? <==>
              |wildcards| >= Wildcards(chunks) && forall c :: c in chunks && Needs(c) ==> c.key in params
  {
    if forall i :: 0 <= i < |chunks| ==> Supplied(chunks, i, params, wildcards) {
      PathFromValues(chunks, params, wildcards);
      BuiltUpTo(chunks, |chunks|, params, wildcards);
      assert chunks[..|chunks|] == chunks;
      forall c | c in chunks && Needs(c) ensures c.key in params {
        var i :| 0 <= i < |chunks| && chunks[i] == c;
        assert Supplied(chunks, i, params, wildcards);
      }
    } else {
      var i := FirstLack(chunks, params, wildcards);
      FirstLackFails(chunks, i, params, wildcards);
      WildcardsUpTo(chunks, i + 1);
      WildcardsNext(chunks, i);
      assert chunks[i] in chunks;
    }
  }

  lemma {:induction false} WildcardsUpTo(chunks: seq<Chunk>, n: nat)
    requires n <= |chunks|
    ensures Wildcards(chunks[..n]) <= Wildcards(chunks)
    decreases |chunks| - n
  {
    if n < |chunks| {
      WildcardsNext(chunks, n);
      WildcardsUpTo(chunks, n + 1);
    } else {
      assert chunks[..n] == chunks;
    }
  }

  lemma {:induction false} FirstLack(chunks: seq<Chunk>, params: Params, wildcards: seq<string>) returns (i: nat)
    requires !forall i :: 0 <= i < |chunks| ==> Supplied(chunks, i, params, wildcards)
    ensures i < |chunks| && !Supplied(chunks, i, params, wildcards)
    ensures forall j :: 0 <= j < i ==> Supplied(chunks, j, params, wildcards)
  {
    i := 0;
    while Supplied(chunks, i, params, wildcards)
      invariant i < |chunks| && forall j :: 0 <= j < i ==> Supplied(chunks, j, params, wildcards)
      decreases |chunks| - i
    {
      i := i + 1;
    }
  }

  // ---- Matching what was built

  /** A value that a chunk can take as its segments. */
  predicate Takes(lang: Language, c: Chunk, value: string) {
    Fits(lang, c, Segments("/" + value))
  }

  /** Every value used is one its chunk can take; static text stands for itself. */
  ghost predicate Usable(lang: Language, chunks: seq<Chunk>, params: Params, wildcards: seq<string>) {
    if |chunks| == 0 then true
    else
      var c := chunks[0];
      match c.kind
      case Unknown => Usable(lang, chunks[1..], params, wildcards)
      case Static => c.pattern != "" && InLanguage(lang, c.pattern, c.pattern)
          && Usable(lang, chunks[1..], params, wildcards)
      case Dynamic => (c.key in params ==> Takes(lang, c, params[c.key]))
          && Usable(lang, chunks[1..], params, wildcards)
      case Wildcard => |wildcards| > 0 ==>
          Takes(lang, c, wildcards[0]) && Usable(lang, chunks[1..], params, wildcards[1..])
  }

  /** What a named chunk captures from its own value. */
  function OwnCaptures(chunks: seq<Chunk>, params: Params): seq<Option<string>> {
    if |chunks| == 0 then []
    else (if !chunks[0].kind.Dynamic? then []
          else if chunks[0].key in params then [Some(params[chunks[0].key])] else [None])
              + OwnCaptures(chunks[1..], params)
  }

  lemma JoinFirst(segments: seq<string>)
    requires |segments| > 0
    ensures Join(segments) == "/" + (segments[0] + Join(segments[1..]))
    ensures Join(segments)[1..] == segments[0] + Join(segments[1..])
  {
    assert "/" + segments[0] + Join(segments[1..]) == "/" + (segments[0] + Join(segments[1..]));
  }

  lemma SegmentsOfValue(value: string)
    ensures var segments := Segments("/" + value);
            |segments| > 0 && segments[0] + Join(segments[1..]) == value
  {
    var path, segments := "/" + value, Segments("/" + value);
    assert Join(segments) == path && path[1..] == value;
    JoinFirst(segments);
  }

  lemma {:induction false} BuiltParts(lang: Language, chunks: seq<Chunk>, params: Params, wildcards: seq<string>)
    returns (parts: seq<seq<string>>)
    requires Usable(lang, chunks, params, wildcards) && Built(chunks, params, wildcards).Ok?
    ensures Divided(lang, chunks, parts) && JoinParts(parts) == Built(chunks, params, wildcards).value
    ensures Captures(chunks, parts) == OwnCaptures(chunks, params)
    decreases |chunks|
  {
    if |chunks| == 0 {
      parts := [];
    } else {
      var more := Unused(chunks[0], wildcards);
      var part := FirstPart(lang, chunks, params, wildcards);
      var rest := BuiltParts(lang, chunks[1..], params, more);
      parts := [part] + rest;
      assert parts[1..] == rest;
    }
  }

  /** The wildcard values left after a chunk. */
  function Unused(c: Chunk, wildcards: seq<string>): seq<string> {
    if c.kind.Wildcard? && |wildcards| > 0 then wildcards[1..] else wildcards
  }

  lemma {:induction false} FirstPart(lang: Language, chunks: seq<Chunk>, params: Params, wildcards: seq<string>)
    returns (part: seq<string>)
    requires |chunks| > 0 && Usable(lang, chunks, params, wildcards) && Built(chunks, params, wildcards).Ok?
    ensures Fits(lang, chunks[0], part) && Usable(lang, chunks[1..], params, Unused(chunks[0], wildcards))
    ensures Built(chunks, params, wildcards)
            == After(Join(part), Built(chunks[1..], params, Unused(chunks[0], wildcards)))
    ensures OwnCaptures(chunks, params) == Capture(chunks[0], part) + OwnCaptures(chunks[1..], params)
  {
    var c := chunks[0];
    AfterNothing(Built(chunks[1..], params, wildcards));
    match c.kind {
      case Unknown => part := [];
      case Static =>
        part := [c.pattern];
        assert part[1..] == [] && Join(part) == "/" + c.pattern + "" == "/" + c.pattern;
      case Dynamic =>
        if c.key in params {
          part := Segments("/" + params[c.key]);
          SegmentsOfValue(params[c.key]);
        } else {
          part := [];
        }
      case Wildcard =>
        part := Segments("/" + wildcards[0]);
    }
  }

  /** A pattern matches every path built from it. */
  lemma {:induction false} PathIsMatched(lang: Language, chunks: seq<Chunk>, params: Params, wildcards: seq<string>)
    requires Usable(lang, chunks, params, wildcards) && PathOf(chunks, params, wildcards).Ok?
    ensures Accepts(lang, Whole(chunks), PathOf(chunks, params, wildcards).value, OwnCaptures(chunks, params))
  {
    var parts := BuiltParts(lang, chunks, params, wildcards);
    WholeAccepts(lang, chunks, parts, PathOf(chunks, params, wildcards).value, OwnCaptures(chunks, params));
  }

  // ---- The parameters come back

  predicate AllSingle(chunks: seq<Chunk>) {
    forall c :: c in chunks ==> c.modifier.Single?
  }

  /** With single modifiers, the segments of a path determine how it divides. */
  lemma {:induction false} OneDivision(lang: Language, chunks: seq<Chunk>, parts: seq<seq<string>>,
                                       others: seq<seq<string>>)
    requires AllSingle(chunks) && Divided(lang, chunks, parts) && Divided(lang, chunks, others)
    ensures |Flat(parts)| == |Flat(others)| && (Flat(parts) == Flat(others) ==> parts == others)
    decreases |chunks|
  {
    if |chunks| > 0 {
      var p, q := Flat(parts[1..]), Flat(others[1..]);
      assert chunks[0] in chunks && Fits(lang, chunks[0], parts[0]) && Fits(lang, chunks[0], others[0]);
      OneDivision(lang, chunks[1..], parts[1..], others[1..]);
      assert |parts[0]| == |others[0]|;
      if Flat(parts) == Flat(others) {
        assert Flat(parts)[..|parts[0]|] == parts[0] && Flat(parts)[|parts[0]|..] == p;
        assert Flat(others)[..|others[0]|] == others[0] && Flat(others)[|others[0]|..] == q;
        assert parts == [parts[0]] + parts[1..] && others == [others[0]] + others[1..];
      }
    }
  }

  lemma {:induction false} SamePathSameParts(lang: Language, chunks: seq<Chunk>, parts: seq<seq<string>>,
                                             others: seq<seq<string>>, path: string)
    requires AllSingle(chunks) && Local(lang, chunks) && Divided(lang, chunks, parts) && Divided(lang, chunks, others)
    requires path == JoinParts(parts) || path == JoinParts(parts) + "/"
    requires path == JoinParts(others) || path == JoinParts(others) + "/"
    ensures parts == others
  {
    OneDivision(lang, chunks, parts, others);
    var p := SegmentsOfPath(lang, chunks, parts, path);
    var q := SegmentsOfPath(lang, chunks, others, path);
    var n := |Flat(parts)|;
    assert (Flat(parts) + p)[..n] == Flat(parts) && (Flat(others) + q)[..n] == Flat(others);
  }

  lemma {:induction false} SegmentsOfPath(lang: Language, chunks: seq<Chunk>, parts: seq<seq<string>>, path: string)
    returns (trailing: seq<string>)
    requires Local(lang, chunks) && Divided(lang, chunks, parts)
    requires (path == JoinParts(parts) || path == JoinParts(parts) + "/")
    ensures Rooted(path) && Segments(path) == Flat(parts) + trailing && |trailing| <= 1
  {
    var flat := Flat(parts);
    JoinFlat(parts);
    FlatIsLocal(lang, chunks, parts);
    if path == JoinParts(parts) {
      trailing := [];
      SegmentsOfJoin(flat);
    } else {
      trailing := [""];
      TrailingSegment(flat);
      SegmentsOfJoin(flat + [""]);
    }
  }

  /** The parameters that have a name in a pattern. */
  function Restricted(params: Params, names: seq<string>): Params {
    map key | key in params && key in names :: params[key]
  }

  lemma {:induction false} BuiltIsFound(lang: Language, chunks: seq<Chunk>, re: RegExp, params: Params,
                                        wildcards: seq<string>)
    requires Engine(lang, chunks, re) && Local(lang, chunks) && AllSingle(chunks)
    requires Usable(lang, chunks, params, wildcards) && PathOf(chunks, params, wildcards).Ok?
    ensures |FindCaptures(re, PathOf(chunks, params, wildcards).value)| > 0
    ensures FindCaptures(re, PathOf(chunks, params, wildcards).value)[1..] == OwnCaptures(chunks, params)
  {
    var path := PathOf(chunks, params, wildcards).value;
    PathIsMatched(lang, chunks, params, wildcards);
    var parts := BuiltParts(lang, chunks, params, wildcards);
    assert |FindCaptures(re, path)| > 0;
    var others := WholeParts(lang, chunks, path, FindCaptures(re, path)[1..]);
    SamePathSameParts(lang, chunks, parts, others, path);
  }

  lemma CapturedIsRestricted(matched: Params, params: Params, names: seq<string>, captures: seq<Option<string>>)
    requires CapturedIn(matched, names, captures) && HaveValues(names, captures, params)
    ensures matched == Restricted(params, names)
  {
    forall key | key in matched ensures key in params && matched[key] == params[key] {
      var i :| 0 <= i < |names| && names[i] == key;
      assert matched[names[i]] == Shown(captures[i]);
    }
  }

  /** Matching a path built with single modifiers gives back exactly the parameters it was built from. */
  lemma {:induction false} MatchReturnsBuiltParams(lang: Language, chunks: seq<Chunk>, re: RegExp, params: Params,
                                                   wildcards: seq<string>)
    requires Engine(lang, chunks, re) && Local(lang, chunks) && AllSingle(chunks) && Distinct(DynamicKeys(chunks))
    requires Usable(lang, chunks, params, wildcards) && PathOf(chunks, params, wildcards).Ok?
    ensures Matched(re, PathOf(chunks, params, wildcards).value) == Some(Restricted(params, DynamicKeys(chunks)))
  {
    var path := PathOf(chunks, params, wildcards).value;
    BuiltIsFound(lang, chunks, re, params, wildcards);
    MatchedCaptures(lang, chunks, re, path);
    OwnCapturesAre(chunks, params, wildcards);
    CapturedIsRestricted(Matched(re, path).value, params, DynamicKeys(chunks), OwnCaptures(chunks, params));
  }

  /** With single modifiers a path is built only if there is a value for every name. */
  lemma {:induction false} OwnCapturesAre(chunks: seq<Chunk>, params: Params, wildcards: seq<string>)
    requires AllSingle(chunks) && Built(chunks, params, wildcards).Ok?
    ensures HaveValues(DynamicKeys(chunks), OwnCaptures(chunks, params), params)
    decreases |chunks|
  {
    if |chunks| > 0 {
      var c, rest := chunks[0], chunks[1..];
      assert c in chunks && c.modifier.Single?;
      assert forall d :: d in rest ==> d in chunks;
      OwnCapturesAre(rest, params, Unused(c, wildcards));
      var names, captures := DynamicKeys(chunks), OwnCaptures(chunks, params);
      if c.kind.Dynamic? {
        assert names == [c.key] + DynamicKeys(rest) && captures == [Some(params[c.key])] + OwnCaptures(rest, params);
      } else {
        assert names == DynamicKeys(rest) && captures == OwnCaptures(rest, params);
      }
    }
  }

  /** Each name has a value, which is what its group captured. */
  predicate HaveValues(names: seq<string>, captures: seq<Option<string>>, params: Params) {
    |captures| == |names| && forall i :: 0 <= i < |names| ==>
        names[i] in params && captures[i] == Some(params[names[i]])
  }

  // ---- The path comes back

  /** No wildcards, static text once, named chunks that always take a segment. */
  ghost predicate Reversible(lang: Language, chunks: seq<Chunk>) {
    forall c :: c in chunks ==>
      && !c.kind.Wildcard?
      && (c.kind.Static? ==>
            && c.modifier.Single? && c.pattern != ""
            && forall word :: InLanguage(lang, c.pattern, word) <==> word == c.pattern)
      && (c.kind.Dynamic? ==> c.modifier.Single? || c.modifier.OneOrMore?)
  }

  /** What the parameters say about one chunk's segments. */
  predicate ValueIsPart(c: Chunk, part: seq<string>, params: Params) {
    c.kind.Dynamic? ==> c.key in params && "/" + params[c.key] == Join(part)
  }

  lemma {:induction false} PartIsBuilt(lang: Language, chunks: seq<Chunk>, part: seq<string>, params: Params,
                                       wildcards: seq<string>)
    requires |chunks| > 0 && Reversible(lang, chunks)
    requires Fits(lang, chunks[0], part) && ValueIsPart(chunks[0], part, params)
    ensures Built(chunks, params, wildcards) == After(Join(part), Built(chunks[1..], params, wildcards))
  {
    var c := chunks[0];
    assert c in chunks;
    AfterNothing(Built(chunks[1..], params, wildcards));
    if c.kind.Static? {
      assert part == [c.pattern] && part[1..] == [] && Join(part) == "/" + c.pattern + "" == "/" + c.pattern;
    }
  }

  lemma {:induction false} PartsAreBuilt(lang: Language, chunks: seq<Chunk>, parts: seq<seq<string>>, params: Params,
                                         wildcards: seq<string>)
    requires Reversible(lang, chunks) && Divided(lang, chunks, parts)
    requires forall i :: 0 <= i < |chunks| ==> ValueIsPart(chunks[i], parts[i], params)
    ensures Built(chunks, params, wildcards) == Ok(JoinParts(parts))
    decreases |chunks|
  {
    if |chunks| > 0 {
      assert forall d :: d in chunks[1..] ==> d in chunks;
      PartIsBuilt(lang, chunks, parts[0], params, wildcards);
      PartsAreBuilt(lang, chunks[1..], parts[1..], params, wildcards);
    }
  }

  /** The first chunk's capture and the rest's. */
  lemma {:induction false} FirstCapture(lang: Language, chunks: seq<Chunk>, parts: seq<seq<string>>, params: Params)
    requires |chunks| > 0 && Reversible(lang, chunks) && Divided(lang, chunks, parts)
    requires CapturesIncluded(params, DynamicKeys(chunks), Captures(chunks, parts))
    ensures ValueIsPart(chunks[0], parts[0], params)
    ensures CapturesIncluded(params, DynamicKeys(chunks[1..]), Captures(chunks[1..], parts[1..]))
  {
    var c, part, captures, names := chunks[0], parts[0], Captures(chunks, parts), DynamicKeys(chunks);
    assert c in chunks && Fits(lang, c, part);
    if c.kind.Dynamic? {
      assert names[0] == c.key && captures[0] == Some(part[0] + Join(part[1..]));
      JoinFirst(part);
      assert names[1..] == DynamicKeys(chunks[1..]) && captures[1..] == Captures(chunks[1..], parts[1..]);
    } else {
      assert names == DynamicKeys(chunks[1..]) && captures == Captures(chunks[1..], parts[1..]);
    }
  }

  lemma {:induction false} CapturesAreValues(lang: Language, chunks: seq<Chunk>, parts: seq<seq<string>>,
                                             params: Params)
    requires Reversible(lang, chunks) && Divided(lang, chunks, parts)
    requires CapturesIncluded(params, DynamicKeys(chunks), Captures(chunks, parts))
    ensures forall i :: 0 <= i < |chunks| ==> ValueIsPart(chunks[i], parts[i], params)
    decreases |chunks|
  {
    if |chunks| > 0 {
      FirstCapture(lang, chunks, parts, params);
      assert forall d :: d in chunks[1..] ==> d in chunks;
      CapturesAreValues(lang, chunks[1..], parts[1..], params);
    }
  }

  ghost predicate CapturesIncluded(params: Params, names: seq<string>, captures: seq<Option<string>>) {
    |captures| == |names| && forall i :: 0 <= i < |names| ==>
        names[i] in params && params[names[i]] == Shown(captures[i])
  }

  lemma {:induction false} AcceptedIsBuilt(lang: Language, chunks: seq<Chunk>, path: string,
                                           captures: seq<Option<string>>, params: Params, wildcards: seq<string>)
    requires Reversible(lang, chunks) && Accepts(lang, Whole(chunks), path, captures)
    requires CapturesIncluded(params, DynamicKeys(chunks), captures)
    ensures var built := PathOf(chunks, params, wildcards);
            built.Ok? && (path == built.value || path == built.value + "/" || (path == "" && built.value == "/"))
  {
    var parts := WholeParts(lang, chunks, path, captures);
    CapturesAreValues(lang, chunks, parts, params);
    PartsAreBuilt(lang, chunks, parts, params, wildcards);
  }

  /** Building from what a match returned gives back the path, up to one trailing slash. */
  lemma {:induction false} PathOfMatchIsPath(lang: Language, chunks: seq<Chunk>, re: RegExp, path: string,
                                             wildcards: seq<string>)
    requires Engine(lang, chunks, re) && Distinct(DynamicKeys(chunks)) && Reversible(lang, chunks)
    requires Matched(re, path).Some?
    ensures var built := PathOf(chunks, Matched(re, path).value, wildcards);
            built.Ok? && (path == built.value || path == built.value + "/" || (path == "" && built.value == "/"))
  {
    var captures := FindCaptures(re, path)[1..];
    MatchedCaptures(lang, chunks, re, path);
    AcceptedIsBuilt(lang, chunks, path, captures, Matched(re, path).value, wildcards);
  }
}
