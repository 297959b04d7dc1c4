/** Matching a path against a compiled pattern, with a new map of parameters or into an existing one. */
module PatternMatching {
  import opened Wrappers
  import opened PatternParser
  import opened Regexes
  import opened PatternCompiler
  import opened PatternMeaning
  import opened PatternRoutes

  /** A compiled expression: the names of its groups, the whole match first, and the search, which gives the start
      and end of each group, or -1 twice, or nothing if the path does not match. */
  datatype RegExp = RegExp(names: seq<string>, find: string -> seq<int>)

  function FindIndices(re: RegExp, path: string): seq<int> {
    re.find(path)
  }

  predicate ValidIndices(names: seq<string>, indices: seq<int>, path: string) {
    |indices| > 0 ==>
      && |indices| == 2 * |names|
      && forall i :: 0 <= i < |names| ==>
           (indices[2 * i] == -1 && indices[2 * i + 1] == -1) || (0 <= indices[2 * i] <= indices[2 * i + 1] <= |path|)
  }

  ghost predicate Usable(re: RegExp) {
    |re.names| > 0 && forall path :: ValidIndices(re.names, FindIndices(re, path), path)
  }

  function TextAt(path: string, indices: seq<int>, i: nat): Option<string>
    requires 2 * i + 1 < |indices|
  {
    if 0 <= indices[2 * i] <= indices[2 * i + 1] <= |path| then Some(path[indices[2 * i]..indices[2 * i + 1]]) else None
  }

  function Shown(text: Option<string>): string {
    match text
    case Some(s) => s
    case None => ""
  }

  function CapturesIn(path: string, indices: seq<int>, n: nat): (captures: seq<Option<string>>)
    requires |indices| == 2 * n
    ensures |captures| == n && forall i :: 0 <= i < n ==> captures[i] == TextAt(path, indices, i)
  {
    seq(n, i requires 0 <= i < n => TextAt(path, indices, i))
  }

  function Texts(captures: seq<Option<string>>): (texts: seq<string>)
    ensures |texts| == |captures| && forall i :: 0 <= i < |texts| ==> texts[i] == Shown(captures[i])
  {
    seq(|captures|, i requires 0 <= i < |captures| => Shown(captures[i]))
  }

  /** What each group captured, the whole match first, if there is a match. */
  function FindCaptures(re: RegExp, path: string): (captures: seq<Option<string>>)
    requires Usable(re)
    ensures |captures| == if |FindIndices(re, path)| == 0 then 0 else |re.names|
  {
    var indices := FindIndices(re, path);
    if |indices| == 0 then []
    else
      assert ValidIndices(re.names, indices, path);
      CapturesIn(path, indices, |re.names|)
  }

  /** The named groups and their texts, a later name over an earlier one. */
  function ParamsOf(names: seq<string>, texts: seq<string>): Params
    requires |texts| == |names|
  {
    if |names| == 0 then map[]
    else
      var n := |names| - 1;
      var before := ParamsOf(names[..n], texts[..n]);
      if names[n] == "" then before else before[names[n] := texts[n]]
  }

  /** What a match returns. */
  function Matched(re: RegExp, path: string): Option<Params>
    requires Usable(re)
  {
    var texts := Texts(FindCaptures(re, path));
    if |texts| == 0 then None else Some(ParamsOf(re.names[1..], texts[1..]))
  }

  lemma ParamsOfNext(names: seq<string>, texts: seq<string>, i: nat)
    requires |texts| == |names| && 0 < i < |names|
    ensures ParamsOf(names[1..i + 1], texts[1..i + 1]) ==
            if names[i] == "" then ParamsOf(names[1..i], texts[1..i])
                else ParamsOf(names[1..i], texts[1..i])[names[i] := texts[i]]
  {
    assert names[1..i + 1][..i - 1] == names[1..i] && texts[1..i + 1][..i - 1] == texts[1..i];
  }

  method TextBetween(path: string, keys: seq<string>, indices: seq<int>, i: nat) returns (text: string)
    requires i < |keys| && |indices| == 2 * |keys| && ValidIndices(keys, indices, path)
    ensures text == Texts(CapturesIn(path, indices, |keys|))[i]
    ensures text == if indices[2 * i] == -1 then "" else path[indices[2 * i]..indices[2 * i + 1]]
  {
    var start, end := indices[2 * i], indices[2 * i + 1];
    text := if start >= 0 && end >= 0 then path[start..end] else "";
  }

  method Match(re: RegExp, path: string) returns (params: Option<Params>)
    requires Usable(re)
    ensures params == Matched(re, path)
  {
    var matches := Texts(FindCaptures(re, path));
    if |matches| == 0 { return None; }
    var keys := re.names;
    var result: Params := map[];
    var i := 1;
    while i < |keys|
      invariant 1 <= i <= |keys|
      invariant result == ParamsOf(keys[1..i], matches[1..i])
    {
      ParamsOfNext(keys, matches, i);
      if keys[i] != "" { result := result[keys[i] := matches[i]]; }
      i := i + 1;
    }
    assert keys[1..i] == keys[1..] && matches[1..i] == matches[1..];
    params := Some(result);
  }

  /** The parameters of a context; none is the nil map. */
  class ParamsCell {
    var params: Option<Params>

    constructor ()
      ensures params == None
    {
      params := None;
    }

    method Clear()
      requires params.Some?
      modifies this
      ensures params == Some(map[])
    {
      var keys := params.value.Keys;
      while keys != {}
        invariant params.Some? && keys == params.value.Keys
        decreases |keys|
      {
        var key :| key in keys;
        params := Some(params.value - {key});
        keys := keys - {key};
      }
    }

    method Fill(keys: seq<string>, path: string, indices: seq<int>)
      requires |keys| > 0 && |indices| == 2 * |keys| && ValidIndices(keys, indices, path) && params == Some(map[])
      modifies this
      ensures params == Some(ParamsOf(keys[1..], Texts(CapturesIn(path, indices, |keys|))[1..]))
    {
      ghost var texts := Texts(CapturesIn(path, indices, |keys|));
      var i := 1;
      while i < |keys|
        invariant 1 <= i <= |keys|
        invariant params == Some(ParamsOf(keys[1..i], texts[1..i]))
      {
        ParamsOfNext(keys, texts, i);
        if keys[i] != "" {
          var text := TextBetween(path, keys, indices, i);
          params := Some(params.value[keys[i] := text]);
        }
        i := i + 1;
      }
      assert keys[1..i] == keys[1..] && texts[1..i] == texts[1..];
    }

    /** The same as Match, in place: nothing of the earlier match stays, and a failed one changes nothing. */
    method MatchInto(re: RegExp, path: string) returns (matched: bool)
      requires Usable(re)
      modifies this
      ensures matched <==> Matched(re, path).Some?
      ensures params == if matched then Matched(re, path) else old(params)
    {
      var indices := FindIndices(re, path);
      if |indices| == 0 { return false; }
      assert ValidIndices(re.names, indices, path);
      if params.None? { params := Some(map[]); }
      Clear();
      Fill(re.names, path, indices);
      matched := true;
    }
  }

  /** There is a match exactly if the search finds one, and each named group has the text between its start and end, or
      none if it took no part; of two groups of the same name the later one counts. */
  lemma {:induction false} GroupsGiveTexts(re: RegExp, path: string, i: nat)
    requires Usable(re)
    ensures Matched(re, path).Some? <==> re.find(path) != []
    ensures Matched(re, path).Some? && 0 < i < |re.names| && re.names[i] != ""
            && (forall j :: i < j < |re.names| ==> re.names[j] != re.names[i]) ==>
              var at := re.find(path);
              && |at| == 2 * |re.names| && re.names[i] in Matched(re, path).value
              && (at[2 * i] == -1 ==> Matched(re, path).value[re.names[i]] == "")
              && (at[2 * i] != -1 ==> 0 <= at[2 * i] <= at[2 * i + 1] <= |path|
                                      && Matched(re, path).value[re.names[i]] == path[at[2 * i]..at[2 * i + 1]])
  {
    var at := FindIndices(re, path);
    assert ValidIndices(re.names, at, path);
    if |at| > 0 && 0 < i < |re.names| && re.names[i] != ""
       && forall j :: i < j < |re.names| ==> re.names[j] != re.names[i]
    {
      LaterNameCounts(re.names[1..], Texts(FindCaptures(re, path))[1..], i - 1);
    }
  }

  lemma {:induction false} LaterNameCounts(names: seq<string>, texts: seq<string>, i: nat)
    requires |texts| == |names| && i < |names| && names[i] != ""
    requires forall j :: i < j < |names| ==> names[j] != names[i]
    ensures names[i] in ParamsOf(names, texts) && ParamsOf(names, texts)[names[i]] == texts[i]
    decreases |names|
  {
    var n := |names| - 1;
    if i < n { LaterNameCounts(names[..n], texts[..n], i); }
  }

  /** Nothing but the names of groups is a parameter. */
  lemma {:induction false} OnlyNamesAreParams(names: seq<string>, texts: seq<string>)
    requires |texts| == |names|
    ensures forall key :: key in ParamsOf(names, texts) ==> key in names && key != ""
    decreases |names|
  {
    if |names| > 0 { OnlyNamesAreParams(names[..|names| - 1], texts[..|names| - 1]); }
  }

  // ---- What a match means

  function DynamicKeys(chunks: seq<Chunk>): seq<string> {
    if |chunks| == 0 then [] else (if chunks[0].kind.Dynamic? then [chunks[0].key] else []) + DynamicKeys(chunks[1..])
  }

  predicate Distinct(names: seq<string>) {
    (forall i :: 0 <= i < |names| ==> names[i] != "") && forall i, j :: 0 <= i < j < |names| ==> names[i] != names[j]
  }

  /** What the expression library owes for the emitted text: it finds a match exactly if there is one, with a valid
      assignment of captures. */
  ghost predicate Engine(lang: Language, chunks: seq<Chunk>, re: RegExp) {
    && Usable(re) && re.names == [""] + DynamicKeys(chunks)
    && forall path ::
         if |FindCaptures(re, path)| > 0 then Accepts(lang, Whole(chunks), path, FindCaptures(re, path)[1..])
         else forall captures :: !Accepts(lang, Whole(chunks), path, captures)
  }

  lemma {:induction false} BodyKeys(chunks: seq<Chunk>)
    ensures Keys(Body(chunks)) == DynamicKeys(chunks)
    decreases |chunks|
  {
    if |chunks| > 0 {
      ChunkKeys(chunks[0]);
      BodyKeys(chunks[1..]);
    }
  }

  /** The names the library reports are those of the emitted groups. */
  lemma WholeKeys(chunks: seq<Chunk>)
    ensures Keys(Whole(chunks)) == DynamicKeys(chunks)
  {
    BodyKeys(chunks);
    assert Keys(Opt(Slash)) == Keys(Slash) == [];
  }

  lemma {:induction false} ParamsAreCaptures(names: seq<string>, texts: seq<string>)
    requires |texts| == |names| && Distinct(names)
    ensures forall key :: key in ParamsOf(names, texts) <==> key in names
    ensures forall i :: 0 <= i < |names| ==>
              names[i] in ParamsOf(names, texts) && ParamsOf(names, texts)[names[i]] == texts[i]
    decreases |names|
  {
    if |names| > 0 {
      var n := |names| - 1;
      ParamsAreCaptures(names[..n], texts[..n]);
      assert names == names[..n] + [names[n]];
      forall i | 0 <= i < n ensures names[i] in ParamsOf(names, texts) && ParamsOf(names, texts)[names[i]] == texts[i] {
        assert names[..n][i] == names[i] && texts[..n][i] == texts[i];
      }
    }
  }

  /** A path is matched exactly if the segment matcher matches it; then there is one parameter for each named chunk, the
      segments the chunk took, empty if it took none. */
  lemma {:induction false} MatchedMeans(lang: Language, chunks: seq<Chunk>, re: RegExp, path: string)
    requires Engine(lang, chunks, re) && Local(lang, chunks) && Distinct(DynamicKeys(chunks))
    ensures Matched(re, path).Some? <==> RouteMatches(lang, chunks, path)
    ensures Matched(re, path).Some? ==>
      exists parts: seq<seq<string>>, captures: seq<Option<string>> :: Splits(lang, chunks, parts, path, captures)
        && CapturedIn(Matched(re, path).value, DynamicKeys(chunks), captures)
  {
    CompiledMatchesSegments(lang, chunks, path);
    if |FindCaptures(re, path)| > 0 {
      var captures := FindCaptures(re, path)[1..];
      assert Accepts(lang, Whole(chunks), path, captures);
      var parts := WholeParts(lang, chunks, path, captures);
      MatchedCaptures(lang, chunks, re, path);
    }
  }

  /** The parameters are exactly the captures by name, absent ones empty. */
  ghost predicate CapturedIn(params: Params, names: seq<string>, captures: seq<Option<string>>) {
    && |captures| == |names| && (forall key :: key in params <==> key in names)
    && forall i :: 0 <= i < |names| ==> names[i] in params && params[names[i]] == Shown(captures[i])
  }

  lemma {:induction false} MatchedCaptures(lang: Language, chunks: seq<Chunk>, re: RegExp, path: string)
    requires Engine(lang, chunks, re) && Distinct(DynamicKeys(chunks)) && |FindCaptures(re, path)| > 0
    ensures Matched(re, path).Some?
    ensures CapturedIn(Matched(re, path).value, DynamicKeys(chunks), FindCaptures(re, path)[1..])
  {
    assert re.names[1..] == DynamicKeys(chunks);
    ParamsAreCaptures(DynamicKeys(chunks), Texts(FindCaptures(re, path))[1..]);
  }
}
