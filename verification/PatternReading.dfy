/** What the parser reads from the text of one chunk, whatever that text is, and which texts it refuses. */
module PatternReading {
  import opened Wrappers
  import opened PatternParser
  import opened PatternParsing

  /** The modifier a rune at the end of a chunk stands for. */
  function Marked(rune: char): ChunkModifier {
    if rune == '?' then Optional else if rune == '+' then OneOrMore else if rune == '*' then ZeroOrMore else Single
  }

  /** A chunk with the rest of its text: a mark at the very end is its modifier, all before it belongs to its name or
      text. */
  function WithRest(c: Chunk, rest: string): Chunk {
    if |rest| > 0 && IsMark(rest[|rest| - 1])
    then WithText(c, rest[..|rest| - 1]).(modifier := Marked(rest[|rest| - 1]))
    else WithText(c, rest)
  }

  /** The first rune tells the kind. */
  function Reading(text: string): Chunk {
    if text == "" then BLANK
    else if text[0] == ':' then WithRest(Chunk(Dynamic, Single, "", ""), text[1..])
    else if text[0] == '*' then WithRest(Chunk(Wildcard, Single, "", ""), text[1..])
    else WithRest(Chunk(Static, Single, "", ""), text)
  }

  lemma {:induction false} ScanRest(c: Chunk, text: string, rest: string)
    requires !c.kind.Unknown? && c.modifier.Single? && Plain(text) && AtChunkEnd(rest)
    ensures Scan(text + rest, Some(c)) == Scan(rest, Some(WithRest(c, text)))
    decreases |text|
  {
    if |text| == 0 {
      assert text + rest == rest && WithText(c, text) == c;
    } else {
      var all := text + rest;
      assert all[0] == text[0] && all[1..] == text[1..] + rest && text[0] in text;
      if |text| == 1 {
        assert LastInChunk(all) && all[1..] == rest && text == [text[0]] && text[..0] == "";
        OneRune(c, text[0]);
      } else {
        assert all[1] == text[1] && text[1] in text;
        ScanRest(WithRune(c, text[0]), text[1..], rest);
        RestOfRest(c, text);
      }
    }
  }

  lemma {:induction false} OneRune(c: Chunk, rune: char)
    requires !c.kind.Unknown? && c.modifier.Single?
    ensures WithRest(c, [rune]) == var d := WithModifier(c, rune); if d.modifier.Single? then WithRune(d, rune) else d
  {
    assert [rune][..0] == "";
    assert c.key + "" == c.key && c.pattern + "" == c.pattern;
  }

  lemma {:induction false} RestOfRest(c: Chunk, text: string)
    requires !c.kind.Unknown? && |text| > 1
    ensures WithRest(WithRune(c, text[0]), text[1..]) == WithRest(c, text)
  {
    var n := |text| - 1;
    assert text[1..][|text[1..]| - 1] == text[n];
    assert [text[0]] + text[1..] == text && [text[0]] + text[1..][..n - 1] == text[..n];
    assert c.key + [text[0]] + text[1..] == c.key + ([text[0]] + text[1..]);
    assert c.key + [text[0]] + text[1..][..n - 1] == c.key + ([text[0]] + text[1..][..n - 1]);
    assert c.pattern + [text[0]] + text[1..] == c.pattern + ([text[0]] + text[1..]);
    assert c.pattern + [text[0]] + text[1..][..n - 1] == c.pattern + ([text[0]] + text[1..][..n - 1]);
  }

  lemma {:induction false} StartChunk(text: string)
    ensures Parse("/" + text) == Scan(text, Some(BLANK))
  {
    assert ("/" + text)[1..] == text;
    PrependNothing(Scan(text, Some(BLANK)));
  }

  /** Nothing is a pattern of no chunks; anything else must start with a slash. */
  lemma {:induction false} PatternStartsWithSlash(pattern: string)
    ensures pattern == "" ==> Parse(pattern) == Ok([])
    ensures pattern != "" && pattern[0] != '/' ==> Parse(pattern) == Err("pattern must start with a leading slash")
  {}

  lemma {:induction false} KindIsRead(text: string)
    requires |text| > 0 && text[0] != '/' && text[0] != '('
    ensures Scan(text, Some(BLANK))
            == if text[0] == ':' then Scan(text[1..], Some(Chunk(Dynamic, Single, "", "")))
               else if text[0] == '*' then Scan(text[1..], Some(Chunk(Wildcard, Single, "", "")))
               else Scan(text, Some(Chunk(Static, Single, "", "")))
  {}

  /** Any text without slashes and parentheses is read as one chunk, and no such text is refused. */
  lemma {:induction false} PlainTextIsRead(text: string)
    requires Plain(text)
    ensures Parse("/" + text) == Ok([Reading(text)])
  {
    StartChunk(text);
    if |text| > 0 {
      assert text[0] in text;
      KindIsRead(text);
      assert text + "" == text && text[1..] + "" == text[1..];
      if text[0] == ':' || text[0] == '*' {
        assert Plain(text[1..]);
        ScanRest(if text[0] == ':' then Chunk(Dynamic, Single, "", "")
            else Chunk(Wildcard, Single, "", ""), text[1..], "");
      } else {
        ScanRest(Chunk(Static, Single, "", ""), text, "");
      }
    }
  }

  // ---- Subpatterns

  lemma {:induction false} ScanHead(c: Chunk, text: string, rest: string)
    requires (c.kind.Static? || c.kind.Dynamic? || c.kind.Wildcard?) && c.modifier.Single? && Plain(text)
    requires |rest| > 0 && rest[0] != '/'
    ensures Scan(text + rest, Some(c)) == Scan(rest, Some(WithText(c, text)))
    decreases |text|
  {
    if |text| == 0 {
      assert text + rest == rest && WithText(c, text) == c;
    } else {
      var all := text + rest;
      assert all[0] == text[0] && all[1..] == text[1..] + rest && text[0] in text;
      assert |text| > 1 ==> all[1] == text[1] && text[1] in text;
      assert |text| == 1 ==> all[1] == rest[0];
      ScanHead(WithRune(c, text[0]), text[1..], rest);
      assert [text[0]] + text[1..] == text;
      assert c.key + [text[0]] + text[1..] == c.key + ([text[0]] + text[1..]);
      assert c.pattern + [text[0]] + text[1..] == c.pattern + ([text[0]] + text[1..]);
    }
  }

  lemma {:induction false} Regrouped(x: string, a: string, b: string, c: string, d: string)
    ensures x + a + b + c + d == x + (a + b + c + d)
  {}

  lemma {:induction false} NameIsRead(name: string, rest: string)
    requires Plain(name) && |rest| > 0 && rest[0] != '/'
    ensures Parse("/:" + name + rest) == Scan(rest, Some(Chunk(Dynamic, Single, name, "")))
  {
    assert "/:" + name + rest == "/" + (":" + (name + rest));
    StartChunk(":" + (name + rest));
    assert (":" + (name + rest))[1..] == name + rest;
    ScanHead(Chunk(Dynamic, Single, "", ""), name, rest);
    assert "" + name == name;
  }

  /** A name with a subpattern after it, and what follows: the rest goes on with the name, as if there were no
      subpattern. */
  lemma {:induction false} NamedSubpatternIsRead(name: string, subpattern: string, rest: string)
    requires name != "" && Plain(name) && ')' !in subpattern && Plain(rest)
    ensures Parse("/:" + name + "(" + subpattern + ")" + rest)
            == Ok([WithRest(Chunk(Dynamic, Single, name, subpattern), rest)])
  {
    Regrouped("/:" + name, "(", subpattern, ")", rest);
    NameIsRead(name, "(" + subpattern + ")" + rest);
    Enclosed(Chunk(Dynamic, Single, name, ""), subpattern, rest);
    assert rest + "" == rest;
    ScanRest(Chunk(Dynamic, Single, name, subpattern), rest, "");
  }

  /** The subpattern goes up to the first closing parenthesis. */
  lemma {:induction false} Enclosed(c: Chunk, subpattern: string, rest: string)
    requires (c.kind.Dynamic? || c.kind.Wildcard?) && (c.kind.Dynamic? ==> c.key != "") && c.pattern == ""
    requires ')' !in subpattern
    ensures Scan("(" + subpattern + ")" + rest, Some(c)) == Scan(rest, Some(c.(pattern := subpattern)))
  {
    var all := "(" + subpattern + ")" + rest;
    var j := Closing(all, 1);
    assert all[|subpattern| + 1] == ')';
    assert forall k :: 1 <= k <= |subpattern| ==> all[k] == subpattern[k - 1];
    assert j == |subpattern| + 1;
    assert all[1..j] == subpattern && all[j + 1..] == rest;
  }

  /** A subpattern alone, or after a star, is a wildcard; other runes of such a chunk are skipped. */
  lemma {:induction false} WildcardSubpatternIsRead(subpattern: string, rest: string)
    requires ')' !in subpattern && Plain(rest)
    ensures Parse("/(" + subpattern + ")" + rest) == Ok([WithRest(Chunk(Wildcard, Single, "", subpattern), rest)])
    ensures Parse("/*(" + subpattern + ")" + rest) == Ok([WithRest(Chunk(Wildcard, Single, "", subpattern), rest)])
  {
    var tail := "(" + subpattern + ")" + rest;
    assert "/(" + subpattern + ")" + rest == "/" + tail && "/*(" + subpattern + ")" + rest == "/" + ("*" + tail);
    StartChunk(tail);
    StartChunk("*" + tail);
    assert ("*" + tail)[1..] == tail;
    Enclosed(Chunk(Wildcard, Single, "", ""), subpattern, rest);
    assert rest + "" == rest;
    ScanRest(Chunk(Wildcard, Single, "", subpattern), rest, "");
  }

  /** A subpattern without a name before it is refused. */
  lemma {:induction false} NamelessSubpatternIsRefused(rest: string)
    ensures Parse("/:(" + rest) == Err("dynamic chunks must have a name")
  {
    assert "/:(" + rest == "/" + (":(" + rest);
    StartChunk(":(" + rest);
    assert (":(" + rest)[1..] == "(" + rest;
  }

  /** So is one after static text, and a second one in a chunk. */
  lemma {:induction false} SubpatternAfterTextIsRefused(text: string, rest: string)
    requires text != "" && Plain(text) && text[0] != ':' && text[0] != '*'
    ensures Parse("/" + text + "(" + rest) == Err("pattern chunks cannot contain multiple subpatterns")
  {
    var tail := "(" + rest;
    assert "/" + text + "(" + rest == "/" + (text + tail);
    StartChunk(text + tail);
    assert (text + tail)[0] == text[0] && text[0] in text;
    KindIsRead(text + tail);
    ScanHead(Chunk(Static, Single, "", ""), text, tail);
  }

  lemma {:induction false} SecondSubpatternIsRefused(name: string, subpattern: string, between: string, rest: string)
    requires name != "" && Plain(name) && subpattern != "" && ')' !in subpattern && Plain(between)
    ensures Parse("/:" + name + "(" + subpattern + ")" + between + "(" + rest)
            == Err("pattern chunks cannot contain multiple subpatterns")
    ensures Parse("/(" + subpattern + ")" + between + "(" + rest)
            == Err("pattern chunks cannot contain multiple subpatterns")
  {
    var last := "(" + rest;
    NamedSecond(name, subpattern, between, rest);
    var tail := "(" + subpattern + ")" + (between + last);
    assert "/(" + subpattern + ")" + between + "(" + rest == "/" + tail;
    StartChunk(tail);
    Enclosed(Chunk(Wildcard, Single, "", ""), subpattern, between + last);
    ScanHead(Chunk(Wildcard, Single, "", subpattern), between, last);
  }

  lemma {:induction false} NamedSecond(name: string, subpattern: string, between: string, rest: string)
    requires name != "" && Plain(name) && subpattern != "" && ')' !in subpattern && Plain(between)
    ensures Parse("/:" + name + "(" + subpattern + ")" + between + "(" + rest)
            == Err("pattern chunks cannot contain multiple subpatterns")
  {
    var last := "(" + rest;
    Regrouped("/:" + name, "(", subpattern, ")", between + last);
    assert "/:" + name + "(" + subpattern + ")" + between + "(" + rest
        == "/:" + name + "(" + subpattern + ")" + (between + last);
    NameIsRead(name, "(" + subpattern + ")" + (between + last));
    Enclosed(Chunk(Dynamic, Single, name, ""), subpattern, between + last);
    ScanHead(Chunk(Dynamic, Single, name, subpattern), between, last);
  }

  /** A parenthesis that is never closed is left out. */
  lemma {:induction false} UnclosedParenthesisIsSkipped(name: string, rest: string)
    requires name != "" && Plain(name) && Plain(rest) && ')' !in rest
    ensures Parse("/:" + name + "(" + rest) == Ok([WithRest(Chunk(Dynamic, Single, name, ""), rest)])
  {
    var tail := "(" + rest;
    assert "/:" + name + "(" + rest == "/" + (":" + (name + tail));
    StartChunk(":" + (name + tail));
    assert (":" + (name + tail))[1..] == name + tail;
    ScanHead(Chunk(Dynamic, Single, "", ""), name, tail);
    assert "" + name == name && tail[1..] == rest && rest + "" == rest;
    assert forall k :: 1 <= k < |tail| ==> tail[k] == rest[k - 1];
    assert Closing(tail, 1) == |tail|;
    ScanRest(Chunk(Dynamic, Single, name, ""), rest, "");
  }
}
