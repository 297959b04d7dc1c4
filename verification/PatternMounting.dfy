/** Parsing one pattern after another, as mounting a router builds them. */
module PatternMounting {
  import opened Wrappers
  import opened PatternParser

  /** Every opening parenthesis is followed by a closing one. */
  predicate Closed(s: string) {
    forall i :: 0 <= i < |s| && s[i] == '(' ==> Closing(s, i) < |s|
  }

  function Then(first: Result<seq<Chunk>>, second: Result<seq<Chunk>>): Result<seq<Chunk>> {
    match first
    case Ok(chunks) => Prepend(chunks, second)
    case Err(reason) => Err(reason)
  }

  lemma {:induction false} ClosingInPrefix(a: string, b: string, from: nat)
    requires from <= |a|
    ensures Closing(a, from) < |a| ==> Closing(a + b, from) == Closing(a, from)
    ensures Closing(a, from) == |a| ==> Closing(a + b, from) == |a| + Closing(b, 0)
    decreases |a| - from
  {
    if from == |a| {
      ClosingInSuffix(a + b, |a|, 0);
      assert (a + b)[|a|..] == b;
    } else if a[from] != ')' {
      ClosingInPrefix(a, b, from + 1);
    }
  }

  lemma ClosedAfter(s: string, i: nat)
    requires Closed(s) && i <= |s|
    ensures Closed(s[i..])
  {
    forall k | 0 <= k < |s[i..]| && s[i..][k] == '(' ensures Closing(s[i..], k) < |s[i..]| {
      assert s[i + k] == '(';
      ClosingInSuffix(s, i, k);
    }
  }

  lemma NoClosing(b: string)
    requires ')' !in b
    ensures Closing(b, 0) == |b|
  {
    if Closing(b, 0) < |b| { assert false; }
  }

  lemma ThenAfterPrepend(chunks: seq<Chunk>, first: Result<seq<Chunk>>, second: Result<seq<Chunk>>)
    ensures Then(Prepend(chunks, first), second) == Prepend(chunks, Then(first, second))
  {
    if first.Ok? { PrependAgain(chunks, first.value, second); }
  }

  lemma {:induction false} ScanBoth(a: string, current: Option<Chunk>, b: string)
    requires |b| > 0 && b[0] == '/' && (Closed(a) || ')' !in b)
    ensures Scan(a + b, current) == Then(Scan(a, current), Scan(b, None))
    decreases |a|, if current.Some? && current.value.kind.Unknown? then 1 else 0
  {
    var all := a + b;
    if |a| == 0 {
      assert all == b;
      PrependNothing(Scan(b[1..], Some(BLANK)));
    } else {
      assert all[0] == a[0] && all[1..] == a[1..] + b && (|a| > 1 ==> all[1] == a[1]);
      if Closed(a) { ClosedAfter(a, 1); }
      if a[0] == '/' {
        ScanBoth(a[1..], Some(BLANK), b);
        ThenAfterPrepend(Finished(current), Scan(a[1..], Some(BLANK)), Scan(b, None));
      } else if current.Some? && current.value.kind.Unknown? {
        ScanBothUnknown(a, current.value, b);
      } else if current.Some? && a[0] == '(' {
        ScanBothSubpattern(a, current.value, b);
      } else if current.Some? {
        var d := if LastInChunk(a) then WithModifier(current.value, a[0]) else current.value;
        assert LastInChunk(a) == LastInChunk(all);
        ScanBoth(a[1..], Some(if LastInChunk(a) && !d.modifier.Single? then d else WithRune(d, a[0])), b);
      }
    }
  }

  lemma {:induction false} ScanBothUnknown(a: string, c: Chunk, b: string)
    requires |b| > 0 && b[0] == '/' && (Closed(a) || ')' !in b) && c.kind.Unknown? && |a| > 0 && a[0] != '/'
    ensures Scan(a + b, Some(c)) == Then(Scan(a, Some(c)), Scan(b, None))
    decreases |a|, 1, 0
  {
    assert (a + b)[0] == a[0] && (a + b)[1..] == a[1..] + b;
    if Closed(a) { ClosedAfter(a, 1); }
    match a[0] {
      case ':' => ScanBoth(a[1..], Some(c.(kind := Dynamic)), b);
      case '*' => ScanBoth(a[1..], Some(c.(kind := Wildcard)), b);
      case '(' => ScanBoth(a, Some(c.(kind := Wildcard)), b);
      case _ => ScanBoth(a, Some(c.(kind := Static)), b);
    }
  }

  lemma {:induction false} ScanBothSubpattern(a: string, c: Chunk, b: string)
    requires |b| > 0 && b[0] == '/' && (Closed(a) || ')' !in b) && !c.kind.Unknown? && |a| > 0 && a[0] == '('
    ensures Scan(a + b, Some(c)) == Then(Scan(a, Some(c)), Scan(b, None))
    decreases |a|, 0, 0
  {
    var all, j := a + b, Closing(a, 1);
    assert all[0] == '(' && all[1..] == a[1..] + b;
    ClosingInPrefix(a, b, 1);
    if j < |a| {
      assert all[1..j] == a[1..j] && all[j + 1..] == a[j + 1..] + b;
      if Closed(a) { ClosedAfter(a, j + 1); }
      ScanBoth(a[j + 1..], Some(c.(pattern := a[1..j])), b);
    } else {
      if Closed(a) { assert false; }
      NoClosing(b);
      ScanBoth(a[1..], Some(c), b);
    }
  }

  // ---- Where it fails: a parenthesis left open in the first pattern takes in the start of the second

  /** Static text starts with a rune that is no parenthesis. */
  predicate Sound(c: Chunk, rest: string) {
    c.kind.Static? && c.pattern == "" ==> |rest| == 0 || rest[0] != '('
  }

  predicate Grouping(c: Chunk) {
    c.kind.Dynamic? || c.kind.Wildcard?
  }

  /** Without a closing parenthesis no subpattern is read; one that was read stays. */
  lemma {:induction false} SubpatternStays(rest: string, c: Chunk)
    requires Grouping(c) && (')' !in rest || c.pattern != "") && Scan(rest, Some(c)).Ok?
    ensures |Scan(rest, Some(c)).value| > 0 && Scan(rest, Some(c)).value[0].pattern == c.pattern
    decreases |rest|
  {
    if |rest| > 0 && rest[0] != '/' {
      if rest[0] == '(' {
        assert c.pattern == "";
        if Closing(rest, 1) < |rest| { assert false; }
        SubpatternStays(rest[1..], c);
      } else {
        var d := if LastInChunk(rest) then WithModifier(c, rest[0]) else c;
        SubpatternStays(rest[1..], if LastInChunk(rest) && !d.modifier.Single? then d else WithRune(d, rest[0]));
      }
    }
  }

  lemma NotClosedAfter(s: string, i: nat)
    requires !Closed(s) && i <= |s| && forall k :: 0 <= k < i && s[k] == '(' ==> Closing(s, k) < |s|
    ensures !Closed(s[i..])
  {
    var p :| 0 <= p < |s| && s[p] == '(' && Closing(s, p) == |s|;
    ClosingInSuffix(s, i, p - i);
    assert s[i..][p - i] == '(';
  }

  lemma {:induction false} ClosingMonotone(s: string, from: nat, mid: nat)
    requires from <= |s| && from <= mid <= Closing(s, from)
    ensures Closing(s, mid) == Closing(s, from)
    decreases mid - from
  {
    if from < mid { ClosingMonotone(s, from + 1, mid); }
  }

  lemma OpenAlone(a: string, c: Chunk)
    requires |a| > 0 && a[0] == '(' && Closing(a, 1) == |a| && Grouping(c) && Scan(a, Some(c)).Ok?
    ensures c.pattern == "" && |Scan(a, Some(c)).value| > 0 && Scan(a, Some(c)).value[0].pattern == ""
  {
    assert ')' !in a[1..];
    SubpatternStays(a[1..], c);
  }

  lemma OpenWithMount(all: string, c: Chunk)
    requires |all| > 0 && all[0] == '(' && 1 < Closing(all, 1) < |all| && Grouping(c) && Scan(all, Some(c)).Ok?
    ensures |Scan(all, Some(c)).value| > 0 && Scan(all, Some(c)).value[0].pattern != ""
  {
    var j := Closing(all, 1);
    assert |all[1..j]| > 0;
    SubpatternStays(all[j + 1..], c.(pattern := all[1..j]));
  }

  lemma FirstPatternDiffers(one: Result<seq<Chunk>>, chunks: seq<Chunk>, rest: Result<seq<Chunk>>)
    requires |chunks| > 0 && chunks[0].pattern == ""
    requires rest.Ok? && (one.Ok? ==> |one.value| > 0 && one.value[0].pattern != "")
    ensures one != Prepend(chunks, rest)
  {
    assert (chunks + rest.value)[0] == chunks[0];
  }

  lemma MountCloses(a: string, b: string)
    requires |b| > 0 && b[0] == '/' && ')' in b && |a| > 0 && a[0] == '(' && Closing(a, 1) == |a|
    ensures (a + b)[0] == '(' && 1 < Closing(a + b, 1) < |a + b|
  {
    ClosingInPrefix(a, b, 1);
    ClosesLater(b);
  }

  lemma ClosesLater(b: string)
    requires |b| > 0 && b[0] == '/' && ')' in b
    ensures 0 < Closing(b, 0) < |b|
  {
    var k :| 0 <= k < |b| && b[k] == ')';
    assert Closing(b, 0) <= k;
    assert b[0] != ')';
  }

  lemma OpenTakesInMount(a: string, c: Chunk, b: string)
    requires |b| > 0 && b[0] == '/' && ')' in b && Parse(b).Ok? && |a| > 0 && a[0] == '(' && Closing(a, 1) == |a|
    requires Grouping(c) && Scan(a, Some(c)).Ok?
    ensures Scan(a + b, Some(c)) != Then(Scan(a, Some(c)), Scan(b, None))
  {
    var alone, all := Scan(a, Some(c)), a + b;
    OpenAlone(a, c);
    MountCloses(a, b);
    var whole := Scan(all, Some(c));
    if whole.Ok? { OpenWithMount(all, c); }
    FirstPatternDiffers(whole, alone.value, Scan(b, None));
  }

  lemma PrependDiffers(chunks: seq<Chunk>, one: Result<seq<Chunk>>, other: Result<seq<Chunk>>)
    requires one != other
    ensures Prepend(chunks, one) != Prepend(chunks, other)
  {
    if one.Ok? && other.Ok? {
      assert (chunks + one.value)[|chunks|..] == one.value && (chunks + other.value)[|chunks|..] == other.value;
    }
  }

  lemma {:induction false} ScanDiffers(a: string, current: Option<Chunk>, b: string)
    requires |b| > 0 && b[0] == '/' && ')' in b && Parse(b).Ok? && !Closed(a) && Scan(a, current).Ok?
    requires current.Some? ==> Sound(current.value, a)
    ensures Scan(a + b, current) != Then(Scan(a, current), Scan(b, None))
    decreases |a|, if current.Some? && current.value.kind.Unknown? then 1 else 0
  {
    var all := a + b;
    assert all[0] == a[0] && all[1..] == a[1..] + b && (|a| > 1 ==> all[1] == a[1]);
    if a[0] == '/' {
      NotClosedAfter(a, 1);
      ScanDiffers(a[1..], Some(BLANK), b);
      PrependDiffers(Finished(current), Scan(a[1..] + b, Some(BLANK)), Then(Scan(a[1..], Some(BLANK)), Scan(b, None)));
      ThenAfterPrepend(Finished(current), Scan(a[1..], Some(BLANK)), Scan(b, None));
    } else if current.value.kind.Unknown? {
      ScanDiffersUnknown(a, current.value, b);
    } else if a[0] == '(' {
      ScanDiffersSubpattern(a, current.value, b);
    } else {
      NotClosedAfter(a, 1);
      var d := if LastInChunk(a) then WithModifier(current.value, a[0]) else current.value;
      ScanDiffers(a[1..], Some(if LastInChunk(a) && !d.modifier.Single? then d else WithRune(d, a[0])), b);
    }
  }

  lemma {:induction false} ScanDiffersUnknown(a: string, c: Chunk, b: string)
    requires |b| > 0 && b[0] == '/' && ')' in b && Parse(b).Ok? && !Closed(a) && Scan(a, Some(c)).Ok?
    requires c.kind.Unknown? && |a| > 0 && a[0] != '/'
    ensures Scan(a + b, Some(c)) != Then(Scan(a, Some(c)), Scan(b, None))
    decreases |a|, 1, 0
  {
    assert (a + b)[0] == a[0] && (a + b)[1..] == a[1..] + b;
    match a[0] {
      case ':' =>
        NotClosedAfter(a, 1);
        ScanDiffers(a[1..], Some(c.(kind := Dynamic)), b);
      case '*' =>
        NotClosedAfter(a, 1);
        ScanDiffers(a[1..], Some(c.(kind := Wildcard)), b);
      case '(' => ScanDiffers(a, Some(c.(kind := Wildcard)), b);
      case _ => ScanDiffers(a, Some(c.(kind := Static)), b);
    }
  }

  lemma {:induction false} ScanDiffersSubpattern(a: string, c: Chunk, b: string)
    requires |b| > 0 && b[0] == '/' && ')' in b && Parse(b).Ok? && !Closed(a) && Scan(a, Some(c)).Ok?
    requires !c.kind.Unknown? && Sound(c, a) && |a| > 0 && a[0] == '('
    ensures Scan(a + b, Some(c)) != Then(Scan(a, Some(c)), Scan(b, None))
    decreases |a|, 0, 0
  {
    var all, j := a + b, Closing(a, 1);
    assert all[0] == '(' && Grouping(c);
    if j < |a| {
      ClosingInPrefix(a, b, 1);
      assert all[1..j] == a[1..j] && all[j + 1..] == a[j + 1..] + b;
      forall k | 0 <= k < j + 1 && a[k] == '(' ensures Closing(a, k) < |a| {
        if k > 0 { ClosingMonotone(a, 1, k); }
      }
      NotClosedAfter(a, j + 1);
      ScanDiffers(a[j + 1..], Some(c.(pattern := a[1..j])), b);
    } else {
      OpenTakesInMount(a, c, b);
    }
  }

  /** A pattern mounted below a prefix, both of which parse, is parsed as the prefix and then the pattern exactly if
      the prefix leaves no parenthesis open or the pattern has none to close it. */
  lemma MountedPatternParsesInTurn(prefix: string, pattern: string)
    requires Parse(prefix).Ok? && Parse(pattern).Ok? && |pattern| > 0 && pattern[0] == '/'
    ensures Parse(prefix + pattern) == Then(Parse(prefix), Parse(pattern)) <==> Closed(prefix) || ')' !in pattern
  {
    if Closed(prefix) || ')' !in pattern {
      ScanBoth(prefix, None, pattern);
    } else {
      ScanDiffers(prefix, None, pattern);
    }
  }
}
