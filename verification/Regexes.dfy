/** The regular expressions the pattern compiler emits, with what they accept and capture. */
module Regexes {
  import opened Wrappers

  /** `Text` is text taken over as it is; its language is a parameter, of words between slashes in every use here. */
  datatype Re =
    | Epsilon
    | Slash
    | Text(pattern: string)
    | Cat(first: Re, second: Re)
    | Opt(inner: Re)
    | Star(inner: Re)
    | NonCapture(inner: Re)
    | Group(key: string, inner: Re)

  /** Whether a word is in the language of a text. */
  type Language = (string, string) -> bool

  predicate InLanguage(lang: Language, pattern: string, word: string) {
    lang(pattern, word)
  }

  function Show(re: Re): string {
    match re
    case Epsilon => ""
    case Slash => "\\/"
    case Text(pattern) => pattern
    case Cat(first, second) => Show(first) + Show(second)
    case Opt(inner) => Show(inner) + "?"
    case Star(inner) => Show(inner) + "*"
    case NonCapture(inner) => "(?:" + Show(inner) + ")"
    case Group(key, inner) => "(?P<" + key + ">" + Show(inner) + ")"
  }

  /** The names of the groups, in order. */
  function Keys(re: Re): seq<string> {
    match re
    case Cat(first, second) => Keys(first) + Keys(second)
    case Opt(inner) => Keys(inner)
    case Star(inner) => Keys(inner)
    case NonCapture(inner) => Keys(inner)
    case Group(key, inner) => [key] + Keys(inner)
    case _ => []
  }

  function Absent(n: nat): (captures: seq<Option<string>>)
    ensures |captures| == n
  {
    seq(n, _ => None)
  }

  /** A whole-word match, with what each group captured. No group stands under a star. */
  ghost predicate Accepts(lang: Language, re: Re, word: string, captures: seq<Option<string>>)
    decreases re, |word|, 1
  {
    match re
    case Epsilon => word == "" && captures == []
    case Slash => word == "/" && captures == []
    case Text(pattern) => InLanguage(lang, pattern, word) && captures == []
    case Cat(_, _) => exists i: nat, j: nat :: InSequence(lang, re, word, captures, i, j)
    case Opt(inner) => (word == "" && captures == Absent(|Keys(inner)|)) || Accepts(lang, inner, word, captures)
    case Star(_) => captures == [] && (word == "" || exists i: nat :: OnceMore(lang, re, word, i))
    case NonCapture(inner) => Accepts(lang, inner, word, captures)
    case Group(_, inner) => |captures| > 0 && captures[0] == Some(word) && Accepts(lang, inner, word, captures[1..])
  }

  ghost predicate InSequence(lang: Language, re: Re, word: string, captures: seq<Option<string>>, i: nat, j: nat)
    requires re.Cat?
    decreases re, |word|, 0
  {
    i <= |word| && j <= |captures|
    && Accepts(lang, re.first, word[..i], captures[..j]) && Accepts(lang, re.second, word[i..], captures[j..])
  }

  ghost predicate OnceMore(lang: Language, re: Re, word: string, i: nat)
    requires re.Star?
    decreases re, |word|, 0
  {
    0 < i <= |word| && Accepts(lang, re.inner, word[..i], []) && Accepts(lang, re, word[i..], [])
  }

  lemma {:induction false} Joined(lang: Language, first: Re, second: Re, u: string, v: string, a: seq<Option<string>>,
                                  b: seq<Option<string>>)
    requires Accepts(lang, first, u, a) && Accepts(lang, second, v, b)
    ensures Accepts(lang, Cat(first, second), u + v, a + b)
  {
    assert (u + v)[..|u|] == u && (u + v)[|u|..] == v && (a + b)[..|a|] == a && (a + b)[|a|..] == b;
    assert InSequence(lang, Cat(first, second), u + v, a + b, |u|, |a|);
  }

  /** The split of a match of two expressions in sequence. */
  lemma {:induction false} Parted(lang: Language, first: Re, second: Re, word: string, captures: seq<Option<string>>)
    returns (i: nat, j: nat)
    requires Accepts(lang, Cat(first, second), word, captures)
    ensures i <= |word| && j <= |captures| && word == word[..i] + word[i..] && captures == captures[..j] + captures[j..]
    ensures Accepts(lang, first, word[..i], captures[..j]) && Accepts(lang, second, word[i..], captures[j..])
  {
    i, j :| InSequence(lang, Cat(first, second), word, captures, i, j);
  }

  lemma {:induction false} AfterSlash(lang: Language, re: Re, word: string, captures: seq<Option<string>>)
    requires Accepts(lang, re, word, captures)
    ensures Accepts(lang, Cat(Slash, re), "/" + word, captures)
  {
    var nothing: seq<Option<string>> := [];
    assert Accepts(lang, Slash, "/", nothing);
    Joined(lang, Slash, re, "/", word, nothing, captures);
    assert nothing + captures == captures;
  }

  lemma {:induction false} BeforeSlash(lang: Language, re: Re, word: string, captures: seq<Option<string>>)
    requires Accepts(lang, Cat(Slash, re), word, captures)
    ensures |word| > 0 && word == "/" + word[1..] && Accepts(lang, re, word[1..], captures)
  {
    var i, j := Parted(lang, Slash, re, word, captures);
    assert captures[j..] == captures;
  }

  lemma {:induction false} Grouped(lang: Language, key: string, re: Re, word: string)
    requires Accepts(lang, re, word, [])
    ensures Accepts(lang, Group(key, re), word, [Some(word)])
  {
    assert [Some(word)][1..] == [];
  }
}
