// Slugs: the language of valid ones, and how one is derived from a display name. Case folding and the notion of
// white space are parameters; nothing but the fixed points depends on what they are.

module Slug {

  const MAX_SLUG := 80

  predicate Alnum(c: char) { 'a' <= c <= 'z' || '0' <= c <= '9' }

  predicate AsciiAlnum(c: char) { Alnum(c) || 'A' <= c <= 'Z' }

  // ---------------------------------------------------------- the language

  function Join(words: seq<string>): string {
    if words == [] then "" else if |words| == 1 then words[0] else words[0] + "-" + Join(words[1..])
  }

  predicate IsWord(w: string) {
    w != "" && forall i | 0 <= i < |w| :: Alnum(w[i])
  }

  predicate AreWords(words: seq<string>) {
    forall i | 0 <= i < |words| :: IsWord(words[i])
  }

  /** The pattern: words of lower-case letters and digits, separated by single hyphens. */
  ghost predicate Matches(s: string) {
    exists words: seq<string> :: words != [] && AreWords(words) && s == Join(words)
  }

  ghost predicate ValidSlug(s: string) {
    s != "" && |s| <= MAX_SLUG && Matches(s)
  }

  /** The same language, character by character. */
  ghost predicate WellFormed(s: string) {
    && s != "" && s[0] != '-' && s[|s| - 1] != '-'
    && (forall i | 0 <= i < |s| :: Alnum(s[i]) || s[i] == '-')
    && (forall i, j | 0 <= i && j == i + 1 && j < |s| :: s[i] != '-' || s[j] != '-')
  }

  lemma {:induction false} JoinIsWellFormed(words: seq<string>)
    requires words != [] && AreWords(words)
    ensures WellFormed(Join(words))
    decreases |words|
  {
    if |words| > 1 {
      assert AreWords(words[1..]);
      JoinIsWellFormed(words[1..]);
      var w, rest := words[0], Join(words[1..]);
      assert Join(words) == w + "-" + rest;
      assert IsWord(w);
      Hyphenated(w, rest);
    } else {
      assert IsWord(words[0]);
    }
  }

  lemma Hyphenated(w: string, rest: string)
    requires IsWord(w) && WellFormed(rest)
    ensures WellFormed(w + "-" + rest)
  {
    var s := w + "-" + rest;
    assert forall i | 0 <= i < |w| :: s[i] == w[i];
    assert s[|w|] == '-';
    assert forall i | |w| < i < |s| :: s[i] == rest[i - |w| - 1];
    assert s[|s| - 1] == rest[|rest| - 1];
  }

  // ------------------------------------------------- what Slugify calls

  function Lower(s: string, lower: char -> char): (r: string)
    ensures |r| == |s| && forall i | 0 <= i < |s| :: r[i] == lower(s[i])
  {
    if s == "" then "" else [lower(s[0])] + Lower(s[1..], lower)
  }

  function TrimLeft(s: string, cut: char -> bool): (r: string)
    ensures r == "" || !cut(r[0])
    ensures s == "" || !cut(s[0]) ==> r == s
    ensures |r| <= |s| && r == s[|s| - |r|..]
  {
    if s != "" && cut(s[0]) then TrimLeft(s[1..], cut) else s
  }

  function TrimRight(s: string, cut: char -> bool): (r: string)
    ensures r == "" || !cut(r[|r| - 1])
    ensures s == "" || !cut(s[|s| - 1]) ==> r == s
    ensures |r| <= |s| && r == s[..|r|]
  {
    if s != "" && cut(s[|s| - 1]) then TrimRight(s[..|s| - 1], cut) else s
  }

  function Trim(s: string, cut: char -> bool): string {
    TrimRight(TrimLeft(s, cut), cut)
  }

  function Hyphen(): char -> bool { c => c == '-' }

  function NotSlug(): char -> bool { c => !Alnum(c) }

  /** Every longest run of such characters becomes one hyphen. */
  function Squeeze(s: string, run: char -> bool): string
    decreases |s|
  {
    if s == "" then ""
    else if run(s[0]) then "-" + Squeeze(TrimLeft(s[1..], run), run)
    else [s[0]] + Squeeze(s[1..], run)
  }

  /** What the loop over the characters keeps: letters and digits of ASCII as they are, separators as hyphens. */
  function Kept(s: string, space: char -> bool): string {
    if s == "" then ""
    else
      var c := s[|s| - 1];
      Kept(s[..|s| - 1], space) +
      (if AsciiAlnum(c) then [c] else if space(c) || c == '-' || c == '_' then "-" else "")
  }

  lemma KeptStep(s: string, space: char -> bool, i: nat)
    requires i < |s|
    ensures Kept(s[..i + 1], space) == Kept(s[..i], space) +
      (if AsciiAlnum(s[i]) then [s[i]] else if space(s[i]) || s[i] == '-' || s[i] == '_' then "-" else "")
  {
    assert s[..i + 1][..i] == s[..i];
  }

  function Truncated(s: string): string {
    if |s| > MAX_SLUG then Trim(s[..MAX_SLUG], Hyphen()) else s
  }

  function Slugged(s: string, lower: char -> char, space: char -> bool): string {
    var b := Kept(Lower(Trim(s, space), lower), space);
    Truncated(Trim(Squeeze(Squeeze(b, NotSlug()), Hyphen()), Hyphen()))
  }

  method Slugify(s: string, lower: char -> char, space: char -> bool) returns (out: string)
    ensures out == Slugged(s, lower, space)
  {
    var runes := Lower(Trim(s, space), lower);
    var b := "";
    for i := 0 to |runes|
      invariant b == Kept(runes[..i], space)
    {
      var r := runes[i];
      KeptStep(runes, space, i);
      if AsciiAlnum(r) {
        b := b + [r];
      } else if space(r) || r == '-' || r == '_' {
        b := b + "-";
      }
    }
    assert runes[..|runes|] == runes;
    out := Squeeze(b, NotSlug());
    out := Squeeze(out, Hyphen());
    out := Trim(out, Hyphen());
    if |out| > MAX_SLUG {
      out := Trim(out[..MAX_SLUG], Hyphen());
    }
  }

  // ------------------------------------------------------- what it means

  /** The words of a text: its longest runs of lower-case letters and digits. */
  function Words(b: string): (ws: seq<string>)
    ensures b != "" && Alnum(b[0]) ==> ws != []
    ensures AreWords(ws)
    decreases |b|
  {
    if b == "" then []
    else if !Alnum(b[0]) then Words(b[1..])
    else
      var rest := Words(b[1..]);
      if |b| > 1 && Alnum(b[1]) then [[b[0]] + rest[0]] + rest[1..] else [[b[0]]] + rest
  }

  function Lead(b: string): string {
    if b != "" && !Alnum(b[0]) then "-" else ""
  }

  function Tail(b: string): string {
    if Words(b) != [] && !Alnum(b[|b| - 1]) then "-" else ""
  }

  lemma {:induction false} WordsAfterTrim(b: string)
    ensures Words(TrimLeft(b, NotSlug())) == Words(b)
    decreases |b|
  {
    if b != "" && !Alnum(b[0]) { WordsAfterTrim(b[1..]); }
  }

  lemma {:induction false} NoWords(b: string)
    ensures Words(b) == [] <==> forall i | 0 <= i < |b| :: !Alnum(b[i])
    decreases |b|
  {
    if b != "" {
      NoWords(b[1..]);
      assert forall i | 1 <= i < |b| :: b[i] == b[1..][i - 1];
      if !Alnum(b[0]) && Words(b[1..]) == [] {
        forall i | 0 <= i < |b| ensures !Alnum(b[i]) { if i > 0 { assert !Alnum(b[1..][i - 1]); } }
      }
      if !Alnum(b[0]) && Words(b[1..]) != [] {
        var k :| 0 <= k < |b[1..]| && Alnum(b[1..][k]);
        assert Alnum(b[k + 1]);
      }
    }
  }

  /** What squeezing a text leaves: its words joined by hyphens, and perhaps one hyphen at either end. */
  predicate Joins(b: string) {
    Squeeze(b, NotSlug()) == Lead(b) + Join(Words(b)) + Tail(b)
  }

  lemma TailOfRest(b: string, rest: string)
    requires b != "" && Words(b) == Words(rest) && (rest == "" || rest[|rest| - 1] == b[|b| - 1])
    ensures Tail(b) == Tail(rest)
  {
  }

  lemma Glue(x: string, y: string, z: string)
    ensures x + ("" + y + z) == x + y + z
  {
  }

  lemma JoinsAfterRun(b: string)
    requires b != "" && !Alnum(b[0]) && Joins(TrimLeft(b[1..], NotSlug()))
    ensures Joins(b)
  {
    var rest := TrimLeft(b[1..], NotSlug());
    WordsAfterTrim(b[1..]);
    TailOfRest(b, rest);
    var words, tail := Join(Words(rest)), Tail(rest);
    assert Lead(rest) == "" && Squeeze(b, NotSlug()) == "-" + Squeeze(rest, NotSlug());
    Glue("-", words, tail);
  }

  /** What putting one letter before a text does to its words: it joins the first of them, or stands alone. */
  lemma WordsAfterLetter(b: string)
    requires b != "" && Alnum(b[0])
    ensures Join(Words(b)) + Tail(b) == [b[0]] + (Lead(b[1..]) + Join(Words(b[1..])) + Tail(b[1..]))
  {
    var rest := b[1..];
    var words := Words(rest);
    var j, t := Join(words), Tail(rest);
    if rest == "" {
      assert Words(b) == [[b[0]]];
    } else {
      assert b[|b| - 1] == rest[|rest| - 1] && b[1] == rest[0];
      if Alnum(rest[0]) {
        PrependLetter(b[0], words);
        Glue([b[0]], j, t);
      } else if words != [] {
        JoinAlone(b[0], words);
        Regroup([b[0]], j, t);
      } else {
        NoWords(rest);
        assert Words(b) == [[b[0]]] && Tail(b) == "-" && t == "" && j == "";
      }
    }
  }

  lemma JoinAlone(c: char, words: seq<string>)
    requires words != []
    ensures Join([[c]] + words) == [c] + "-" + Join(words)
  {
    assert ([[c]] + words)[1..] == words;
  }

  lemma Regroup(x: string, y: string, z: string)
    ensures x + "-" + y + z == x + ("-" + y + z)
  {
  }

  lemma JoinsAfterLetter(b: string)
    requires b != "" && Alnum(b[0]) && Joins(b[1..])
    ensures Joins(b)
  {
    WordsAfterLetter(b);
    var words, tail := Join(Words(b)), Tail(b);
    assert Squeeze(b, NotSlug()) == [b[0]] + Squeeze(b[1..], NotSlug()) == words + tail;
    assert Lead(b) == "";
    NoLead(words, tail);
  }

  lemma NoLead(x: string, y: string)
    ensures "" + x + y == x + y
  {
  }

  lemma PrependLetter(c: char, words: seq<string>)
    requires words != []
    ensures Join([[c] + words[0]] + words[1..]) == [c] + Join(words)
  {
    var more := [[c] + words[0]] + words[1..];
    assert more[1..] == words[1..];
  }

  lemma {:induction false} SqueezeJoins(b: string)
    ensures Joins(b)
    decreases |b|
  {
    if b != "" {
      if Alnum(b[0]) {
        SqueezeJoins(b[1..]);
        JoinsAfterLetter(b);
      } else {
        SqueezeJoins(TrimLeft(b[1..], NotSlug()));
        JoinsAfterRun(b);
      }
    }
  }

  ghost predicate NoDoubles(s: string) {
    forall i, j | 0 <= i && j == i + 1 && j < |s| :: s[i] != '-' || s[j] != '-'
  }

  lemma {:induction false} NothingToSqueeze(s: string)
    requires NoDoubles(s)
    ensures Squeeze(s, Hyphen()) == s
    decreases |s|
  {
    if s != "" {
      assert NoDoubles(s[1..]);
      NothingToSqueeze(s[1..]);
      if s[0] == '-' && |s| > 1 { assert s[1] != '-'; }
    }
  }

  lemma TrimOne(s: string)
    ensures TrimLeft("-" + s, Hyphen()) == TrimLeft(s, Hyphen())
  {
    var w := "-" + s;
    assert w[0] == '-' && w[1..] == s;
  }

  lemma TrimTakesTheLead(lead: string, s: string)
    requires lead == "" || lead == "-"
    requires s != "" ==> s[0] != '-'
    ensures TrimLeft(lead + s, Hyphen()) == s
  {
    assert TrimLeft(s, Hyphen()) == s;
    if lead == "-" {
      TrimOne(s);
    } else {
      assert lead + s == s;
    }
  }

  lemma TrimTakesTheTail(s: string, tail: string)
    requires tail == "" || tail == "-"
    requires s != "" ==> s[|s| - 1] != '-'
    ensures TrimRight(s + tail, Hyphen()) == s
  {
    if tail == "-" {
      assert (s + tail)[..|s + tail| - 1] == s;
    } else {
      assert s + tail == s;
    }
  }

  lemma TrimTakesTheEnds(lead: string, s: string, tail: string)
    requires lead == "" || lead == "-"
    requires tail == "" || tail == "-"
    requires s == "" ==> tail == ""
    requires s != "" ==> s[0] != '-' && s[|s| - 1] != '-'
    ensures Trim(lead + s + tail, Hyphen()) == s
  {
    var rest := s + tail;
    assert lead + s + tail == lead + rest;
    assert s != "" ==> rest[0] == s[0];
    TrimTakesTheLead(lead, rest);
    TrimTakesTheTail(s, tail);
  }

  lemma EndsDoNotDouble(lead: string, s: string, tail: string)
    requires lead == "" || lead == "-"
    requires tail == "" || tail == "-"
    requires s == "" ==> tail == ""
    requires s != "" ==> WellFormed(s)
    ensures NoDoubles(lead + s + tail)
  {
    var whole := lead + s + tail;
    forall i, j | 0 <= i && j == i + 1 && j < |whole| ensures whole[i] != '-' || whole[j] != '-' {
      var k := i - |lead|;
      if k < 0 {
        assert whole[j] == s[0];
      } else if k + 1 < |s| {
        assert whole[i] == s[k] && whole[j] == s[k + 1];
      } else {
        assert whole[i] == s[|s| - 1];
      }
    }
  }

  /** The text whose words make the slug. */
  function Prepared(s: string, lower: char -> char, space: char -> bool): string {
    Kept(Lower(Trim(s, space), lower), space)
  }

  lemma WordsOf(b: string)
    ensures Trim(Squeeze(Squeeze(b, NotSlug()), Hyphen()), Hyphen()) == Join(Words(b))
    ensures Words(b) != [] ==> WellFormed(Join(Words(b)))
  {
    SqueezeJoins(b);
    var lead, words, tail := Lead(b), Join(Words(b)), Tail(b);
    if Words(b) != [] { JoinIsWellFormed(Words(b)); }
    EndsDoNotDouble(lead, words, tail);
    NothingToSqueeze(lead + words + tail);
    TrimTakesTheEnds(lead, words, tail);
  }

  /** A slug is the text's words joined by single hyphens, cut to length. */
  lemma SlugIsItsWords(s: string, lower: char -> char, space: char -> bool)
    ensures Slugged(s, lower, space) == Truncated(Join(Words(Prepared(s, lower, space))))
    ensures Words(Prepared(s, lower, space)) != [] ==> WellFormed(Join(Words(Prepared(s, lower, space))))
  {
    WordsOf(Prepared(s, lower, space));
  }

  /** Squeezing, and so taking words, changes nothing in a text that is one slug already. */
  lemma {:induction false} WellFormedIsItself(s: string)
    requires WellFormed(s)
    ensures Squeeze(s, NotSlug()) == s && Join(Words(s)) == s && Words(s) != []
  {
    SqueezeIdle(s);
    SqueezeJoins(s);
    assert Words(s) != [];
    assert Lead(s) == "" && Tail(s) == "";
    assert Lead(s) + Join(Words(s)) + Tail(s) == Join(Words(s));
  }

  lemma {:induction false} SqueezeIdle(s: string)
    requires NoDoubles(s) && forall i | 0 <= i < |s| :: Alnum(s[i]) || s[i] == '-'
    ensures Squeeze(s, NotSlug()) == s
    decreases |s|
  {
    if s != "" {
      assert NoDoubles(s[1..]);
      SqueezeIdle(s[1..]);
      if s[0] == '-' && |s| > 1 { assert s[1] != '-'; }
    }
  }

  /** The pattern and the character-by-character description name the same language. */
  lemma MatchesIffWellFormed(s: string)
    ensures Matches(s) <==> WellFormed(s)
  {
    if Matches(s) {
      var words: seq<string> :| words != [] && AreWords(words) && s == Join(words);
      JoinIsWellFormed(words);
    }
    if WellFormed(s) {
      WellFormedIsItself(s);
    }
  }

  lemma TruncatedIsWellFormed(s: string)
    requires WellFormed(s)
    ensures WellFormed(Truncated(s)) && |Truncated(s)| <= MAX_SLUG
    ensures Truncated(s) <= s
  {
    if |s| > MAX_SLUG {
      var cut := s[..MAX_SLUG];
      var out := TrimRight(cut, Hyphen());
      assert cut[0] == s[0];
      assert Trim(cut, Hyphen()) == out;
      TrimRightKeepsFirst(cut);
      assert forall i | 0 <= i < |out| :: out[i] == s[i];
    }
  }

  lemma {:induction false} TrimRightKeepsFirst(s: string)
    requires s != "" && s[0] != '-'
    ensures TrimRight(s, Hyphen()) != ""
    decreases |s|
  {
    if s[|s| - 1] == '-' { TrimRightKeepsFirst(s[..|s| - 1]); }
  }

  // ---------------------------------------------------- the slug of a name

  /** A slug too long is cut at 80 characters, and a hyphen left at the cut goes too. */
  lemma CutAt80(s: string)
    requires WellFormed(s)
    ensures |s| <= 80 ==> Truncated(s) == s
    ensures |s| > 80 ==> Truncated(s) == if s[79] == '-' then s[..79] else s[..80]
  {
    if |s| > 80 {
      var cut := s[..80];
      assert cut[0] == s[0] && cut[79] == s[79];
      assert TrimLeft(cut, Hyphen()) == cut;
      if s[79] == '-' {
        assert cut[..79] == s[..79] && s[..79][78] == s[78] != '-';
        assert TrimRight(cut, Hyphen()) == TrimRight(cut[..79], Hyphen()) == s[..79];
      }
    }
  }

  /** A part of a name: letters and digits of ASCII, at least one. */
  predicate IsPart(p: string) {
    p != "" && forall i | 0 <= i < |p| :: AsciiAlnum(p[i])
  }

  /** What stands between parts: spaces, hyphens and underscores, at least one. */
  ghost predicate IsGap(g: string, lower: char -> char, space: char -> bool) {
    g != "" && forall i | 0 <= i < |g| ::
      !AsciiAlnum(g[i]) && (space(lower(g[i])) || g[i] == '-' || g[i] == '_') && lower(g[i]) == g[i]
  }

  /** Lower case as it is on the letters and digits of ASCII, none of which is white space. */
  ghost predicate Folds(lower: char -> char, space: char -> bool) {
    && (forall c | Alnum(c) :: lower(c) == c)
    && (forall c | 'A' <= c <= 'Z' :: lower(c) as int == c as int + 32)
    && (forall c | AsciiAlnum(c) :: !space(c))
  }

  /** A name: parts with gaps between them. */
  function Name(parts: seq<string>, gaps: seq<string>): string
    requires parts != [] && |gaps| + 1 == |parts|
  {
    if |parts| == 1 then parts[0] else parts[0] + gaps[0] + Name(parts[1..], gaps[1..])
  }

  function LowerAll(parts: seq<string>, lower: char -> char): (r: seq<string>)
    ensures |r| == |parts|
  {
    if parts == [] then [] else [Lower(parts[0], lower)] + LowerAll(parts[1..], lower)
  }

  lemma {:induction false} LowerConcat(a: string, b: string, lower: char -> char)
    ensures Lower(a + b, lower) == Lower(a, lower) + Lower(b, lower)
    decreases |a|
  {
    if a == "" {
      assert a + b == b;
    } else {
      assert (a + b)[1..] == a[1..] + b;
      LowerConcat(a[1..], b, lower);
    }
  }

  lemma {:induction false} KeptConcat(a: string, b: string, space: char -> bool)
    ensures Kept(a + b, space) == Kept(a, space) + Kept(b, space)
    decreases |b|
  {
    if b == "" {
      assert a + b == a;
    } else {
      assert (a + b)[..|a + b| - 1] == a + b[..|b| - 1];
      KeptConcat(a, b[..|b| - 1], space);
    }
  }

  lemma PartIsKept(p: string, lower: char -> char, space: char -> bool)
    requires IsPart(p) && Folds(lower, space)
    ensures IsWord(Lower(p, lower)) && Kept(Lower(p, lower), space) == Lower(p, lower)
  {
    KeptWhole(Lower(p, lower), space);
  }

  /** Only hyphens, at least one. */
  predicate Hyphens(h: string) {
    h != "" && forall i | 0 <= i < |h| :: h[i] == '-'
  }

  lemma {:induction false} GapIsHyphens(g: string, lower: char -> char, space: char -> bool)
    requires IsGap(g, lower, space)
    ensures Hyphens(Kept(Lower(g, lower), space))
  {
    LowerIdle(g, lower);
    SeparatorsAreHyphens(g, space);
  }

  lemma {:induction false} SeparatorsAreHyphens(g: string, space: char -> bool)
    requires g != "" && forall i | 0 <= i < |g| :: !AsciiAlnum(g[i]) && (space(g[i]) || g[i] == '-' || g[i] == '_')
    ensures Hyphens(Kept(g, space))
    decreases |g|
  {
    var n := |g| - 1;
    if n > 0 {
      SeparatorsAreHyphens(g[..n], space);
    } else {
      assert g[..n] == "" && Kept(g[..n], space) == "";
    }
  }

  lemma {:induction false} WordsAfterWord(w: string, rest: string)
    requires IsWord(w) && (rest == "" || !Alnum(rest[0]))
    ensures Words(w + rest) == [w] + Words(rest)
    decreases |w|
  {
    var b := w + rest;
    assert b[0] == w[0] && b[1..] == w[1..] + rest;
    if |w| > 1 {
      assert forall i | 0 <= i < |w[1..]| :: w[1..][i] == w[i + 1];
      WordsAfterWord(w[1..], rest);
      assert b[1] == w[1] && [w[0]] + w[1..] == w;
      assert Words(b[1..])[0] == w[1..] && Words(b[1..])[1..] == Words(rest);
    } else {
      assert w == [w[0]] && b[1..] == rest && (|b| > 1 ==> b[1] == rest[0]);
    }
  }

  lemma WordThenGap(w: string, h: string, rest: string)
    requires IsWord(w) && Hyphens(h)
    ensures Words(w + h + rest) == [w] + Words(rest)
  {
    assert w + h + rest == w + (h + rest);
    WordsAfterWord(w, h + rest);
    WordsAfterHyphens(h, rest);
  }

  lemma {:induction false} WordsAfterHyphens(h: string, rest: string)
    requires Hyphens(h)
    ensures Words(h + rest) == Words(rest)
    decreases |h|
  {
    assert (h + rest)[1..] == h[1..] + rest;
    if |h| > 1 {
      WordsAfterHyphens(h[1..], rest);
    } else {
      assert h[1..] + rest == rest;
    }
  }

  ghost predicate IsName(parts: seq<string>, gaps: seq<string>, lower: char -> char, space: char -> bool) {
    && parts != [] && |gaps| + 1 == |parts|
    && (forall i | 0 <= i < |parts| :: IsPart(parts[i]))
    && (forall i | 0 <= i < |gaps| :: IsGap(gaps[i], lower, space))
  }

  lemma {:induction false} NameWords(parts: seq<string>, gaps: seq<string>, lower: char -> char, space: char -> bool)
    requires IsName(parts, gaps, lower, space) && Folds(lower, space)
    ensures Words(Kept(Lower(Name(parts, gaps), lower), space)) == LowerAll(parts, lower)
    decreases |parts|
  {
    var w := Lower(parts[0], lower);
    PartIsKept(parts[0], lower, space);
    if |parts| == 1 {
      assert w + "" == w;
      WordsAfterWord(w, "");
    } else {
      var rest := Name(parts[1..], gaps[1..]);
      NameWords(parts[1..], gaps[1..], lower, space);
      GapIsHyphens(gaps[0], lower, space);
      NamePrepared(parts[0], gaps[0], rest, lower, space);
      WordThenGap(w, Kept(Lower(gaps[0], lower), space), Kept(Lower(rest, lower), space));
    }
  }

  lemma NamePrepared(p: string, g: string, rest: string, lower: char -> char, space: char -> bool)
    requires IsPart(p) && Folds(lower, space)
    ensures Kept(Lower(p + g + rest, lower), space)
      == Lower(p, lower) + Kept(Lower(g, lower), space) + Kept(Lower(rest, lower), space)
  {
    PartIsKept(p, lower, space);
    LowerConcat(p + g, rest, lower);
    LowerConcat(p, g, lower);
    KeptConcat(Lower(p, lower) + Lower(g, lower), Lower(rest, lower), space);
    KeptConcat(Lower(p, lower), Lower(g, lower), space);
  }

  lemma {:induction false} NameEnds(parts: seq<string>, gaps: seq<string>, lower: char -> char, space: char -> bool)
    requires IsName(parts, gaps, lower, space)
    ensures var name := Name(parts, gaps); name != "" && AsciiAlnum(name[0]) && AsciiAlnum(name[|name| - 1])
    decreases |parts|
  {
    if |parts| > 1 { NameEnds(parts[1..], gaps[1..], lower, space); }
  }

  /**
   * The slug of a name, whatever its parts and the spaces, hyphens and underscores between them: the parts in lower
   * case, joined by single hyphens, cut at 80.
   */
  lemma SlugOfAName(parts: seq<string>, gaps: seq<string>, lower: char -> char, space: char -> bool)
    requires IsName(parts, gaps, lower, space) && Folds(lower, space)
    ensures var slug := Join(LowerAll(parts, lower));
      Slugged(Name(parts, gaps), lower, space)
      == if |slug| <= 80 then slug else if slug[79] == '-' then slug[..79] else slug[..80]
  {
    var name := Name(parts, gaps);
    NameEnds(parts, gaps, lower, space);
    assert TrimLeft(name, space) == name && TrimRight(name, space) == name;
    SlugIsItsWords(name, lower, space);
    NameWords(parts, gaps, lower, space);
    CutAt80(Join(LowerAll(parts, lower)));
  }

  // ------------------------------------------------------------ guarantees

  /** The slug of any name is empty or valid, and empty exactly for a name without a letter or digit to keep. */
  lemma SlugIsEmptyOrValid(s: string, lower: char -> char, space: char -> bool)
    ensures var slug := Slugged(s, lower, space); var b := Prepared(s, lower, space);
      && (slug == "" || ValidSlug(slug))
      && (slug == "" <==> forall i | 0 <= i < |b| :: !Alnum(b[i]))
  {
    var b := Prepared(s, lower, space);
    SlugIsItsWords(s, lower, space);
    NoWords(b);
    if Words(b) != [] {
      TruncatedIsWellFormed(Join(Words(b)));
      MatchesIffWellFormed(Slugged(s, lower, space));
    }
  }

  /** Case folding and white space as they are on the characters of a slug. */
  ghost predicate Plain(lower: char -> char, space: char -> bool) {
    forall c | Alnum(c) || c == '-' :: lower(c) == c && !space(c)
  }

  lemma {:induction false} KeptWhole(s: string, space: char -> bool)
    requires forall i | 0 <= i < |s| :: Alnum(s[i]) || s[i] == '-'
    ensures Kept(s, space) == s
    decreases |s|
  {
    if s != "" { KeptWhole(s[..|s| - 1], space); }
  }

  lemma LowerIdle(s: string, lower: char -> char)
    requires forall i | 0 <= i < |s| :: lower(s[i]) == s[i]
    ensures Lower(s, lower) == s
  {
  }

  lemma NothingToPrepare(s: string, lower: char -> char, space: char -> bool)
    requires Plain(lower, space) && WellFormed(s)
    ensures Prepared(s, lower, space) == s
  {
    assert !space(s[0]) && !space(s[|s| - 1]);
    assert TrimLeft(s, space) == s;
    assert TrimRight(s, space) == s;
    LowerIdle(s, lower);
    KeptWhole(s, space);
  }

  lemma SlugOfASlug(s: string, lower: char -> char, space: char -> bool)
    requires Plain(lower, space) && WellFormed(s) && |s| <= MAX_SLUG
    ensures Slugged(s, lower, space) == s
  {
    NothingToPrepare(s, lower, space);
    SlugIsItsWords(s, lower, space);
    WellFormedIsItself(s);
  }

  /** The names that are their own slug are exactly the empty one and the valid slugs. */
  lemma FixedPoints(s: string, lower: char -> char, space: char -> bool)
    requires Plain(lower, space)
    ensures Slugged(s, lower, space) == s <==> s == "" || ValidSlug(s)
  {
    if ValidSlug(s) {
      MatchesIffWellFormed(s);
      SlugOfASlug(s, lower, space);
    } else {
      SlugIsEmptyOrValid(s, lower, space);
    }
  }

  lemma SlugifyIsIdempotent(s: string, lower: char -> char, space: char -> bool)
    requires Plain(lower, space)
    ensures Slugged(Slugged(s, lower, space), lower, space) == Slugged(s, lower, space)
  {
    SlugIsEmptyOrValid(s, lower, space);
    FixedPoints(Slugged(s, lower, space), lower, space);
  }
}
