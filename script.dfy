/** The script classifiers: DetectSearchTermType of
    client/server/search_term_type.go, which picks the field group a query
    searches, and the code-point range test ContainsCJK of
    common/utils/cjk.go. Strings are sequences of code points, as a Go
    `range` over a string yields them. */
module Script {

  datatype SearchTermType = Romaji | Kana | Kanji

  /** The Unicode tables the classifier consults (unicode.Han,
      unicode.Hiragana, unicode.Katakana) and the per-rune lower-casing of
      strings.ToLower. They are parameters: the tables are not modelled. */
  datatype UnicodeTables = UnicodeTables(
    isHan: char -> bool,
    isHiragana: char -> bool,
    isKatakana: char -> bool,
    toLower: char -> char)

  predicate IsKanaChar(u: UnicodeTables, c: char) {
    u.isHiragana(c) || u.isKatakana(c)
  }

  predicate HasHan(u: UnicodeTables, text: string) {
    exists i :: 0 <= i < |text| && u.isHan(text[i])
  }

  predicate HasKana(u: UnicodeTables, text: string) {
    exists i :: 0 <= i < |text| && IsKanaChar(u, text[i])
  }

  /** The classification, as a value: Han anywhere wins, then kana, then
      romaji. */
  function Classify(u: UnicodeTables, text: string): SearchTermType {
    if HasHan(u, text) then Kanji else if HasKana(u, text) then Kana else Romaji
  }

  /** DetectSearchTermType: one pass with an early return on the first Han
      character and a flag for kana. Punctuation, spaces, digits and every
      other character leave the flag alone. */
  method DetectSearchTermType(u: UnicodeTables, text: string) returns (t: SearchTermType)
    ensures t == Kanji <==> HasHan(u, text)
    ensures t == Kana <==> !HasHan(u, text) && HasKana(u, text)
    ensures t == Romaji <==> !HasHan(u, text) && !HasKana(u, text)
    ensures t == Classify(u, text)
  {
    var hasKana := false;
    for i := 0 to |text|
      invariant forall j :: 0 <= j < i ==> !u.isHan(text[j])
      invariant hasKana <==> exists j :: 0 <= j < i && IsKanaChar(u, text[j])
    {
      var r := text[i];
      if u.isHan(r) {
        return Kanji;
      }
      if u.isHiragana(r) {
        hasKana := true;
        continue;
      }
      if u.isKatakana(r) {
        hasKana := true;
        continue;
      }
    }
    if hasKana {
      return Kana;
    }
    return Romaji;
  }

  /** Characters outside the three scripts never change the result. */
  lemma OtherCharactersIgnored(u: UnicodeTables, p: string, c: char, q: string)
    requires !u.isHan(c) && !IsKanaChar(u, c)
    ensures Classify(u, p + [c] + q) == Classify(u, p + q)
  {
    var s, t := p + [c] + q, p + q;
    assert forall i :: 0 <= i < |p| ==> s[i] == t[i];
    assert forall i :: |p| < i < |s| ==> s[i] == t[i - 1];
    if HasHan(u, s) {
      var i :| 0 <= i < |s| && u.isHan(s[i]);
      assert i != |p|;
      if i < |p| { assert u.isHan(t[i]); } else { assert u.isHan(t[i - 1]); }
    }
    if HasHan(u, t) {
      var i :| 0 <= i < |t| && u.isHan(t[i]);
      if i < |p| { assert u.isHan(s[i]); } else { assert s[i + 1] == t[i]; }
    }
    if HasKana(u, s) {
      var i :| 0 <= i < |s| && IsKanaChar(u, s[i]);
      assert i != |p|;
      if i < |p| { assert IsKanaChar(u, t[i]); } else { assert IsKanaChar(u, t[i - 1]); }
    }
    if HasKana(u, t) {
      var i :| 0 <= i < |t| && IsKanaChar(u, t[i]);
      if i < |p| { assert IsKanaChar(u, s[i]); } else { assert s[i + 1] == t[i]; }
    }
  }

  lemma SomeCharMoves(a: string, b: string, P: char -> bool)
    requires multiset(a) == multiset(b)
    requires exists i :: 0 <= i < |a| && P(a[i])
    ensures exists j :: 0 <= j < |b| && P(b[j])
  {
    var i :| 0 <= i < |a| && P(a[i]);
    assert a[i] in multiset(a);
    assert a[i] in multiset(b);
    assert a[i] in b;
    var j :| 0 <= j < |b| && b[j] == a[i];
  }

  /** The result depends only on which characters occur, not on their
      order. */
  lemma ClassifyIgnoresOrder(u: UnicodeTables, a: string, b: string)
    requires multiset(a) == multiset(b)
    ensures Classify(u, a) == Classify(u, b)
  {
    if HasHan(u, a) { SomeCharMoves(a, b, u.isHan); }
    if HasHan(u, b) { SomeCharMoves(b, a, u.isHan); }
    var isKana := c => IsKanaChar(u, c);
    if HasKana(u, a) {
      assert exists i :: 0 <= i < |a| && isKana(a[i]);
      SomeCharMoves(a, b, isKana);
    }
    if HasKana(u, b) {
      assert exists i :: 0 <= i < |b| && isKana(b[i]);
      SomeCharMoves(b, a, isKana);
    }
  }

  // ---------------------------------------------------------------------
  // ContainsCJK: the explicit code-point ranges.
  // ---------------------------------------------------------------------

  /** The CJK Unified Ideographs, Hiragana and Katakana blocks, bounds
      included. */
  predicate InCjkRange(c: char) {
    || (0x4E00 <= c as int <= 0x9FFF)
    || (0x3040 <= c as int <= 0x309F)
    || (0x30A0 <= c as int <= 0x30FF)
  }

  function ContainsCJK(s: string): (r: bool)
    ensures r <==> exists i :: 0 <= i < |s| && InCjkRange(s[i])
  {
    if s == [] then false
    else if InCjkRange(s[0]) then true
    else
      var rest := ContainsCJK(s[1..]);
      assert rest ==> exists i :: 0 <= i < |s| && InCjkRange(s[i]) by {
        if rest {
          var i :| 0 <= i < |s[1..]| && InCjkRange(s[1..][i]);
          assert InCjkRange(s[i + 1]);
        }
      }
      rest
  }

  /** The empty string, and any ASCII string, holds no CJK. */
  lemma AsciiHasNoCjk(s: string)
    requires forall i :: 0 <= i < |s| ==> s[i] as int < 0x80
    ensures !ContainsCJK(s)
  {
  }

  /** Containing CJK survives any surrounding text. */
  lemma CjkMonotone(p: string, s: string, q: string)
    requires ContainsCJK(s)
    ensures ContainsCJK(p + s + q)
  {
    var i :| 0 <= i < |s| && InCjkRange(s[i]);
    assert (p + s + q)[|p| + i] == s[i];
  }

  lemma CjkIgnoresOrder(a: string, b: string)
    requires multiset(a) == multiset(b)
    ensures ContainsCJK(a) == ContainsCJK(b)
  {
    if ContainsCJK(a) { SomeCharMoves(a, b, InCjkRange); }
    if ContainsCJK(b) { SomeCharMoves(b, a, InCjkRange); }
  }

  /** Tables that are exactly the three blocks. */
  predicate BlockTables(u: UnicodeTables) {
    && (forall c :: u.isHan(c) <==> 0x4E00 <= c as int <= 0x9FFF)
    && (forall c :: u.isHiragana(c) <==> 0x3040 <= c as int <= 0x309F)
    && (forall c :: u.isKatakana(c) <==> 0x30A0 <= c as int <= 0x30FF)
  }

  /** With such tables the two classifiers agree: CJK is present exactly
      when the query is not romaji. */
  lemma CjkIffNotRomaji(u: UnicodeTables, s: string)
    requires BlockTables(u)
    ensures ContainsCJK(s) <==> Classify(u, s) != Romaji
  {
    if ContainsCJK(s) {
      var i :| 0 <= i < |s| && InCjkRange(s[i]);
      assert u.isHan(s[i]) || IsKanaChar(u, s[i]);
    }
    if HasHan(u, s) {
      var i :| 0 <= i < |s| && u.isHan(s[i]);
      assert InCjkRange(s[i]);
    }
    if HasKana(u, s) {
      var i :| 0 <= i < |s| && IsKanaChar(u, s[i]);
      assert InCjkRange(s[i]);
    }
  }
}
