/** The display normaliser: ToWord of import/word.go and its earlier,
    identical revision ToEntryDatabase of database/entry_database.go. It
    builds the record the document store keeps for one dictionary word. */
module Display {
  import opened Jmdict
  import opened Coerce

  predicate SearchOnly(tags: seq<string>) {
    ContainsString(tags, SearchOnlyTag)
  }

  /** A kana reads a kanji when its applies-to list names the kanji's text or
      the wildcard, and neither of the two is search-only. */
  predicate Reads(kana: Kana, kanji: Kanji) {
    && !SearchOnly(kana.tags)
    && !SearchOnly(kanji.tags)
    && (kanji.text in kana.appliesToKanji || Wildcard in kana.appliesToKanji)
  }

  // ---------------------------------------------------------------------
  // The pairings, in the order of the three nested loops (kana outer,
  // kanji middle, applies-to entry inner), one per matching entry.
  // ---------------------------------------------------------------------

  function AppliesPairings(applies: seq<string>, kanji: Kanji, kana: Kana): seq<Furigana> {
    if applies == [] then []
    else
      var last := applies[|applies| - 1];
      AppliesPairings(applies[..|applies| - 1], kanji, kana)
      + (if last == kanji.text || last == Wildcard then [Furigana(kanji.text, kana.text)] else [])
  }

  function KanjiPairings(kanjis: seq<Kanji>, kana: Kana): seq<Furigana> {
    if kanjis == [] then []
    else
      var last := kanjis[|kanjis| - 1];
      KanjiPairings(kanjis[..|kanjis| - 1], kana)
      + (if SearchOnly(last.tags) then [] else AppliesPairings(kana.appliesToKanji, last, kana))
  }

  function Pairings(kanas: seq<Kana>, kanjis: seq<Kanji>): seq<Furigana> {
    if kanas == [] then []
    else
      var last := kanas[|kanas| - 1];
      Pairings(kanas[..|kanas| - 1], kanjis)
      + (if SearchOnly(last.tags) then [] else KanjiPairings(kanjis, last))
  }

  // ---------------------------------------------------------------------
  // What one pairing does to the record: the first one whose slot is still
  // empty becomes the main word (and sets Common from the first kanji),
  // every later one is appended to the other forms.
  // ---------------------------------------------------------------------

  function AddPairing(e: Word, f: Furigana, firstCommon: bool): Word {
    if e.mainWord.word == "" then e.(common := firstCommon, mainWord := f)
    else e.(otherForms := e.otherForms + [f])
  }

  function AddPairings(e: Word, fs: seq<Furigana>, firstCommon: bool): Word {
    if fs == [] then e
    else AddPairing(AddPairings(e, fs[..|fs| - 1], firstCommon), fs[|fs| - 1], firstCommon)
  }

  function FirstKanjiCommon(w: JMdictWord): bool {
    if |w.kanji| > 0 then w.kanji[0].common else false
  }

  /** The other forms of a kana-only word: the texts with an empty reading. */
  function ReadinglessForms(kanas: seq<Kana>): seq<Furigana> {
    seq(|kanas|, i requires 0 <= i < |kanas| => Furigana(kanas[i].text, ""))
  }

  function KanaOnly(e: Word, kanas: seq<Kana>): Word {
    if kanas == [] then e
    else e.(common := kanas[0].common,
            mainWord := Furigana(kanas[0].text, ""),
            otherForms := e.otherForms + ReadinglessForms(kanas[1..]))
  }

  /** strings.Join. */
  function Join(parts: seq<string>, sep: string): string {
    if parts == [] then ""
    else if |parts| == 1 then parts[0]
    else Join(parts[..|parts| - 1], sep) + sep + parts[|parts| - 1]
  }

  function GlossTexts(glosses: seq<Gloss>): seq<string> {
    seq(|glosses|, i requires 0 <= i < |glosses| => glosses[i].text)
  }

  /** One meaning per sense: the texts of all its glosses, in any language. */
  function SenseMeanings(senses: seq<Sense>): seq<string> {
    seq(|senses|, i requires 0 <= i < |senses| => Join(GlossTexts(senses[i].gloss), GlossSeparator))
  }

  /** The display record of a word, as a value. */
  function DisplayOf(w: JMdictWord): (r: Word)
    ensures r.id == w.id
    ensures |r.meanings| == |w.sense|
    ensures forall i :: 0 <= i < |w.sense| ==> r.meanings[i] == Join(GlossTexts(w.sense[i].gloss), GlossSeparator)
  {
    var start := Word(w.id, EmptyFurigana, [], false, []);
    var formed :=
      if |w.kanji| > 0 then AddPairings(start, Pairings(w.kana, w.kanji), w.kanji[0].common)
      else KanaOnly(start, w.kana);
    AddPairingsKeepsIdAndMeanings(start, Pairings(w.kana, w.kanji), FirstKanjiCommon(w));
    formed.(meanings := formed.meanings + SenseMeanings(w.sense))
  }

  lemma {:induction false} AddPairingsKeepsIdAndMeanings(e: Word, fs: seq<Furigana>, c: bool)
    ensures AddPairings(e, fs, c).id == e.id
    ensures AddPairings(e, fs, c).meanings == e.meanings
  {
    if fs != [] {
      AddPairingsKeepsIdAndMeanings(e, fs[..|fs| - 1], c);
    }
  }

  lemma AddPairingsSnoc(e: Word, fs: seq<Furigana>, f: Furigana, c: bool)
    ensures AddPairings(e, fs + [f], c) == AddPairing(AddPairings(e, fs, c), f, c)
  {
    assert (fs + [f])[..|fs|] == fs;
  }

  // ---------------------------------------------------------------------
  // The imperative helpers, each updating the record passed by pointer.
  // ---------------------------------------------------------------------

  lemma AppliesStep(applies: seq<string>, k: nat, kanji: Kanji, kana: Kana)
    requires k < |applies|
    ensures AppliesPairings(applies[..k + 1], kanji, kana)
         == AppliesPairings(applies[..k], kanji, kana)
            + (if applies[k] == kanji.text || applies[k] == Wildcard then [Furigana(kanji.text, kana.text)] else [])
  {
    assert applies[..k + 1][..k] == applies[..k];
  }

  lemma KanjiStep(kanjis: seq<Kanji>, j: nat, kana: Kana)
    requires j < |kanjis|
    ensures KanjiPairings(kanjis[..j + 1], kana)
         == KanjiPairings(kanjis[..j], kana)
            + (if SearchOnly(kanjis[j].tags) then [] else AppliesPairings(kana.appliesToKanji, kanjis[j], kana))
  {
    assert kanjis[..j + 1][..j] == kanjis[..j];
  }

  lemma PairingsStep(kanas: seq<Kana>, i: nat, kanjis: seq<Kanji>)
    requires i < |kanas|
    ensures Pairings(kanas[..i + 1], kanjis)
         == Pairings(kanas[..i], kanjis) + (if SearchOnly(kanas[i].tags) then [] else KanjiPairings(kanjis, kanas[i]))
  {
    assert kanas[..i + 1][..i] == kanas[..i];
  }

  lemma {:induction false} AddPairingsAppend(e: Word, a: seq<Furigana>, b: seq<Furigana>, c: bool)
    ensures AddPairings(e, a + b, c) == AddPairings(AddPairings(e, a, c), b, c)
  {
    if b == [] {
      assert a + b == a;
    } else {
      var b' := b[..|b| - 1];
      assert a + b == (a + b') + [b[|b| - 1]];
      AddPairingsSnoc(e, a + b', b[|b| - 1], c);
      AddPairingsAppend(e, a, b', c);
    }
  }

  /** processKanjiWord. */
  method ProcessKanjiWord(entry: Word, word: JMdictWord) returns (e: Word)
    ensures e == AddPairings(entry, Pairings(word.kana, word.kanji), FirstKanjiCommon(word))
  {
    ghost var c := FirstKanjiCommon(word);
    e := entry;
    for i := 0 to |word.kana|
      invariant e == AddPairings(entry, Pairings(word.kana[..i], word.kanji), c)
    {
      var kana := word.kana[i];
      PairingsStep(word.kana, i, word.kanji);
      if ContainsString(kana.tags, SearchOnlyTag) {
        assert Pairings(word.kana[..i], word.kanji) + [] == Pairings(word.kana[..i], word.kanji);
        continue;
      }
      ghost var e0 := e;
      e := ReadKana(e, word, kana);
      AddPairingsAppend(entry, Pairings(word.kana[..i], word.kanji), KanjiPairings(word.kanji, kana), c);
    }
    assert word.kana[..|word.kana|] == word.kana;
  }

  /** The middle loop of processKanjiWord: the pairings of one kana with
      every kanji that is not search-only. */
  method ReadKana(entry: Word, word: JMdictWord, kana: Kana) returns (e: Word)
    ensures e == AddPairings(entry, KanjiPairings(word.kanji, kana), FirstKanjiCommon(word))
  {
    ghost var c := FirstKanjiCommon(word);
    e := entry;
    assert word.kanji[..0] == [];
    for j := 0 to |word.kanji|
      invariant e == AddPairings(entry, KanjiPairings(word.kanji[..j], kana), c)
    {
      var kanji := word.kanji[j];
      KanjiStep(word.kanji, j, kana);
      if ContainsString(kanji.tags, SearchOnlyTag) {
        assert KanjiPairings(word.kanji[..j], kana) + [] == KanjiPairings(word.kanji[..j], kana);
        continue;
      }
      e := ReadKanji(e, kana, kanji, word.kanji[0].common);
      AddPairingsAppend(entry, KanjiPairings(word.kanji[..j], kana), AppliesPairings(kana.appliesToKanji, kanji, kana), c);
    }
    assert word.kanji[..|word.kanji|] == word.kanji;
  }

  /** The innermost loop of processKanjiWord: one pairing per applies-to
      entry that names the kanji or every kanji. */
  method ReadKanji(entry: Word, kana: Kana, kanji: Kanji, firstCommon: bool) returns (e: Word)
    ensures e == AddPairings(entry, AppliesPairings(kana.appliesToKanji, kanji, kana), firstCommon)
  {
    e := entry;
    assert kana.appliesToKanji[..0] == [];
    for k := 0 to |kana.appliesToKanji|
      invariant e == AddPairings(entry, AppliesPairings(kana.appliesToKanji[..k], kanji, kana), firstCommon)
    {
      var kanjiApplied := kana.appliesToKanji[k];
      AppliesStep(kana.appliesToKanji, k, kanji, kana);
      if kanjiApplied == kanji.text || kanjiApplied == Wildcard {
        var furigana := Furigana(kanji.text, kana.text);
        AddPairingsSnoc(entry, AppliesPairings(kana.appliesToKanji[..k], kanji, kana), furigana, firstCommon);
        if e.mainWord.word == "" {
          e := e.(common := firstCommon, mainWord := furigana);
        } else {
          e := e.(otherForms := e.otherForms + [furigana]);
        }
      } else {
        assert AppliesPairings(kana.appliesToKanji[..k], kanji, kana) + []
            == AppliesPairings(kana.appliesToKanji[..k], kanji, kana);
      }
    }
    assert kana.appliesToKanji[..|kana.appliesToKanji|] == kana.appliesToKanji;
  }

  /** processKanaOnlyWord. */
  method ProcessKanaOnlyWord(entry: Word, word: JMdictWord) returns (e: Word)
    ensures e == KanaOnly(entry, word.kana)
  {
    e := entry;
    for i := 0 to |word.kana|
      invariant i == 0 ==> e == entry
      invariant i > 0 ==> e == entry.(common := word.kana[0].common,
                                      mainWord := Furigana(word.kana[0].text, ""),
                                      otherForms := entry.otherForms + ReadinglessForms(word.kana[1..i]))
    {
      var furigana := Furigana(word.kana[i].text, "");
      if i == 0 {
        e := e.(common := word.kana[i].common, mainWord := furigana);
        assert word.kana[1..1] == [];
      } else {
        assert ReadinglessForms(word.kana[1..i + 1]) == ReadinglessForms(word.kana[1..i]) + [furigana];
        e := e.(otherForms := e.otherForms + [furigana]);
      }
    }
  }

  /** processSenseWord. */
  method ProcessSenseWord(entry: Word, word: JMdictWord) returns (e: Word)
    ensures e == entry.(meanings := entry.meanings + SenseMeanings(word.sense))
  {
    e := entry;
    for i := 0 to |word.sense|
      invariant e == entry.(meanings := entry.meanings + SenseMeanings(word.sense[..i]))
    {
      var sense := word.sense[i];
      var glossList: seq<string> := [];
      for j := 0 to |sense.gloss|
        invariant glossList == GlossTexts(sense.gloss[..j])
      {
        glossList := glossList + [sense.gloss[j].text];
      }
      assert sense.gloss[..|sense.gloss|] == sense.gloss;
      assert SenseMeanings(word.sense[..i + 1]) == SenseMeanings(word.sense[..i]) + [Join(glossList, GlossSeparator)];
      e := e.(meanings := e.meanings + [Join(glossList, GlossSeparator)]);
    }
    assert word.sense[..|word.sense|] == word.sense;
  }

  /** ToWord (and ToEntryDatabase): copies the ID, fills the forms by one of
      the two algorithms, then appends one meaning per sense. */
  method ToWord(word: JMdictWord) returns (entry: Word)
    ensures entry == DisplayOf(word)
    ensures entry.id == word.id
    ensures |entry.meanings| == |word.sense|
  {
    entry := Word(word.id, EmptyFurigana, [], false, []);
    if |word.kanji| > 0 {
      entry := ProcessKanjiWord(entry, word);
    } else {
      entry := ProcessKanaOnlyWord(entry, word);
    }
    entry := ProcessSenseWord(entry, word);
  }

  // ---------------------------------------------------------------------
  // What the pairings are.
  // ---------------------------------------------------------------------

  /** f is the pairing of kana with kanji. */
  predicate Pairs(kana: Kana, kanji: Kanji, f: Furigana) {
    Reads(kana, kanji) && f == Furigana(kanji.text, kana.text)
  }

  /** The number of applies-to entries that name the text or the wildcard,
      counted from the front. */
  function MatchCount(applies: seq<string>, text: string): nat {
    if applies == [] then 0
    else (if applies[0] == text || applies[0] == Wildcard then 1 else 0) + MatchCount(applies[1..], text)
  }

  lemma {:induction false} MatchCountSnoc(applies: seq<string>, x: string, text: string)
    ensures MatchCount(applies + [x], text) == MatchCount(applies, text) + (if x == text || x == Wildcard then 1 else 0)
  {
    if applies != [] {
      assert (applies + [x])[1..] == applies[1..] + [x];
      MatchCountSnoc(applies[1..], x, text);
    }
  }

  /** One pairing per matching applies-to entry: duplicate entries give
      duplicate pairings. */
  lemma {:induction false} AppliesPairingsCount(applies: seq<string>, kanji: Kanji, kana: Kana)
    ensures |AppliesPairings(applies, kanji, kana)| == MatchCount(applies, kanji.text)
    ensures forall f <- AppliesPairings(applies, kanji, kana) :: f == Furigana(kanji.text, kana.text)
  {
    if applies != [] {
      var init := applies[..|applies| - 1];
      assert applies == init + [applies[|applies| - 1]];
      AppliesPairingsCount(init, kanji, kana);
      MatchCountSnoc(init, applies[|applies| - 1], kanji.text);
    }
  }

  lemma {:induction false} AppliesMember(applies: seq<string>, kanji: Kanji, kana: Kana, f: Furigana)
    ensures f in AppliesPairings(applies, kanji, kana)
        <==> f == Furigana(kanji.text, kana.text) && (kanji.text in applies || Wildcard in applies)
  {
    if applies != [] {
      var init := applies[..|applies| - 1];
      assert applies == init + [applies[|applies| - 1]];
      AppliesMember(init, kanji, kana, f);
    }
  }

  lemma KanjiMember(kanjis: seq<Kanji>, kana: Kana, f: Furigana)
    requires !SearchOnly(kana.tags)
    ensures f in KanjiPairings(kanjis, kana) <==> exists b :: 0 <= b < |kanjis| && Pairs(kana, kanjis[b], f)
  {
    if f in KanjiPairings(kanjis, kana) {
      KanjiSound(kanjis, kana, f);
    }
    if exists b :: 0 <= b < |kanjis| && Pairs(kana, kanjis[b], f) {
      var b :| 0 <= b < |kanjis| && Pairs(kana, kanjis[b], f);
      KanjiComplete(kanjis, kana, f, b);
    }
  }

  lemma {:induction false} KanjiSound(kanjis: seq<Kanji>, kana: Kana, f: Furigana)
    requires !SearchOnly(kana.tags)
    requires f in KanjiPairings(kanjis, kana)
    ensures exists b :: 0 <= b < |kanjis| && Pairs(kana, kanjis[b], f)
  {
    var n := |kanjis| - 1;
    var init := kanjis[..n];
    var last := kanjis[n];
    var tail := if SearchOnly(last.tags) then [] else AppliesPairings(kana.appliesToKanji, last, kana);
    assert KanjiPairings(kanjis, kana) == KanjiPairings(init, kana) + tail;
    if f in KanjiPairings(init, kana) {
      KanjiSound(init, kana, f);
      var b :| 0 <= b < |init| && Pairs(kana, init[b], f);
      assert kanjis[b] == init[b];
    } else {
      AppliesMember(kana.appliesToKanji, last, kana, f);
      assert Pairs(kana, kanjis[n], f);
    }
  }

  lemma {:induction false} KanjiComplete(kanjis: seq<Kanji>, kana: Kana, f: Furigana, b: nat)
    requires b < |kanjis| && Pairs(kana, kanjis[b], f)
    ensures f in KanjiPairings(kanjis, kana)
  {
    var n := |kanjis| - 1;
    var init := kanjis[..n];
    var last := kanjis[n];
    var tail := if SearchOnly(last.tags) then [] else AppliesPairings(kana.appliesToKanji, last, kana);
    assert KanjiPairings(kanjis, kana) == KanjiPairings(init, kana) + tail;
    if b < n {
      assert init[b] == kanjis[b];
      KanjiComplete(init, kana, f, b);
    } else {
      AppliesMember(kana.appliesToKanji, last, kana, f);
      assert f in tail;
    }
  }

  /** A pairing is emitted exactly for a kana and a kanji, neither of them
      search-only, where the kana applies to the kanji's text or to every
      kanji. */
  lemma {:induction false} PairingsMember(kanas: seq<Kana>, kanjis: seq<Kanji>, f: Furigana)
    ensures f in Pairings(kanas, kanjis)
        <==> exists a, b :: 0 <= a < |kanas| && 0 <= b < |kanjis| && Pairs(kanas[a], kanjis[b], f)
  {
    if f in Pairings(kanas, kanjis) {
      PairingsSound(kanas, kanjis, f);
    }
    if exists a, b :: 0 <= a < |kanas| && 0 <= b < |kanjis| && Pairs(kanas[a], kanjis[b], f) {
      var a, b :| 0 <= a < |kanas| && 0 <= b < |kanjis| && Pairs(kanas[a], kanjis[b], f);
      PairingsComplete(kanas, kanjis, f, a, b);
    }
  }

  lemma {:induction false} PairingsSound(kanas: seq<Kana>, kanjis: seq<Kanji>, f: Furigana)
    requires f in Pairings(kanas, kanjis)
    ensures exists a, b :: 0 <= a < |kanas| && 0 <= b < |kanjis| && Pairs(kanas[a], kanjis[b], f)
  {
    var n := |kanas| - 1;
    var init := kanas[..n];
    if f in Pairings(init, kanjis) {
      PairingsSound(init, kanjis, f);
      var a, b :| 0 <= a < |init| && 0 <= b < |kanjis| && Pairs(init[a], kanjis[b], f);
      assert kanas[a] == init[a];
    } else {
      assert !SearchOnly(kanas[n].tags);
      KanjiSound(kanjis, kanas[n], f);
    }
  }

  lemma {:induction false} PairingsComplete(kanas: seq<Kana>, kanjis: seq<Kanji>, f: Furigana, a: nat, b: nat)
    requires a < |kanas| && b < |kanjis| && Pairs(kanas[a], kanjis[b], f)
    ensures f in Pairings(kanas, kanjis)
  {
    var n := |kanas| - 1;
    if a < n {
      var init := kanas[..n];
      assert init[a] == kanas[a];
      PairingsComplete(init, kanjis, f, a, b);
      PairingsGrow(kanas, kanjis);
    } else {
      KanjiComplete(kanjis, kanas[n], f, b);
      PairingsOfLast(kanas, kanjis, f);
    }
  }

  /** A pairing of the last kana, when it is not search-only, is among the
      pairings. */
  lemma PairingsOfLast(kanas: seq<Kana>, kanjis: seq<Kanji>, f: Furigana)
    requires kanas != [] && !SearchOnly(kanas[|kanas| - 1].tags)
    requires f in KanjiPairings(kanjis, kanas[|kanas| - 1])
    ensures f in Pairings(kanas, kanjis)
  {
  }

  /** The pairings of a prefix of the kana are a prefix of the pairings. */
  lemma PairingsGrow(kanas: seq<Kana>, kanjis: seq<Kanji>)
    requires kanas != []
    ensures Pairings(kanas[..|kanas| - 1], kanjis) <= Pairings(kanas, kanjis)
  {
  }

  lemma {:induction false} NoAppliesNoKanjiPairings(kanjis: seq<Kanji>, kana: Kana)
    requires kana.appliesToKanji == []
    ensures KanjiPairings(kanjis, kana) == []
  {
    if kanjis != [] {
      NoAppliesNoKanjiPairings(kanjis[..|kanjis| - 1], kana);
    }
  }

  /** A kana with an empty applies-to list contributes nothing. */
  lemma NoAppliesNoPairings(kanas: seq<Kana>, k: Kana, kanjis: seq<Kanji>)
    requires k.appliesToKanji == []
    ensures Pairings(kanas + [k], kanjis) == Pairings(kanas, kanjis)
  {
    assert (kanas + [k])[..|kanas|] == kanas;
    NoAppliesNoKanjiPairings(kanjis, k);
  }

  /** Folding pairings into a blank record: the first becomes the main word
      (with the first kanji's Common), the rest are the other forms, in
      order. This needs the first pairing's word to be non-empty: a pairing
      with an empty word leaves the main-word slot open for the next one. */
  lemma {:induction false} MainAndOthers(e: Word, fs: seq<Furigana>, c: bool)
    requires e.mainWord.word == "" && e.otherForms == []
    requires fs != [] && fs[0].word != ""
    ensures AddPairings(e, fs, c).mainWord == fs[0]
    ensures AddPairings(e, fs, c).otherForms == fs[1..]
    ensures AddPairings(e, fs, c).common == c
  {
    var n := |fs| - 1;
    if n > 0 {
      MainAndOthers(e, fs[..n], c);
      assert fs[..n][1..] + [fs[n]] == fs[1..];
    }
  }

  /** The display record of a word with kanji. */
  lemma KanjiWordDisplay(w: JMdictWord)
    requires |w.kanji| > 0
    ensures var r := DisplayOf(w); var ps := Pairings(w.kana, w.kanji);
      && (ps == [] ==> r.mainWord == EmptyFurigana && !r.common && r.otherForms == [])
      && (ps != [] && ps[0].word != "" ==>
            r.mainWord == ps[0] && r.otherForms == ps[1..] && r.common == w.kanji[0].common)
  {
    var ps := Pairings(w.kana, w.kanji);
    if ps != [] && ps[0].word != "" {
      MainAndOthers(Word(w.id, EmptyFurigana, [], false, []), ps, w.kanji[0].common);
    }
  }

  /** The display record of a kana-only word: the first kana is the main
      word and sets Common, every other kana (search-only ones included) is
      an other form, all with an empty reading. */
  lemma KanaOnlyDisplay(w: JMdictWord)
    requires |w.kanji| == 0 && |w.kana| > 0
    ensures var r := DisplayOf(w);
      && r.mainWord == Furigana(w.kana[0].text, "")
      && r.common == w.kana[0].common
      && |r.otherForms| == |w.kana| - 1
      && forall i :: 0 < i < |w.kana| ==> r.otherForms[i - 1] == Furigana(w.kana[i].text, "")
  {
  }

  /** strings.Join read from the front. */
  lemma {:induction false} JoinFront(parts: seq<string>, sep: string)
    requires |parts| >= 2
    ensures Join(parts, sep) == parts[0] + sep + Join(parts[1..], sep)
  {
    var n := |parts| - 1;
    if n > 1 {
      JoinFront(parts[..n], sep);
      assert parts[..n][1..] == parts[1..][..n - 1];
    }
  }

  // ---------------------------------------------------------------------
  // The worked example of import/word_test.go.
  // ---------------------------------------------------------------------

  const WarmWord: JMdictWord := JMdictWord(
    "1586420",
    [Kanji(true, "暖かい", []), Kanji(true, "温かい", []), Kanji(false, "暖い", ["sK"])],
    [Kana(true, "あたたかい", [], ["*"]), Kana(false, "あったかい", [], ["*"]), Kana(false, "あったけー", ["sK"], ["*"])],
    [Sense(["*"], ["*"], [Gloss("eng", "warm"), Gloss("eng", "mild"), Gloss("eng", "(pleasantly) hot")]),
     Sense(["温かい"], ["*"], [Gloss("eng", "considerate"), Gloss("eng", "kind"), Gloss("eng", "genial")]),
     Sense(["暖かい"], ["*"], [Gloss("eng", "warm (of a colour)"), Gloss("eng", "mellow")])])

  /** Each of the two plain kana reads both plain kanji, in kanji order. */
  lemma WarmKanaPairings(a: nat)
    requires a < 2
    ensures KanjiPairings(WarmWord.kanji, WarmWord.kana[a])
         == [Furigana("暖かい", WarmWord.kana[a].text), Furigana("温かい", WarmWord.kana[a].text)]
  {
    var w := WarmWord;
    var kana := w.kana[a];
    assert SearchOnly(w.kanji[2].tags);
    assert !SearchOnly(w.kanji[0].tags) && !SearchOnly(w.kanji[1].tags);
    assert w.kanji[..0] == [] && w.kanji[..3] == w.kanji;
    assert kana.appliesToKanji == ["*"] && kana.appliesToKanji[..0] == [];
    AppliesStep(kana.appliesToKanji, 0, w.kanji[0], kana);
    AppliesStep(kana.appliesToKanji, 0, w.kanji[1], kana);
    KanjiStep(w.kanji, 0, kana);
    KanjiStep(w.kanji, 1, kana);
    KanjiStep(w.kanji, 2, kana);
  }

  lemma WarmWordPairings()
    ensures Pairings(WarmWord.kana, WarmWord.kanji)
         == [Furigana("暖かい", "あたたかい"), Furigana("温かい", "あたたかい"),
             Furigana("暖かい", "あったかい"), Furigana("温かい", "あったかい")]
  {
    var w := WarmWord;
    assert SearchOnly(w.kana[2].tags);
    assert !SearchOnly(w.kana[0].tags) && !SearchOnly(w.kana[1].tags);
    assert w.kana[..0] == [] && w.kana[..3] == w.kana;
    WarmKanaPairings(0);
    WarmKanaPairings(1);
    PairingsStep(w.kana, 0, w.kanji);
    PairingsStep(w.kana, 1, w.kanji);
    PairingsStep(w.kana, 2, w.kanji);
  }

  lemma JoinThree(a: string, b: string, c: string, sep: string)
    ensures Join([a, b, c], sep) == a + sep + b + sep + c
  {
    assert [a, b, c][..2] == [a, b];
    JoinTwo(a, b, sep);
  }

  lemma JoinTwo(a: string, b: string, sep: string)
    ensures Join([a, b], sep) == a + sep + b
  {
    assert [a, b][..1] == [a];
  }

  lemma GlossTextsThree(g0: Gloss, g1: Gloss, g2: Gloss)
    ensures GlossTexts([g0, g1, g2]) == [g0.text, g1.text, g2.text]
  {
  }

  lemma WarmFirstSense()
    ensures Join(GlossTexts(WarmWord.sense[0].gloss), GlossSeparator) == "warm; mild; (pleasantly) hot"
  {
    var gs := WarmWord.sense[0].gloss;
    assert gs == [Gloss("eng", "warm"), Gloss("eng", "mild"), Gloss("eng", "(pleasantly) hot")];
    GlossTextsThree(gs[0], gs[1], gs[2]);
    JoinThree("warm", "mild", "(pleasantly) hot", GlossSeparator);
    WarmFirstText();
  }

  lemma WarmFirstText()
    ensures "warm" + GlossSeparator + "mild" + GlossSeparator + "(pleasantly) hot" == "warm; mild; (pleasantly) hot"
  {
    assert "warm" + GlossSeparator == "warm; ";
    assert "warm; " + "mild" == "warm; mild";
    assert "warm; mild" + GlossSeparator == "warm; mild; ";
  }

  lemma WarmSecondSense()
    ensures Join(GlossTexts(WarmWord.sense[1].gloss), GlossSeparator) == "considerate; kind; genial"
  {
    var gs := WarmWord.sense[1].gloss;
    assert gs == [Gloss("eng", "considerate"), Gloss("eng", "kind"), Gloss("eng", "genial")];
    GlossTextsThree(gs[0], gs[1], gs[2]);
    JoinThree("considerate", "kind", "genial", GlossSeparator);
  }

  lemma WarmThirdSense()
    ensures Join(GlossTexts(WarmWord.sense[2].gloss), GlossSeparator) == "warm (of a colour); mellow"
  {
    assert GlossTexts(WarmWord.sense[2].gloss) == ["warm (of a colour)", "mellow"];
    JoinTwo("warm (of a colour)", "mellow", GlossSeparator);
  }

  lemma WarmWordMeanings()
    ensures SenseMeanings(WarmWord.sense) == ["warm; mild; (pleasantly) hot", "considerate; kind; genial", "warm (of a colour); mellow"]
  {
    WarmFirstSense();
    WarmSecondSense();
    WarmThirdSense();
  }

  /** The record the code produces for it: the main word and other forms the
      test expects, with the ID copied and the glosses joined by "; ". */
  lemma WarmWordDisplay()
    ensures DisplayOf(WarmWord) == Word(
      "1586420",
      Furigana("暖かい", "あたたかい"),
      [Furigana("温かい", "あたたかい"), Furigana("暖かい", "あったかい"), Furigana("温かい", "あったかい")],
      true,
      ["warm; mild; (pleasantly) hot", "considerate; kind; genial", "warm (of a colour); mellow"])
  {
    WarmWordPairings();
    WarmWordMeanings();
    KanjiWordDisplay(WarmWord);
  }
}
