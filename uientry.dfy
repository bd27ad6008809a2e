/** The older display algorithm of server/ui_entry.go, which fills the
    records behind the HTML templates: every kanji is an other form with the
    reading of the first kana that applies to it, and the meanings are the
    English glosses of the senses that apply to the main word. The main word
    itself is never assigned, so senses are filtered against "". */
module UiEntry {
  import opened Wrappers
  import opened Jmdict
  import opened Display
  import opened SearchDoc

  datatype UiEntry = UiEntry(mainWord: Furigana, otherForms: seq<Furigana>, isCommon: bool, meanings: seq<string>)

  /** A kana applies to a kanji when its applies-to list is empty or names
      the kanji's text; the wildcard "*" is not special here. */
  predicate AppliesTo(kana: Kana, kanji: Kanji) {
    kana.appliesToKanji == [] || kanji.text in kana.appliesToKanji
  }

  /** The index of the first kana that applies to the kanji. */
  function FirstApplying(kanji: Kanji, kanas: seq<Kana>): (r: Option<nat>)
    ensures r.Some? ==> r.value < |kanas| && AppliesTo(kanas[r.value], kanji)
    ensures r.Some? ==> forall b :: 0 <= b < r.value ==> !AppliesTo(kanas[b], kanji)
    ensures r.None? <==> forall b :: 0 <= b < |kanas| ==> !AppliesTo(kanas[b], kanji)
  {
    if kanas == [] then None
    else if AppliesTo(kanas[0], kanji) then Some(0)
    else
      match FirstApplying(kanji, kanas[1..])
      case None => None
      case Some(b) => Some(b + 1)
  }

  /** findMatchingKana: the first applying kana's text, else the first
      kana's text, else "". */
  function FindMatchingKana(kanji: Kanji, kanas: seq<Kana>): (r: string)
    ensures (exists b :: 0 <= b < |kanas| && AppliesTo(kanas[b], kanji)) ==>
      exists b :: 0 <= b < |kanas| && AppliesTo(kanas[b], kanji) && r == kanas[b].text
        && forall c :: 0 <= c < b ==> !AppliesTo(kanas[c], kanji)
    ensures (forall b :: 0 <= b < |kanas| ==> !AppliesTo(kanas[b], kanji)) ==>
      r == if kanas == [] then "" else kanas[0].text
  {
    match FirstApplying(kanji, kanas)
    case Some(b) => kanas[b].text
    case None => if |kanas| > 0 then kanas[0].text else ""
  }

  predicate IsKanjiText(word: string, kanjis: seq<Kanji>) {
    exists k :: 0 <= k < |kanjis| && kanjis[k].text == word
  }

  /** isValidSense: a sense with no restriction applies to everything; a
      kanji text is checked against the kanji restriction, anything else
      against the kana restriction, an empty restriction letting it pass. */
  function IsValidSense(word: string, sense: Sense, kanjis: seq<Kanji>): (r: bool)
    ensures sense.appliesToKanji == [] && sense.appliesToKana == [] ==> r
    ensures IsKanjiText(word, kanjis) ==> (r <==> sense.appliesToKanji == [] || word in sense.appliesToKanji)
    ensures !IsKanjiText(word, kanjis) ==> (r <==> sense.appliesToKana == [] || word in sense.appliesToKana)
  {
    if sense.appliesToKanji == [] && sense.appliesToKana == [] then true
    else if exists k :: 0 <= k < |kanjis| && kanjis[k].text == word then
      sense.appliesToKanji == [] || word in sense.appliesToKanji
    else
      sense.appliesToKana == [] || word in sense.appliesToKana
  }

  /** The English glosses of the senses valid for the word. */
  function ValidMeanings(word: string, senses: seq<Sense>, kanjis: seq<Kanji>): seq<string> {
    if senses == [] then []
    else
      var last := senses[|senses| - 1];
      ValidMeanings(word, senses[..|senses| - 1], kanjis)
      + (if IsValidSense(word, last, kanjis) then EnglishTexts(last.gloss) else [])
  }

  function KanjiForms(kanjis: seq<Kanji>, kanas: seq<Kana>): seq<Furigana> {
    seq(|kanjis|, i requires 0 <= i < |kanjis| => Furigana(kanjis[i].text, FindMatchingKana(kanjis[i], kanas)))
  }

  /** The record ProcessEntries makes of one word. */
  function UiEntryOf(w: JMdictWord): UiEntry {
    var forms := if |w.kanji| > 0 then KanjiForms(w.kanji, w.kana) else ReadinglessForms(w.kana);
    var common := if |w.kanji| > 0 then w.kanji[0].common else if |w.kana| > 0 then w.kana[0].common else false;
    UiEntry(EmptyFurigana, forms, common, ValidMeanings(EmptyFurigana.word, w.sense, w.kanji))
  }

  lemma ValidMeaningsStep(word: string, senses: seq<Sense>, i: nat, kanjis: seq<Kanji>)
    requires i < |senses|
    ensures ValidMeanings(word, senses[..i + 1], kanjis)
         == ValidMeanings(word, senses[..i], kanjis)
            + (if IsValidSense(word, senses[i], kanjis) then EnglishTexts(senses[i].gloss) else [])
  {
    assert senses[..i + 1][..i] == senses[..i];
  }

  /** ProcessEntries: one record per word, in order. */
  method ProcessEntries(words: seq<JMdictWord>) returns (processed: seq<UiEntry>)
    ensures |processed| == |words|
    ensures forall i :: 0 <= i < |words| ==> processed[i] == UiEntryOf(words[i])
  {
    processed := [];
    for n := 0 to |words|
      invariant |processed| == n
      invariant forall i :: 0 <= i < n ==> processed[i] == UiEntryOf(words[i])
    {
      var entry := ProcessWord(words[n]);
      processed := processed + [entry];
    }
  }

  /** The body of ProcessEntries' loop, for one word. */
  method ProcessWord(word: JMdictWord) returns (entry: UiEntry)
    ensures entry == UiEntryOf(word)
  {
    entry := UiEntry(EmptyFurigana, [], false, []);
    if |word.kanji| > 0 {
      var forms, common := KanjiFormsLoop(word.kanji, word.kana);
      entry := entry.(otherForms := forms, isCommon := common);
    } else if |word.kana| > 0 {
      var forms, common := KanaFormsLoop(word.kana);
      entry := entry.(otherForms := forms, isCommon := common);
    }
    var meanings := ValidSenseMeanings(entry.mainWord.word, word.sense, word.kanji);
    entry := entry.(meanings := meanings);
  }

  /** The loop over the kanji forms: one form per kanji, read with its
      matching kana; the first kanji decides whether the word is common. */
  method KanjiFormsLoop(kanjis: seq<Kanji>, kanas: seq<Kana>) returns (forms: seq<Furigana>, common: bool)
    requires |kanjis| > 0
    ensures forms == KanjiForms(kanjis, kanas) && common == kanjis[0].common
  {
    forms, common := [], false;
    for i := 0 to |kanjis|
      invariant |forms| == i
      invariant forall k :: 0 <= k < i ==> forms[k] == Furigana(kanjis[k].text, FindMatchingKana(kanjis[k], kanas))
      invariant common == (i > 0 && kanjis[0].common)
    {
      var reading := FindMatchingKana(kanjis[i], kanas);
      forms := forms + [Furigana(kanjis[i].text, reading)];
      if i == 0 {
        common := kanjis[0].common;
      }
    }
    assert forms == KanjiForms(kanjis, kanas);
  }

  /** The loop over the kana of a word without kanji: one form per kana,
      with no reading; the first kana decides whether the word is common. */
  method KanaFormsLoop(kanas: seq<Kana>) returns (forms: seq<Furigana>, common: bool)
    requires |kanas| > 0
    ensures forms == ReadinglessForms(kanas) && common == kanas[0].common
  {
    forms, common := [], false;
    for i := 0 to |kanas|
      invariant |forms| == i
      invariant forall k :: 0 <= k < i ==> forms[k] == Furigana(kanas[k].text, "")
      invariant common == (i > 0 && kanas[0].common)
    {
      forms := forms + [Furigana(kanas[i].text, "")];
      if i == 0 {
        common := kanas[0].common;
      }
    }
  }

  /** The meanings loop: the English glosses of each sense valid for the
      word, appended in order. */
  method ValidSenseMeanings(word: string, senses: seq<Sense>, kanjis: seq<Kanji>) returns (meanings: seq<string>)
    ensures meanings == ValidMeanings(word, senses, kanjis)
  {
    meanings := [];
    for s := 0 to |senses|
      invariant meanings == ValidMeanings(word, senses[..s], kanjis)
    {
      var sense := senses[s];
      ValidMeaningsStep(word, senses, s, kanjis);
      if IsValidSense(word, sense, kanjis) {
        ghost var before := meanings;
        for g := 0 to |sense.gloss|
          invariant meanings == before + EnglishTexts(sense.gloss[..g])
        {
          EnglishTextsStep(sense.gloss, g);
          if sense.gloss[g].lang == English {
            meanings := meanings + [sense.gloss[g].text];
          }
        }
        assert sense.gloss[..|sense.gloss|] == sense.gloss;
      }
    }
    assert senses[..|senses|] == senses;
  }

  // ---------------------------------------------------------------------
  // What the records hold.
  // ---------------------------------------------------------------------

  /** Every kanji, search-only ones included, is an other form in kanji
      order; the main word stays blank; Common comes from the first kanji. */
  lemma KanjiWordEntry(w: JMdictWord)
    requires |w.kanji| > 0
    ensures UiEntryOf(w).mainWord == EmptyFurigana
    ensures |UiEntryOf(w).otherForms| == |w.kanji|
    ensures forall i :: 0 <= i < |w.kanji| ==>
      UiEntryOf(w).otherForms[i] == Furigana(w.kanji[i].text, FindMatchingKana(w.kanji[i], w.kana))
    ensures UiEntryOf(w).isCommon == w.kanji[0].common
  {
  }

  /** A kana-only word lists every kana with an empty reading. */
  lemma KanaOnlyEntry(w: JMdictWord)
    requires |w.kanji| == 0
    ensures UiEntryOf(w).mainWord == EmptyFurigana
    ensures |UiEntryOf(w).otherForms| == |w.kana|
    ensures forall i :: 0 <= i < |w.kana| ==> UiEntryOf(w).otherForms[i] == Furigana(w.kana[i].text, "")
    ensures UiEntryOf(w).isCommon == (|w.kana| > 0 && w.kana[0].common)
  {
  }

  /** The senses without a kana restriction. */
  function KanaUnrestricted(senses: seq<Sense>): seq<Sense> {
    if senses == [] then []
    else
      var last := senses[|senses| - 1];
      KanaUnrestricted(senses[..|senses| - 1]) + (if last.appliesToKana == [] then [last] else [])
  }

  /** Because the main word stays "", when no kanji text is empty and no
      sense names "" among its kanas, the meanings are the English glosses
      of exactly the senses without a kana restriction. */
  lemma {:induction false} MeaningsAsWritten(senses: seq<Sense>, kanjis: seq<Kanji>)
    requires forall k :: 0 <= k < |kanjis| ==> kanjis[k].text != ""
    requires forall s :: 0 <= s < |senses| ==> "" !in senses[s].appliesToKana
    ensures ValidMeanings("", senses, kanjis) == EnglishGlosses(KanaUnrestricted(senses))
  {
    if senses != [] {
      var n := |senses| - 1;
      MeaningsAsWritten(senses[..n], kanjis);
      var u := KanaUnrestricted(senses[..n]);
      if senses[n].appliesToKana == [] {
        assert (u + [senses[n]])[..|u|] == u;
      } else {
        assert u + [] == u;
      }
    }
  }

  /** A kana restricted to "*" does not apply to a kanji: the reading comes
      from a later unrestricted kana. */
  lemma WildcardIsNotSpecial()
    ensures FindMatchingKana(Kanji(true, "暖かい", []),
                             [Kana(true, "あたたかい", [], ["*"]), Kana(false, "あったかい", [], [])])
         == "あったかい"
  {
    var kanji := Kanji(true, "暖かい", []);
    var kanas := [Kana(true, "あたたかい", [], ["*"]), Kana(false, "あったかい", [], [])];
    assert !AppliesTo(kanas[0], kanji);
    assert AppliesTo(kanas[1], kanji);
  }
}
