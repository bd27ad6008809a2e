/** The search-document normalisers and the custom JSON decoders of the
    search documents.

    ToWordSearchable (import/word.go, import/word_searchable.go), its
    earlier revisions ToEntrySearchable (database/entry_searchable.go) and
    JMdictWord.ToBleveEntry (model/bleve_entry.go) build the five-field
    document; JMdictWord.ToBleveEntry (database/entry.go) and
    JMdictWord.ToSearchable (jmdictword.go) build the three-field one. All of
    them copy the spellings and the English glosses and stop at the first
    empty one. The record built so far is returned beside the error in the
    source; every caller drops it, so here an error carries only the ID. */
module SearchDoc {
  import opened Wrappers
  import opened Json
  import opened Coerce
  import opened Jmdict

  // ---------------------------------------------------------------------
  // What the documents hold.
  // ---------------------------------------------------------------------

  function KanjiTexts(kanjis: seq<Kanji>): seq<string> {
    seq(|kanjis|, i requires 0 <= i < |kanjis| => kanjis[i].text)
  }

  function KanaTexts(kanas: seq<Kana>): seq<string> {
    seq(|kanas|, i requires 0 <= i < |kanas| => kanas[i].text)
  }

  /** The texts of the English glosses of one sense, in order. */
  function EnglishTexts(glosses: seq<Gloss>): seq<string> {
    if glosses == [] then []
    else
      var last := glosses[|glosses| - 1];
      EnglishTexts(glosses[..|glosses| - 1]) + (if last.lang == English then [last.text] else [])
  }

  /** The texts of the English glosses of all senses, sense by sense. */
  function EnglishGlosses(senses: seq<Sense>): seq<string> {
    if senses == [] then []
    else EnglishGlosses(senses[..|senses| - 1]) + EnglishTexts(senses[|senses| - 1].gloss)
  }

  predicate IsEnglishGloss(senses: seq<Sense>, s: int, g: int) {
    0 <= s < |senses| && 0 <= g < |senses[s].gloss| && senses[s].gloss[g].lang == English
  }

  /** The inputs every normaliser refuses: an empty kanji text, an empty kana
      text, or an empty English gloss. Empty glosses in other languages are
      not looked at. */
  predicate HasEmptyField(d: JMdictWord) {
    || (exists i :: 0 <= i < |d.kanji| && d.kanji[i].text == "")
    || (exists i :: 0 <= i < |d.kana| && d.kana[i].text == "")
    || EmptyEnglishGloss(d.sense)
  }

  predicate EmptyEnglishGloss(senses: seq<Sense>) {
    exists s, g :: 0 <= s < |senses| && 0 <= g < |senses[s].gloss| && IsEnglishGloss(senses, s, g)
                   && senses[s].gloss[g].text == ""
  }

  /** The five-field document of a word, as a value. */
  function SearchDocument(d: JMdictWord): Result<WordSearchable, EmptyField> {
    if HasEmptyField(d) then Err(EmptyField(d.id))
    else
      var kanji := KanjiTexts(d.kanji);
      var kana := KanaTexts(d.kana);
      Ok(WordSearchable(d.id, kanji, kanji, kana, kana, EnglishGlosses(d.sense)))
  }

  /** The three-field document of a word, as a value. */
  function SearchableDocument(d: JMdictWord): Result<SearchableEntry, EmptyField> {
    if HasEmptyField(d) then Err(EmptyField(d.id))
    else Ok(SearchableEntry(d.id, KanjiTexts(d.kanji), KanaTexts(d.kana), EnglishGlosses(d.sense)))
  }

  // ---------------------------------------------------------------------
  // The loops.
  // ---------------------------------------------------------------------

  lemma EnglishTextsStep(glosses: seq<Gloss>, j: nat)
    requires j < |glosses|
    ensures EnglishTexts(glosses[..j + 1])
         == EnglishTexts(glosses[..j]) + (if glosses[j].lang == English then [glosses[j].text] else [])
  {
    assert glosses[..j + 1][..j] == glosses[..j];
  }

  lemma EnglishGlossesStep(senses: seq<Sense>, i: nat)
    requires i < |senses|
    ensures EnglishGlosses(senses[..i + 1]) == EnglishGlosses(senses[..i]) + EnglishTexts(senses[i].gloss)
  {
    assert senses[..i + 1][..i] == senses[..i];
  }

  /** The English-gloss loop shared by every normaliser: the English texts
      in sense-then-gloss order, or the position of the first empty one. */
  method CollectMeanings(senses: seq<Sense>) returns (meanings: seq<string>, ok: bool)
    ensures ok <==> !EmptyEnglishGloss(senses)
    ensures ok ==> meanings == EnglishGlosses(senses)
  {
    meanings := [];
    for i := 0 to |senses|
      invariant meanings == EnglishGlosses(senses[..i])
      invariant forall s, g :: 0 <= s < i && IsEnglishGloss(senses, s, g) ==> senses[s].gloss[g].text != ""
    {
      var sense := senses[i];
      ghost var before := meanings;
      for j := 0 to |sense.gloss|
        invariant meanings == before + EnglishTexts(sense.gloss[..j])
        invariant forall g :: 0 <= g < j && IsEnglishGloss(senses, i, g) ==> senses[i].gloss[g].text != ""
      {
        var gloss := sense.gloss[j];
        EnglishTextsStep(sense.gloss, j);
        if gloss.lang == English {
          if gloss.text == "" {
            assert IsEnglishGloss(senses, i, j) && senses[i].gloss[j].text == "";
            return meanings, false;
          }
          meanings := meanings + [gloss.text];
        }
      }
      assert sense.gloss[..|sense.gloss|] == sense.gloss;
      EnglishGlossesStep(senses, i);
    }
    assert senses[..|senses|] == senses;
    ok := true;
  }

  /** ToWordSearchable (and ToEntrySearchable, model's ToBleveEntry): the
      kanji texts twice, the kana texts twice and the English glosses, or an
      error naming the word when a text is empty. */
  method ToWordSearchable(d: JMdictWord) returns (r: Result<WordSearchable, EmptyField>)
    ensures r.Err? <==> HasEmptyField(d)
    ensures r.Err? ==> r.error == EmptyField(d.id)
    ensures r.Ok? ==> r.value.id == d.id
    ensures r.Ok? ==> r.value.kanjiExact == r.value.kanjiChar == KanjiTexts(d.kanji)
    ensures r.Ok? ==> r.value.kanaExact == r.value.kanaChar == KanaTexts(d.kana)
    ensures r.Ok? ==> r.value.meanings == EnglishGlosses(d.sense)
    ensures r == SearchDocument(d)
  {
    var kanjiExact, kanjiChar, kanaExact, kanaChar := [], [], [], [];
    for i := 0 to |d.kanji|
      invariant kanjiExact == kanjiChar == KanjiTexts(d.kanji[..i])
      invariant forall k :: 0 <= k < i ==> d.kanji[k].text != ""
    {
      var k := d.kanji[i];
      if k.text == "" {
        return Err(EmptyField(d.id));
      }
      assert KanjiTexts(d.kanji[..i + 1]) == KanjiTexts(d.kanji[..i]) + [k.text];
      kanjiExact := kanjiExact + [k.text];
      kanjiChar := kanjiChar + [k.text];
    }
    for i := 0 to |d.kana|
      invariant kanaExact == kanaChar == KanaTexts(d.kana[..i])
      invariant forall k :: 0 <= k < i ==> d.kana[k].text != ""
    {
      var k := d.kana[i];
      if k.text == "" {
        return Err(EmptyField(d.id));
      }
      assert KanaTexts(d.kana[..i + 1]) == KanaTexts(d.kana[..i]) + [k.text];
      kanaExact := kanaExact + [k.text];
      kanaChar := kanaChar + [k.text];
    }
    var meanings, ok := CollectMeanings(d.sense);
    if !ok {
      return Err(EmptyField(d.id));
    }
    assert d.kanji[..|d.kanji|] == d.kanji && d.kana[..|d.kana|] == d.kana;
    r := Ok(WordSearchable(d.id, kanjiExact, kanjiChar, kanaExact, kanaChar, meanings));
  }

  /** ToSearchable (and database's ToBleveEntry): the three-field document. */
  method ToSearchable(d: JMdictWord) returns (r: Result<SearchableEntry, EmptyField>)
    ensures r.Err? <==> HasEmptyField(d)
    ensures r.Err? ==> r.error == EmptyField(d.id)
    ensures r.Ok? ==> r.value == SearchableEntry(d.id, KanjiTexts(d.kanji), KanaTexts(d.kana), EnglishGlosses(d.sense))
    ensures r == SearchableDocument(d)
  {
    var kanji, kana := [], [];
    for i := 0 to |d.kanji|
      invariant kanji == KanjiTexts(d.kanji[..i])
      invariant forall k :: 0 <= k < i ==> d.kanji[k].text != ""
    {
      var k := d.kanji[i];
      if k.text == "" {
        return Err(EmptyField(d.id));
      }
      assert KanjiTexts(d.kanji[..i + 1]) == KanjiTexts(d.kanji[..i]) + [k.text];
      kanji := kanji + [k.text];
    }
    for i := 0 to |d.kana|
      invariant kana == KanaTexts(d.kana[..i])
      invariant forall k :: 0 <= k < i ==> d.kana[k].text != ""
    {
      var k := d.kana[i];
      if k.text == "" {
        return Err(EmptyField(d.id));
      }
      assert KanaTexts(d.kana[..i + 1]) == KanaTexts(d.kana[..i]) + [k.text];
      kana := kana + [k.text];
    }
    var meanings, ok := CollectMeanings(d.sense);
    if !ok {
      return Err(EmptyField(d.id));
    }
    assert d.kanji[..|d.kanji|] == d.kanji && d.kana[..|d.kana|] == d.kana;
    r := Ok(SearchableEntry(d.id, kanji, kana, meanings));
  }

  // ---------------------------------------------------------------------
  // Properties of the documents.
  // ---------------------------------------------------------------------

  lemma {:induction false} EnglishTextsMember(glosses: seq<Gloss>, t: string)
    ensures t in EnglishTexts(glosses) <==> exists g :: 0 <= g < |glosses| && glosses[g] == Gloss(English, t)
  {
    if glosses != [] {
      var n := |glosses| - 1;
      EnglishTextsMember(glosses[..n], t);
      if exists g :: 0 <= g < |glosses| && glosses[g] == Gloss(English, t) {
        var g :| 0 <= g < |glosses| && glosses[g] == Gloss(English, t);
        if g < n {
          assert glosses[..n][g] == glosses[g];
        }
      }
      if t in EnglishTexts(glosses[..n]) {
        var g :| 0 <= g < n && glosses[..n][g] == Gloss(English, t);
        assert glosses[g] == Gloss(English, t);
      }
    }
  }

  /** The meanings are exactly the English gloss texts: a gloss in another
      language never shows up, an English one always does. */
  lemma EnglishGlossesMember(senses: seq<Sense>, t: string)
    ensures t in EnglishGlosses(senses)
        <==> exists s, g :: IsEnglishGloss(senses, s, g) && senses[s].gloss[g].text == t
  {
    if t in EnglishGlosses(senses) {
      EnglishGlossesSound(senses, t);
    }
    if exists s, g :: IsEnglishGloss(senses, s, g) && senses[s].gloss[g].text == t {
      var s, g :| IsEnglishGloss(senses, s, g) && senses[s].gloss[g].text == t;
      EnglishGlossesComplete(senses, t, s, g);
    }
  }

  lemma {:induction false} EnglishGlossesSound(senses: seq<Sense>, t: string)
    requires t in EnglishGlosses(senses)
    ensures exists s, g :: IsEnglishGloss(senses, s, g) && senses[s].gloss[g].text == t
  {
    var n := |senses| - 1;
    var init := senses[..n];
    assert EnglishGlosses(senses) == EnglishGlosses(init) + EnglishTexts(senses[n].gloss);
    if t in EnglishGlosses(init) {
      EnglishGlossesSound(init, t);
      var s, g :| IsEnglishGloss(init, s, g) && init[s].gloss[g].text == t;
      assert senses[s] == init[s];
      assert IsEnglishGloss(senses, s, g);
    } else {
      EnglishTextsMember(senses[n].gloss, t);
      var g :| 0 <= g < |senses[n].gloss| && senses[n].gloss[g] == Gloss(English, t);
      assert IsEnglishGloss(senses, n, g);
    }
  }

  lemma {:induction false} EnglishGlossesComplete(senses: seq<Sense>, t: string, s: int, g: int)
    requires IsEnglishGloss(senses, s, g) && senses[s].gloss[g].text == t
    ensures t in EnglishGlosses(senses)
  {
    var n := |senses| - 1;
    var init := senses[..n];
    assert EnglishGlosses(senses) == EnglishGlosses(init) + EnglishTexts(senses[n].gloss);
    if s < n {
      assert init[s] == senses[s];
      EnglishGlossesComplete(init, t, s, g);
    } else {
      assert senses[n].gloss[g] == Gloss(English, t);
      EnglishTextsMember(senses[n].gloss, t);
    }
  }

  /** One English gloss per sense gives one meaning per sense. */
  lemma {:induction false} OneEnglishGlossEach(senses: seq<Sense>)
    requires forall s :: 0 <= s < |senses| ==> |senses[s].gloss| == 1 && senses[s].gloss[0].lang == English
    ensures EnglishGlosses(senses) == seq(|senses|, s requires 0 <= s < |senses| => senses[s].gloss[0].text)
  {
    if senses != [] {
      var n := |senses| - 1;
      OneEnglishGlossEach(senses[..n]);
      assert senses[n].gloss[..0] == [];
      assert EnglishTexts(senses[n].gloss) == [senses[n].gloss[0].text];
    }
  }

  /** The three-field and five-field documents agree: each fails exactly when
      the other does, and hold the same lists. */
  lemma DocumentsAgree(d: JMdictWord)
    ensures SearchDocument(d).Ok? <==> SearchableDocument(d).Ok?
    ensures SearchDocument(d).Ok? ==>
      var a := SearchDocument(d).value; var b := SearchableDocument(d).value;
      a.id == b.id && a.kanjiExact == b.kanji && a.kanaExact == b.kana && a.meanings == b.meanings
  {
  }

  /** A search-only spelling is indexed like any other. */
  lemma SearchOnlyStillIndexed(d: JMdictWord, i: nat)
    requires i < |d.kanji| && SearchDocument(d).Ok?
    ensures d.kanji[i].text in SearchDocument(d).value.kanjiExact
  {
    assert SearchDocument(d).value.kanjiExact[i] == d.kanji[i].text;
  }

  // ---------------------------------------------------------------------
  // The custom decoders. json.Unmarshal fills a temporary whose list fields
  // are `interface{}` and whose ID goes straight into the receiver; then
  // each list field is overwritten with EnsureSlice of its raw value.
  // ---------------------------------------------------------------------

  /** Whether json.Unmarshal accepts the data: null (a no-op), or an object
      whose "id", if present and not null, is a string. Every other key is
      either one of the raw list fields, which accept any value, or ignored. */
  predicate Decodable(data: Json) {
    data.JNull? || (data.JObject? && (Field(data, "id").JNull? || Field(data, "id").JString?))
  }

  /** The receiver's ID after a successful decode: the "id" string when there
      is one, the previous ID otherwise. */
  function DecodedId(data: Json, prior: string): string {
    if Field(data, "id").JString? then Field(data, "id").s else prior
  }

  /** BleveEntry.UnmarshalJSON of model/bleve_entry.go, as a value. */
  function DecodeBleveEntry(data: Json, prior: WordSearchable): Option<WordSearchable> {
    if !Decodable(data) then None
    else Some(WordSearchable(
      DecodedId(data, prior.id),
      CoercedStrings(Field(data, "kanji_exact")),
      CoercedStrings(Field(data, "kanji_char")),
      CoercedStrings(Field(data, "kana_exact")),
      CoercedStrings(Field(data, "kana_char")),
      CoercedStrings(Field(data, "meanings"))))
  }

  /** The three-field decoder: BleveEntry.UnmarshalJSON of database/entry.go
      (which coerces with EnsureSlice of util/util.go) when `singleton` is
      false, SearchableEntry.UnmarshalJSON of searchableentry.go (whose
      EnsureSlice wraps a lone string) when it is true. */
  function DecodeSearchableEntry(data: Json, prior: SearchableEntry, singleton: bool): Option<SearchableEntry> {
    if !Decodable(data) then None
    else
      var coerce := (v: Json) => if singleton then CoercedStringsOrSingleton(v) else CoercedStrings(v);
      Some(SearchableEntry(
        DecodedId(data, prior.id),
        coerce(Field(data, "kanji")),
        coerce(Field(data, "kana")),
        coerce(Field(data, "meanings"))))
  }

  /** How json.Marshal writes a string list. */
  function StringArray(xs: seq<string>): Json {
    JArray(seq(|xs|, i requires 0 <= i < |xs| => JString(xs[i])))
  }

  function EncodeWordSearchable(doc: WordSearchable): Json {
    JObject(map[
      "id" := JString(doc.id),
      "kanji_exact" := StringArray(doc.kanjiExact),
      "kanji_char" := StringArray(doc.kanjiChar),
      "kana_exact" := StringArray(doc.kanaExact),
      "kana_char" := StringArray(doc.kanaChar),
      "meanings" := StringArray(doc.meanings)])
  }

  function EncodeSearchableEntry(doc: SearchableEntry): Json {
    JObject(map[
      "id" := JString(doc.id),
      "kanji" := StringArray(doc.kanji),
      "kana" := StringArray(doc.kana),
      "meanings" := StringArray(doc.meanings)])
  }

  lemma CoercedStringArray(xs: seq<string>)
    ensures CoercedStrings(StringArray(xs)) == xs
    ensures CoercedStringsOrSingleton(StringArray(xs)) == xs
  {
  }

  /** Decoding what was indexed gives the document back, whatever the
      receiver held before. */
  lemma DecodeEncodedWordSearchable(doc: WordSearchable, prior: WordSearchable)
    ensures DecodeBleveEntry(EncodeWordSearchable(doc), prior) == Some(doc)
  {
    var data := EncodeWordSearchable(doc);
    CoercedStringArray(doc.kanjiExact);
    CoercedStringArray(doc.kanjiChar);
    CoercedStringArray(doc.kanaExact);
    CoercedStringArray(doc.kanaChar);
    CoercedStringArray(doc.meanings);
    assert Field(data, "kanji_exact") == StringArray(doc.kanjiExact);
    assert Field(data, "kanji_char") == StringArray(doc.kanjiChar);
    assert Field(data, "kana_exact") == StringArray(doc.kanaExact);
    assert Field(data, "kana_char") == StringArray(doc.kanaChar);
    assert Field(data, "meanings") == StringArray(doc.meanings);
  }

  lemma DecodeEncodedSearchableEntry(doc: SearchableEntry, prior: SearchableEntry, singleton: bool)
    ensures DecodeSearchableEntry(EncodeSearchableEntry(doc), prior, singleton) == Some(doc)
  {
    var data := EncodeSearchableEntry(doc);
    CoercedStringArray(doc.kanji);
    CoercedStringArray(doc.kana);
    CoercedStringArray(doc.meanings);
    assert Field(data, "kanji") == StringArray(doc.kanji);
    assert Field(data, "kana") == StringArray(doc.kana);
    assert Field(data, "meanings") == StringArray(doc.meanings);
  }

  /** Null decodes to empty lists and keeps the ID; a missing list field
      becomes the empty list. */
  lemma DecodeNullOrMissing(data: Json, prior: WordSearchable, key: string)
    requires data.JNull? || (data.JObject? && "id" !in data.fields && key !in data.fields)
    ensures DecodeBleveEntry(data, prior).Some?
    ensures DecodeBleveEntry(data, prior).value.id == prior.id
    ensures key == "meanings" ==> DecodeBleveEntry(data, prior).value.meanings == []
    ensures data.JNull? ==> DecodeBleveEntry(data, prior).value == WordSearchable(prior.id, [], [], [], [], [])
  {
  }

  /** On a lone string, the two three-field revisions part: database/entry.go
      drops it, searchableentry.go keeps it as a one-element list. */
  lemma LoneStringRevisions(id: string, s: string, prior: SearchableEntry)
    ensures var data := JObject(map["id" := JString(id), "kanji" := JString(s)]);
      && DecodeSearchableEntry(data, prior, false) == Some(SearchableEntry(id, [], [], []))
      && DecodeSearchableEntry(data, prior, true) == Some(SearchableEntry(id, [s], [], []))
  {
    var data := JObject(map["id" := JString(id), "kanji" := JString(s)]);
    assert Field(data, "kanji") == JString(s);
    assert Field(data, "kana") == JNull && Field(data, "meanings") == JNull;
  }

  /** The receiver of model/bleve_entry.go. */
  class BleveEntry {
    var id: string
    var kanjiExact: seq<string>
    var kanjiChar: seq<string>
    var kanaExact: seq<string>
    var kanaChar: seq<string>
    var meanings: seq<string>

    function Value(): WordSearchable
      reads this
    {
      WordSearchable(id, kanjiExact, kanjiChar, kanaExact, kanaChar, meanings)
    }

    constructor ()
      ensures Value() == WordSearchable("", [], [], [], [], [])
    {
      id, kanjiExact, kanjiChar, kanaExact, kanaChar, meanings := "", [], [], [], [], [];
    }

    /** UnmarshalJSON: on a decode error nothing changes; otherwise the ID
        is taken from "id" when present and every list field is
        overwritten with EnsureSlice of its raw value. */
    method UnmarshalJSON(data: Json) returns (ok: bool)
      modifies this
      ensures ok <==> Decodable(data)
      ensures !ok ==> Value() == old(Value())
      ensures ok ==> Some(Value()) == DecodeBleveEntry(data, old(Value()))
    {
      if !Decodable(data) {
        return false;
      }
      id := DecodedId(data, id);
      kanjiExact := EnsureSlice(Field(data, "kanji_exact"));
      kanjiChar := EnsureSlice(Field(data, "kanji_char"));
      kanaExact := EnsureSlice(Field(data, "kana_exact"));
      kanaChar := EnsureSlice(Field(data, "kana_char"));
      meanings := EnsureSlice(Field(data, "meanings"));
      ok := true;
    }
  }

  /** The three-field receivers: BleveEntry of database/entry.go
      (`singleton` false) and SearchableEntry of searchableentry.go
      (`singleton` true). */
  class SearchableRecord {
    const singleton: bool
    var id: string
    var kanji: seq<string>
    var kana: seq<string>
    var meanings: seq<string>

    function Value(): SearchableEntry
      reads this
    {
      SearchableEntry(id, kanji, kana, meanings)
    }

    constructor (singleton: bool)
      ensures this.singleton == singleton
      ensures Value() == SearchableEntry("", [], [], [])
    {
      this.singleton := singleton;
      id, kanji, kana, meanings := "", [], [], [];
    }

    method Coerce(v: Json) returns (r: seq<string>)
      ensures singleton ==> r == CoercedStringsOrSingleton(v)
      ensures !singleton ==> r == CoercedStrings(v)
    {
      if singleton {
        r := EnsureSliceOrSingleton(v);
      } else {
        r := EnsureSlice(v);
      }
    }

    method UnmarshalJSON(data: Json) returns (ok: bool)
      modifies this
      ensures ok <==> Decodable(data)
      ensures !ok ==> Value() == old(Value())
      ensures ok ==> Some(Value()) == DecodeSearchableEntry(data, old(Value()), singleton)
    {
      if !Decodable(data) {
        return false;
      }
      id := DecodedId(data, id);
      kanji := Coerce(Field(data, "kanji"));
      kana := Coerce(Field(data, "kana"));
      meanings := Coerce(Field(data, "meanings"));
      ok := true;
    }
  }
}
