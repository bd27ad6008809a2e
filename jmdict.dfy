/** The record shapes of the dictionary pipeline: the raw jmdict-simplified
    word read at import time, the display record kept in the document store,
    and the two shapes of search document given to the index. Only the
    fields the pipeline reads are kept (parts of speech, cross references
    and the other sense annotations are not read by it). */
module Jmdict {

  /** The tag that marks a spelling as search-only. */
  const SearchOnlyTag: string := "sK"
  /** The marker in a kana's applies-to list that means "every kanji". */
  const Wildcard: string := "*"
  /** The gloss language the search documents index. */
  const English: string := "eng"
  /** The separator between the glosses of one sense in a display record. */
  const GlossSeparator: string := "; "

  datatype Kanji = Kanji(common: bool, text: string, tags: seq<string>)

  datatype Kana = Kana(common: bool, text: string, tags: seq<string>, appliesToKanji: seq<string>)

  datatype Gloss = Gloss(lang: string, text: string)

  datatype Sense = Sense(appliesToKanji: seq<string>, appliesToKana: seq<string>, gloss: seq<Gloss>)

  /** A raw dictionary word (JMdictWord). */
  datatype JMdictWord = JMdictWord(id: string, kanji: seq<Kanji>, kana: seq<Kana>, sense: seq<Sense>)

  /** A {word, reading} pair. */
  datatype Furigana = Furigana(word: string, reading: string)

  const EmptyFurigana: Furigana := Furigana("", "")

  /** The display record (database.Word; EntryDatabase has the same shape). */
  datatype Word = Word(id: string, mainWord: Furigana, otherForms: seq<Furigana>, common: bool, meanings: seq<string>)

  /** The five-field search document (WordSearchable, EntrySearchable and
      the BleveEntry of the model package). */
  datatype WordSearchable = WordSearchable(
    id: string,
    kanjiExact: seq<string>,
    kanjiChar: seq<string>,
    kanaExact: seq<string>,
    kanaChar: seq<string>,
    meanings: seq<string>)

  /** The three-field search document (SearchableEntry and the BleveEntry of
      the database package). */
  datatype SearchableEntry = SearchableEntry(id: string, kanji: seq<string>, kana: seq<string>, meanings: seq<string>)

  /** The error every normaliser returns on an empty spelling or gloss
      ("emtpy field at <id>" in the source). */
  datatype EmptyField = EmptyField(id: string)
}
