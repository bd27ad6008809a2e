# tango-dictionary, modelled in Dafny

tango-dictionary is a Japanese–English dictionary built from the
jmdict-simplified JSON dump. An importer turns each dictionary word into
two documents:

- a display record, stored in MongoDB;
- a search document, indexed in bleve.

A web client classifies the searched text by script, builds a bleve query
for it and collects the hit IDs. It then fetches the records and sorts them
back into hit order. This project models the pure and sequential heart of
that pipeline and proves what each part promises:

| module | file | what it models |
|---|---|---|
| `Wrappers`, `Json`, `Jmdict` | wrappers.dfy, json.dfy, jmdict.dfy | Option/Result, decoded JSON values, the record shapes |
| `Coerce` | coerce.dfy | `EnsureSlice` (both revisions), `ContainsString`, the pointer helpers |
| `Display` | display.dfy | the display normaliser `ToWord` / `ToEntryDatabase` and its three passes |
| `SearchDoc` | searchdoc.dfy | the search-document normalisers and the search documents' JSON decoders |
| `UiEntry` | uientry.dfy | the older display algorithm of the server's HTML templates |
| `Script` | script.dfy | `DetectSearchTermType` and `ContainsCJK` |
| `Query` | query.dfy | bleve queries as a datatype: the per-script and the all-groups policies |
| `Search` | search.dfy | hit extraction, the re-sort into hit order, the search flows |
| `Importer` | importer.dfy | one import worker: staging, batch flushes, the first error stopping it |
| `Xref` | xref.dfy | the four-case cross-reference decoder |
| `ContentType` | contenttype.dfy | the MIME type of a static file |
| `RecentWords` | recentwords.dfy | the browser's most-recently-used list of searched words |

Several functions exist in more than one revision of the tree. Identical
revisions share one Dafny definition: their row cites the newest file and
names the other copies. Revisions that differ get one definition each, or a
parameter, together with a lemma that states the difference
(`Coerce.RevisionsDifferOnlyOnLoneString`, `SearchDoc.LoneStringRevisions`).

The external pieces are parameters:

- The bleve index is a function from a search request to hits or an error.
- The MongoDB find is a function from IDs to records or one of its three
  failures.
- The Unicode tables are a record of predicates.
- An import worker's failures are oracles indexed by the word's position
  or by the write's ordinal.

Every method that computes something is proved against a specification
function. The lemmas beside each method state what the source promises about
that function.

## Model

| member | source | states |
|---|---|---|
| Coerce.EnsureSlice | common/utils/slice.go:3-16 | An array gives a list of the same length. Each string element stays at its index and every other element becomes "". Any non-array value, null included, gives []. The copies in util/util.go:3-16 and util/slice_utils.go:3-16 are the same. |
| Coerce.CoercedStrings | util/util.go:3-16 | The value EnsureSlice returns, with the same length, index and blanking guarantees. |
| Coerce.EnsureSliceOrSingleton | searchableentry.go:30-45 | A lone string gives a one-element list. Arrays are coerced as above; any other value gives []. |
| Coerce.CoercedStringsOrSingleton | searchableentry.go:30-45 | A string gives [s]; every other value coerces exactly as in the other revision. |
| Coerce.RevisionsDifferOnlyOnLoneString | searchableentry.go:40-41 | The two EnsureSlice revisions disagree exactly when the value is a lone string. |
| Coerce.ContainsString | common/utils/slice.go:18-25 | True if and only if some element equals the target (so false on an empty list). |
| Coerce.ToStringPtr | util/util.go:18-23 | Some if and only if the value is a string, holding that string; the same as common/utils/pointer.go:3-8. |
| Coerce.ToIntPtr | util/util.go:25-31 | Some if and only if the value is a JSON number, holding that number; the same as common/utils/pointer.go:10-16. |
| Coerce.EqualPointers | util/util.go:33-38 | When either pointer is nil, true exactly when both are. Otherwise it compares the pointees. |
| Coerce.EqualPointersIsEquivalence | common/utils/pointer.go:18-23 | EqualPointers is reflexive and symmetric. |
| Display.DisplayOf | import/word.go:12-26 | The display record keeps the word's ID. It has exactly one meaning per sense: that sense's gloss texts, in every language, joined with "; ". |
| Display.ToWord | import/word.go:12-26 | The loop version yields DisplayOf, so it copies the ID and gives one meaning per sense. ToEntryDatabase (database/entry_database.go:9-23) is the same. |
| Display.ProcessKanjiWord | import/word.go:71-99 | The entry after the triple loop is the fold of Pairings (kana outer, kanji inner, applies-entry innermost), with the first kanji's common flag. |
| Display.ReadKana | import/word.go:77-96 | The middle loop, for one kana: the entry after it is the fold of KanjiPairings over every kanji not tagged sK, in kanji order. |
| Display.ReadKanji | import/word.go:82-95 | The innermost loop, for one kana and one kanji: one pairing per applies-to entry that names the kanji or is the wildcard. The first pairing fills the empty main word and sets Common from the first kanji. Every later one is appended to the other forms. |
| Display.ProcessKanaOnlyWord | import/word.go:101-115 | The first kana becomes the main word with an empty reading and sets the common flag. Every other kana is appended with an empty reading. |
| Display.ProcessSenseWord | import/word.go:117-126 | One joined meaning is appended per sense, in sense order. |
| Display.AddPairingsKeepsIdAndMeanings | import/word.go:84-94 | Folding pairings into a record changes neither its ID nor its meanings. |
| Display.AddPairingsAppend | import/word.go:89-94 | Folding two runs of pairings is folding the first run, then the second. |
| Display.AppliesPairingsCount | import/word.go:82-88 | One pairing per matching applies-entry, so duplicate entries give duplicate pairings. Each pairing is (kanji text, kana text). |
| Display.AppliesMember | import/word.go:82-83 | A pairing is emitted for a kana and a kanji if and only if the applies list names the kanji's text or "*". |
| Display.KanjiMember | import/word.go:77-88 | For a kana not tagged sK, a pairing is emitted if and only if some kanji not tagged sK is read by it. |
| Display.PairingsMember | import/word.go:72-98 | A furigana is among the pairings if and only if some kana and some kanji, neither tagged sK, pair to it. |
| Display.NoAppliesNoKanjiPairings | import/word.go:82-96 | A kana with an empty applies list pairs with no kanji. |
| Display.NoAppliesNoPairings | import/word.go:72-98 | Adding a kana with an empty applies list adds no pairing. |
| Display.MainAndOthers | import/word.go:89-94 | Into a blank record, when the first pairing's kanji text is non-empty, it becomes the main word with the given common flag and the rest become the other forms in order. With an empty kanji text the main-word slot stays open for the next pairing, and no claim is made. |
| Display.KanjiWordDisplay | import/word.go:71-99 | Word with kanji and no pairing: empty main word, false common flag, no other forms. Otherwise, when the first pairing's kanji text is non-empty, it is the main word and the rest are other forms. The common flag is Kanji[0]'s even when it is tagged sK. A word with an empty kanji text fails normalisation before its batch is written (Importer.NormaliseFailureStops). |
| Display.KanaOnlyDisplay | import/word.go:101-114 | Kana-only word: the first kana is the main word with reading "" and its common flag. Every other kana is an other form with reading "", so there are |kana|-1 of them. |
| Display.WarmWordPairings | import/word_test.go:17-73 | For the 暖かい example, the four pairings in kana-outer, kanji-inner order; the sK-tagged forms are skipped. |
| Display.WarmWordMeanings | import/word.go:117-125 | For the same example, the three meanings joined with "; ". |
| Display.WarmWordDisplay | import/word_test.go:66-73 | The whole record the code produces for the example: the test's main word, other forms and common flag, plus the ID, with "; " separators. |
| SearchDoc.CollectMeanings | import/word.go:56-66 | Succeeds if and only if no English gloss is empty, and then yields the English gloss texts in sense-then-gloss order. |
| SearchDoc.ToWordSearchable | import/word_searchable.go:10-51 | Fails, with the word's ID, if and only if some kanji, kana or English gloss text is empty. Otherwise it keeps the ID, sets the exact and char lists both to the kanji texts and both to the kana texts in order, and keeps the English glosses. The same holds for import/word.go:28-69, database/entry_searchable.go:8-49 and model/bleve_entry.go:18-59. |
| SearchDoc.ToSearchable | jmdictword.go:5-42 | The three-field document: the same failure condition, and otherwise the ID, kanji texts, kana texts and English glosses. The same holds for database/entry.go:16-53. |
| SearchDoc.EnglishTextsMember | import/word_searchable.go:39-46 | A text is among a sense's meanings if and only if some gloss of that sense is English with that text. |
| SearchDoc.EnglishGlossesMember | import/word_searchable.go:38-48 | A text is among the meanings if and only if some English gloss of some sense has it. |
| SearchDoc.OneEnglishGlossEach | import/word_searchable.go:38-48 | With one English gloss per sense, the meanings are those glosses in sense order. |
| SearchDoc.DocumentsAgree | database/entry.go:16-53 | The three-field and five-field documents fail on the same words and otherwise carry the same ID, spellings and meanings. |
| SearchDoc.SearchOnlyStillIndexed | import/word_searchable.go:20-27 | Every kanji text is indexed, search-only (sK) ones included. |
| SearchDoc.BleveEntry.UnmarshalJSON | model/bleve_entry.go:61-88 | Undecodable data is an error and leaves the receiver unchanged. Otherwise the ID is decoded if present and each of the five lists is EnsureSlice of its raw field. |
| SearchDoc.SearchableRecord.UnmarshalJSON | searchableentry.go:5-28 | The same for the three-field document. It coerces with the singleton revision here and with the plain one for database/entry.go:55-78. |
| SearchDoc.SearchableRecord.Coerce | searchableentry.go:23-25 | Each list field is coerced by the revision the receiver belongs to. |
| SearchDoc.CoercedStringArray | util/util.go:5-12 | A JSON array of strings coerces back to those strings, in either revision. |
| SearchDoc.DecodeEncodedWordSearchable | model/bleve_entry.go:61-88 | Decoding the JSON of a five-field document gives the document back, whatever the receiver held. |
| SearchDoc.DecodeEncodedSearchableEntry | searchableentry.go:5-28 | Decoding the JSON of a three-field document gives it back, in either revision. |
| SearchDoc.DecodeNullOrMissing | model/bleve_entry.go:81-85 | Null or a missing key decodes without error. A missing list becomes [], a missing ID keeps the receiver's, and null clears every list. |
| SearchDoc.LoneStringRevisions | database/entry.go:73-75 | A lone string field decodes to [] in database/entry.go and to [s] in searchableentry.go. |
| UiEntry.FirstApplying | server/ui_entry.go:76-88 | The index of the first kana whose applies list is empty or names the kanji, and none exists exactly when no kana applies. |
| UiEntry.FindMatchingKana | server/ui_entry.go:75-96 | The text of the first applying kana. Without one, the first kana's text, or "" when there is no kana. |
| UiEntry.IsValidSense | server/ui_entry.go:99-137 | True when both applies lists are empty. Otherwise, for a kanji text, it is true if and only if the kanji list is empty or names the word; for any other word, the same with the kana list. |
| UiEntry.ProcessEntries | server/ui_entry.go:20-72 | Exactly one entry per word, in input order, each the entry that word yields. |
| UiEntry.ProcessWord | server/ui_entry.go:24-68 | The loop version of one word's entry equals UiEntryOf. |
| UiEntry.KanjiFormsLoop | server/ui_entry.go:30-41 | One form per kanji, in order, read with its matching kana; Common is the first kanji's flag. |
| UiEntry.KanaFormsLoop | server/ui_entry.go:42-53 | For a word without kanji: one form per kana, in order, with an empty reading; Common is the first kana's flag. |
| UiEntry.ValidSenseMeanings | server/ui_entry.go:57-66 | The English glosses of the accepted senses, in sense-then-gloss order. |
| UiEntry.KanjiWordEntry | server/ui_entry.go:30-41 | Word with kanji: the main word stays empty. There is one other form per kanji, sK-tagged ones included, each read by FindMatchingKana, and the common flag is Kanji[0]'s. |
| UiEntry.KanaOnlyEntry | server/ui_entry.go:42-54 | Word without kanji: the main word stays empty, every kana is an other form with reading "", and the common flag is Kana[0]'s or false. |
| UiEntry.MeaningsAsWritten | server/ui_entry.go:57-66 | Since the main word is never assigned, senses are tested against "". When no kanji text is empty and no kana list names "", the meanings are exactly the English glosses of the senses with an empty kana list. |
| UiEntry.WildcardIsNotSpecial | server/ui_entry.go:77-87 | "*" in a kana's applies list does not match a kanji, so a later unrestricted kana is chosen. |
| Script.DetectSearchTermType | client/server/search_term_type.go:13-47 | Kanji if and only if some character is Han. Kana if and only if none is Han and some is hiragana or katakana. Romaji otherwise, the empty text included. |
| Script.OtherCharactersIgnored | client/server/search_term_type.go:32-38 | Inserting a character that is neither Han nor kana never changes the classification. |
| Script.ClassifyIgnoresOrder | client/server/search_term_type.go:13-47 | Texts with the same characters, in any order, are classified alike. |
| Script.ContainsCJK | common/utils/cjk.go:3-13 | True if and only if some code point lies in [0x4E00,0x9FFF], [0x3040,0x309F] or [0x30A0,0x30FF], bounds included. |
| Script.AsciiHasNoCjk | common/utils/cjk.go:4-12 | A pure-ASCII text, the empty one included, contains no CJK. |
| Script.CjkMonotone | common/utils/cjk.go:4-10 | A text that contains a CJK-holding text contains CJK. |
| Script.CjkIgnoresOrder | common/utils/cjk.go:3-13 | The result does not depend on character order. |
| Script.CjkIffNotRomaji | common/utils/cjk.go:5-7 | With the Unicode classes read as exactly these blocks, a text contains CJK if and only if it is not classified Romaji. |
| Query.NewTermQueryWithBoost | utils/bleve.go:8-13 | A Term query on exactly the given field, text and boost. The same as database/database.go:157-162. |
| Query.NewMatchQueryWithBoost | utils/bleve.go:15-20 | A Match query on exactly the given field, text and boost. The same as database/database.go:164-169. |
| Query.NewJapaneseFieldQuery | utils/bleve.go:22-34 | A Boolean query with two should clauses: a Term on the exact field with boost 10, then a min-1 Disjunction of one Match on the char field with boost 1. The exact boost is strictly greater. Its leaves are exactly those two clauses, so it touches only the two fields. The same as CreateBooleanQueryForField at database/database.go:171-183. |
| Query.PerScriptShape | client/server/search.go:53-104 | Every clause uses the searched text. Romaji touches only meanings, kana only the kana fields, kanji only the kanji fields. Within each group the boosts strictly decrease (5 > 4 > 1, or 4 > 1). |
| Query.AllGroupsShape | database/search.go:41-51 | The same query for every text: a meanings Term OR a kana group OR a kanji group. It searches exactly the five fields, and every leaf carries the searched text unchanged (the boosts of each group are those of Query.NewJapaneseFieldQuery). The same as database/database.go:185-195. |
| Query.PerScriptQuery | client/server/search.go:53-104 | Two should clauses for romaji and three for kana or kanji, each a leaf over the searched text. |
| Query.PerScriptRequest | client/server/search.go:106-115 | The classification's query with size 20 and from 0, asking back the ID. |
| Query.AllGroupsQuery | database/search.go:41-51 | A meanings Term with the default boost, then a kana group over kana_exact and kana_char, then a kanji group over kanji_exact and kanji_char. |
| Query.AllGroupsRequest | database/search.go:53-63 | The all-groups query with size 20 and from 0, asking back the ID and exactly the fields it searches. The same as database/database.go:197-205. |
| Query.MatchAllFieldsRequest | dictionaryimporter.go:163-169 | One Match query over every field for the text, size 20, from 0, asking back the ID. |
| Search.HitIds | client/server/search.go:127-150 | No more IDs than hits. |
| Search.ExtractBleveResult | client/server/search.go:127-150 | The loop collects HitIds: the decoded ID of every hit that marshals and decodes, skipping the rest. The same as database/search.go:75-98 and database/database.go:207-225. |
| Search.HitIdsAppend | client/server/search.go:130-147 | Extraction distributes over concatenation, so IDs come out in hit order. |
| Search.HitIdsAllDecode | client/server/search.go:130-147 | When every hit decodes, there is one ID per hit, at the hit's position. |
| Search.Rank | client/server/search.go:199-206 | The first position of an ID in the target order, or the length of the target if and only if the ID is absent. |
| Search.LessIsRankOrder | client/server/search.go:198-208 | The comparator as written holds if and only if a's ID is present and first occurs no later than b's. |
| Search.LessOnIds | client/server/search.go:198-208 | For different IDs the comparator is strict rank order. For equal IDs it holds exactly when the ID is present. |
| Search.SortWords | client/server/search.go:197-211 | The array ends as a permutation of its old contents. It is sorted by first position in the target order, and the records whose ID is absent keep their relative order. |
| Search.InsertAt | client/server/search.go:198-208 | One insertion pass keeps the multiset and the absent records' order, and extends the sorted prefix by one. |
| Search.SortedArrangementUnique | client/server/search.go:198-208 | With distinct IDs there is only one such arrangement, so any stable sort by this comparator gives the same result. |
| Search.SortExample | client/server/search.go:197-211 | Target [id3,id1,id2] with records [id1,id2,id3] sorts to [id3,id1,id2]. |
| Search.FetchError | client/server/search.go:163-195 | A find failure is "failed to find documents in MongoDB: ...". A cursor decode or cursor failure is its own message, with the prefix "failed to iterate over cursor: " in fetchWordsByIDs and without it in runMongoFind (database/database.go:240-257). |
| Search.CursorError | client/server/search.go:180-195 | A decode failure is "failed to decode document: ..." and a cursor failure "cursor error: ...". The same as database/database.go:247-257. |
| Search.FetchErrorRevisions | database/database.go:247-257 | Find failures read alike in both revisions. Cursor failures differ exactly by the "failed to iterate over cursor: " prefix, which client/server/search.go:171 adds. |
| Search.PerformBleveQuery | client/server/search.go:117-124 | An index error is wrapped as "failed to search Bleve index: ...". Otherwise the hits' IDs are returned in order. |
| Search.FetchWordsByIds | client/server/search.go:153-178 | A store failure is reported with FetchError's text for the revision. Otherwise the fetched records come back sorted into the IDs' order. The same as runMongoFind at database/database.go:230-272 without the cursor prefix. |
| Search.Less | client/server/search.go:198-208 | The comparator holds only when a's ID is in the target order, and always holds when a's ID is present and b's absent. The same as database/database.go:259-270. |
| Search.Lower | client/server/search.go:25 | The lower-cased text has the same length, each character mapped by the table's lower-case function. |
| Search.ClientSearch | client/server/search.go:23-45 | It queries with the per-script request for the lower-cased text. Index errors and store errors are passed on. No IDs gives exactly "EMPTY_LIST" without reading the store. Otherwise the records come back in hit order. |
| Search.DatabaseSearch | database/search.go:18-38 | The same with the all-groups request for the text as given, and the error "no results found". With the cursor prefix this is database/search.go; without it, it is database/database.go:135-155, whose runMongoFind reports cursor failures unwrapped. |
| Search.EmptyIdsIgnoreStore | client/server/search.go:33-36 | When no ID comes back, the outcome is the empty-result error whatever the store holds. |
| Search.CaseInsensitiveRequest | client/server/search.go:25-27 | Texts that lower-case alike give the same request. |
| Search.DecodedHits | dictionaryimporter.go:176-194 | No more entries than hits. |
| Search.ImporterSearch | dictionaryimporter.go:163-197 | One Match query over all fields, Size 20, From 0. Index errors are passed on unchanged; otherwise it returns the decoded entries in hit order, skipping hits that fail. |
| Search.IndexedEntriesComeBack | dictionaryimporter.go:176-194 | Hits carrying the stored fields of indexed entries decode back to exactly those entries. |
| Importer.Worker.constructor | import/import.go:72-74 | Both batches start empty, with nothing written and no error. |
| Importer.Worker.Flush | import/import.go:102-115 | Store bulk write, then index commit, then both batches reset. A failing store write commits no index batch, and the final flush leaves the batches as they are. |
| Importer.Worker.Consume | import/import.go:76-116 | One word: marshal, stage the store document, normalise, stage the index document under the word's ID, and flush at the batch size. Each failure is recorded with its message. |
| Importer.Worker.Run | import/import.go:69-130 | The worker's state after the input is the specification's Imported state. The same machine runs at database/import.go:59-119, database/database.go:275-335 and dictionaryimporter.go:106-161. |
| Importer.ImportWritesEverything | import/import.go:76-129 | On success the store writes concatenate to every word's store document in order, and the index commits concatenate to every word's index document in order. The two logs pair up batch by batch. |
| Importer.ImportBatchSizes | import/import.go:102-129 | With batch size b ≥ 1 and n words, there are n/b full flushes plus one for a non-empty remainder of n%b, and the remainder is written last. |
| Importer.PendingBelowBatchSize | import/import.go:102 | Between words the pending batches are shorter than the batch size. |
| Importer.ErrorStops | import/import.go:82-111 | After the first error no later word changes anything, and the pending batch is not written. |
| Importer.WritesPaired | import/import.go:103-111 | Store writes and index commits differ by at most one, and by one exactly when an index write failed. |
| Importer.NothingToImport | import/import.go:119 | No input means no writes. |
| Importer.NormaliseFailureStops | import/import.go:91-95 | A word with an empty field stops the worker with "emtpy field at <id>". |
| Xref.Slots | common/jmdict/xref.go:17-20 | An array fills the three slots in order, padding with null or dropping the extras. Null leaves them null, and anything else is refused. |
| Xref.Xref.UnmarshalJSON | common/jmdict/xref.go:16-54 | A successful decode sets the receiver to the decoded fields. An error leaves the receiver unchanged and is reported. The same decoder is at model/xref.go:16-54 and database/xref.go:16-54. |
| Xref.XrefCases | common/jmdict/xref.go:22-53 | The four cases in order: three slots; a string second slot; a number second slot; a non-null first slot. Each writes only its own fields, and all-null is "invalid JSON format for Xref". |
| Xref.XrefErrors | common/jmdict/xref.go:17-53 | Null, [] and three nulls are the invalid-format error. Non-arrays fail before any case. |
| Xref.WrongTypeSlotIsNil | common/jmdict/xref.go:24-26 | A slot of the wrong type leaves its field nil rather than failing. |
| Xref.XrefTestVectors | model/xref_test.go:15-46 | The four test vectors decode into the four cases. |
| Xref.DecodeEncodedXref | model/xref.go:22-51 | Every well-formed cross reference, written in its JSON form, decodes back to itself. |
| Xref.DecodeKeepsOtherFields | model/xref.go:22-51 | Decoding into a used receiver rewrites only the chosen case's fields; the others keep their prior values. |
| ContentType.GetContentType | client/server/utils.go:5-16 | A path ending ".css" gives text/css, ".svg" image/svg+xml and ".ttf" font/ttf. Octet-stream is given exactly when none of these ends the path. |
| ContentType.KnownExtensions | client/server/utils.go:7-12 | Any path followed by a known extension gets that extension's type. |
| ContentType.OnlyTheEndMatters | client/server/utils.go:7-14 | Paths ending in the same four characters get the same type. |
| ContentType.ExtensionNotAtEnd | client/server/utils.go:13-14 | An extension elsewhere in the path ("style.css.map"), or the empty path, gives application/octet-stream. |
| RecentWords.Remove | client/static/index.js:14 | Filtering leaves no copy of the word, never lengthens the list and adds nothing new. |
| RecentWords.RemoveAppend | client/static/index.js:14 | The filter distributes over concatenation: the words that stay keep their order. |
| RecentWords.RemoveAbsent | client/static/index.js:14 | A list without the word is unchanged by the filter. |
| RecentWords.RemoveCounts | client/static/index.js:14 | Every copy of the word goes, and every other word keeps its count. |
| RecentWords.MostRecentFirst | client/static/index.js:14-16 | The new list is at most maxItems long and at most one longer than before. |
| RecentWords.AddedWordFirstAndOnce | client/static/index.js:14-15 | The searched word is first and appears exactly once. |
| RecentWords.OthersKeepOrder | client/static/index.js:14-16 | Behind it come the other words in their previous order, cut to fit. Nothing is lost below the limit, and a full list stays at the limit. |
| RecentWords.SearchAgainIsIdle | client/static/index.js:12-19 | Adding the word just added changes nothing. |
| RecentWords.StaysDistinct | client/static/index.js:14-16 | A list without duplicates stays without duplicates. |
| RecentWords.WordList.constructor | client/static/index.js:2-5 | The list keeps the given storage key, "recentWords" when none is given, with maxItems 8. |
| RecentWords.WordList.GetWords | client/static/index.js:7-10 | The stored list, or [] when the key holds nothing. |
| RecentWords.WordList.AddWord | client/static/index.js:12-19 | addWord as its comments intend. The stored and returned list is MostRecentFirst of the old one, and no other key changes. |
| RecentWords.WordList.AddWordAsWritten | client/static/index.js:13-14 | addWord as written always fails with a TypeError, and it stores nothing. |
| RecentWords.AsWrittenForgetsTheWord | client/static/index.js:13-17 | For a word not yet listed, the intended list differs from the unchanged one and starts with the word. |
| RecentWords.WordList.ClearWords | client/static/index.js:21-23 | The key is removed, no other key changes, and GetWords then returns []. |

## Left out

- The goroutine fan-out, channels and WaitGroup of the import coordinators (import/import.go:25-67, database/import.go:18-57, database/database.go:94-133, dictionaryimporter.go:54-104) are left out. Their point is concurrency, so one worker is modelled sequentially.
- The file opening and JSON decoding of the dictionary dump are I/O and are left out.
- The MongoDB and bleve clients, index mappings, analyzers and relevance scoring are left out. The index is a function from a request to hits, and the store's find is a function from IDs to records or a failure.
- Search.ImporterSearch: the index's ranking is opaque, so the Size and From limits are carried in the request but their effect is not modelled.
- encoding/json and BSON themselves are left out. Decoded JSON is a datatype, a hit's failure to marshal is a flag on the hit, and a BSON marshalling failure is an oracle.
- Coerce.ToIntPtr: JSON numbers are integers. The float64 truncation of int(floatNum) is floating point and is not modelled.
- Script.DetectSearchTermType: the Unicode Han, Hiragana and Katakana tables are parameters. The punctuation, space and number branch continues like every other character, so it needs no table.
- Search.Lower: strings.ToLower is a per-character function given as a parameter.
- Logging, the printed decode errors and the request's Explain flag are left out. They do not affect results.
- The partial record that the search-document normalisers return beside an error is left out. Every caller drops it.
- The Romaji field of the five-field index document (common/database/types.go:10) is left out. No converter fills it, so it is always nil (null in the JSON).
- The "emtpy field" message carries the ID as fmt's %v would print it.
- Xref: encoding/json's own error for a value that is not an array is only named, not reproduced word for word.
- Search.SortWords: sort.SliceStable runs insertion sort on blocks of 20 and then merges. The model uses insertion sort throughout and proves the result is the unique sorted arrangement when IDs are distinct (Search.SortedArrangementUnique). For records sharing a present ID the comparator is not a strict order, and no order among them is claimed.
- HTTP handlers, templates, static file serving, environment and config loading, and the tags import are left out.
- The page script that renders the recent-words list and calls addWord on submit (client/static/index.js:26-38) works on the DOM and is left out.
- RecentWords.WordList.GetWords: local storage holds the list itself, not its JSON text, so JSON.parse of malformed stored text is not modelled.

## Where the tests and the code disagree

The model follows the code in each case:

- import/word_test.go:66-78 expects meanings joined with ", " and a record without an ID. The code joins with "; " and copies the ID (`Display.WarmWordDisplay`).
- server/ui_entry_test.go:66-80 expects a main word and a field named Common. The code never assigns the main word (`UiEntry.KanjiWordEntry`, `UiEntry.MeaningsAsWritten`).
- database/entry_test.go:45-59 expects a lone string to decode as a one-element list. database/entry.go coerces it to [], and the test's comparison is commented out (`SearchDoc.LoneStringRevisions`).

## Findings

| source | as written | input that shows it | evidently intended | confidence | as-written member | corrected member |
|---|---|---|---|---|---|---|
| client/static/index.js:13-16 | `words` is declared `const` and then reassigned, so addWord throws a TypeError before anything is stored | any call, e.g. addWord("猫") on an empty list: the list stays [] | the word moved to the front, its older copies removed, the list cut to 8 entries and stored | not executed | RecentWords.WordList.AddWordAsWritten, RecentWords.AsWrittenForgetsTheWord | RecentWords.WordList.AddWord |
