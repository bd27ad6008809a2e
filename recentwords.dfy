/** The recent-words list of the web client (class WordList of
    client/static/index.js): a most-recently-used list of searched words,
    at most eight long, kept in the browser's local storage under one key. */
module RecentWords {
  import opened Wrappers

  const DefaultKey: string := "recentWords"
  const MaxItems: nat := 8

  /** The TypeError a browser raises on `words = ...` when `words` is const. */
  const ConstAssignment: string := "TypeError: Assignment to constant variable."

  /** `words.filter(w => w !== word)`: every occurrence of `word` dropped. */
  function Remove(words: seq<string>, word: string): (r: seq<string>)
    ensures word !in r
    ensures |r| <= |words|
    ensures forall x :: x in r ==> x in words
  {
    if |words| == 0 then []
    else Remove(words[..|words| - 1], word)
         + (if words[|words| - 1] == word then [] else [words[|words| - 1]])
  }

  /** The list after `word` is searched: `word` in front, its earlier
      occurrences removed, cut to `max` entries. */
  function MostRecentFirst(words: seq<string>, word: string, max: nat): (r: seq<string>)
    ensures |r| <= max
    ensures |r| <= |words| + 1
  {
    var front := [word] + Remove(words, word);
    if |front| <= max then front else front[..max]
  }

  /** The page's local storage: the strings kept under each key. */
  class LocalStorage {
    var items: map<string, seq<string>>

    constructor(items: map<string, seq<string>>)
      ensures this.items == items
    {
      this.items := items;
    }
  }

  class WordList {
    const storageKey: string
    const maxItems: nat
    const storage: LocalStorage

    /** `new WordList()` stores under DefaultKey; another key may be given. */
    constructor(storage: LocalStorage, storageKey: string := DefaultKey)
      ensures this.storage == storage && this.storageKey == storageKey
      ensures maxItems == MaxItems
    {
      this.storage := storage;
      this.storageKey := storageKey;
      maxItems := MaxItems;
    }

    /** The stored list, or the empty list when the key holds nothing. */
    function GetWords(): (r: seq<string>)
      reads this, storage
      ensures storageKey !in storage.items ==> r == []
      ensures storageKey in storage.items ==> r == storage.items[storageKey]
    {
      if storageKey in storage.items then storage.items[storageKey] else []
    }

    /** addWord as its comments describe it: remove, put in front, limit,
        store under the key and return the new list; no other key changes. */
    method AddWord(word: string) returns (words: seq<string>)
      modifies storage
      ensures words == MostRecentFirst(old(GetWords()), word, maxItems)
      ensures storage.items == old(storage.items)[storageKey := words]
      ensures GetWords() == words
    {
      words := GetWords();
      words := Remove(words, word);
      words := [word] + words;
      if |words| > maxItems {
        words := words[..maxItems];
      }
      storage.items := storage.items[storageKey := words];
    }

    /** addWord as written: `words` is declared const, so its reassignment
        throws before anything is stored. */
    method AddWordAsWritten(word: string) returns (r: Result<seq<string>, string>)
      ensures r == Err(ConstAssignment)
    {
      var words := GetWords();
      r := Err(ConstAssignment);
    }

    /** clearWords: the key is removed and the list reads back empty. */
    method ClearWords()
      modifies storage
      ensures storage.items == old(storage.items) - {storageKey}
      ensures GetWords() == []
    {
      storage.items := storage.items - {storageKey};
    }
  }

  // ---------------------------------------------------------------------
  // The filter.
  // ---------------------------------------------------------------------

  /** Filtering a concatenation filters each part: the words that stay keep
      their relative order. */
  lemma {:induction false} RemoveAppend(a: seq<string>, b: seq<string>, word: string)
    ensures Remove(a + b, word) == Remove(a, word) + Remove(b, word)
    decreases |b|
  {
    if |b| == 0 {
      assert a + b == a;
    } else {
      var b' := b[..|b| - 1];
      assert (a + b)[..|a + b| - 1] == a + b';
      assert (a + b)[|a + b| - 1] == b[|b| - 1];
      RemoveAppend(a, b', word);
    }
  }

  /** A list without the word passes through the filter unchanged. */
  lemma {:induction false} RemoveAbsent(words: seq<string>, word: string)
    requires word !in words
    ensures Remove(words, word) == words
  {
    if |words| > 0 {
      RemoveAbsent(words[..|words| - 1], word);
    }
  }

  /** The filter drops every copy of the word and no copy of anything else. */
  lemma {:induction false} RemoveCounts(words: seq<string>, word: string, x: string)
    ensures multiset(Remove(words, word))[x] == if x == word then 0 else multiset(words)[x]
  {
    if |words| > 0 {
      var init := words[..|words| - 1];
      RemoveCounts(init, word, x);
      assert words == init + [words[|words| - 1]];
    }
  }

  // ---------------------------------------------------------------------
  // The most-recently-used list.
  // ---------------------------------------------------------------------

  /** The word just searched is first and appears exactly once. */
  lemma AddedWordFirstAndOnce(words: seq<string>, word: string, max: nat)
    requires max > 0
    ensures var r := MostRecentFirst(words, word, max);
      |r| > 0 && r[0] == word && word !in r[1..] && multiset(r)[word] == 1
  {
    var rest := Remove(words, word);
    var r := MostRecentFirst(words, word, max);
    assert r[1..] == rest[..|r| - 1];
    assert word !in r[1..];
    assert r == [word] + r[1..];
    assert multiset(r) == multiset{word} + multiset(r[1..]);
  }

  /** Behind it come the other words in their previous order, the oldest
      falling off the end once the list is full. */
  lemma OthersKeepOrder(words: seq<string>, word: string, max: nat)
    requires max > 0
    ensures var r := MostRecentFirst(words, word, max);
      r[1..] == Remove(words, word)[..|r| - 1]
    ensures |Remove(words, word)| < max ==>
      MostRecentFirst(words, word, max) == [word] + Remove(words, word)
    ensures |Remove(words, word)| >= max ==> |MostRecentFirst(words, word, max)| == max
  {
  }

  /** Searching the word most recently searched leaves the list as it is. */
  lemma SearchAgainIsIdle(words: seq<string>, word: string, max: nat)
    requires max > 0
    ensures var r := MostRecentFirst(words, word, max);
      MostRecentFirst(r, word, max) == r
  {
    var r := MostRecentFirst(words, word, max);
    var rest := r[1..];
    AddedWordFirstAndOnce(words, word, max);
    assert r == [word] + rest;
    RemoveAppend([word], rest, word);
    RemoveAbsent(rest, word);
    assert Remove([word], word) == [] by {
      assert [word][..0] == [];
    }
    assert Remove(r, word) == rest;
    assert [word] + Remove(r, word) == r;
  }

  /** A list of distinct words stays a list of distinct words. */
  predicate Distinct(words: seq<string>) {
    forall i, j :: 0 <= i < j < |words| ==> words[i] != words[j]
  }

  lemma {:induction false} RemoveKeepsDistinct(words: seq<string>, word: string)
    requires Distinct(words)
    ensures Distinct(Remove(words, word))
  {
    if |words| > 0 {
      var init := words[..|words| - 1];
      var last := words[|words| - 1];
      RemoveKeepsDistinct(init, word);
      assert last !in init;
    }
  }

  lemma StaysDistinct(words: seq<string>, word: string, max: nat)
    requires Distinct(words)
    ensures Distinct(MostRecentFirst(words, word, max))
  {
    RemoveKeepsDistinct(words, word);
    var front := [word] + Remove(words, word);
    assert Distinct(front);
  }

  /** As written, no call stores anything, so a word not yet in the list is
      still missing after it is searched, while the intended list holds it. */
  lemma AsWrittenForgetsTheWord(words: seq<string>, word: string, max: nat)
    requires max > 0 && word !in words
    ensures MostRecentFirst(words, word, max) != words
    ensures MostRecentFirst(words, word, max)[0] == word
  {
    AddedWordFirstAndOnce(words, word, max);
  }
}
