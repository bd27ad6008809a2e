/** One import worker: it turns each dictionary word into a store document
    and an index document, stages both, and flushes the two batches (store
    first, then index) whenever the store batch reaches the batch size,
    then once more for a non-empty remainder. The first error stops it.
    The same machine appears four times (import/import.go,
    database/import.go, processEntries of database/database.go and
    ProcessEntries of dictionaryimporter.go); they differ in what they
    store and index, and in whether the store document is marshalled
    first. The store and the index are logs of what was written; the
    failures of marshalling, staging and writing are oracles. */
module Importer {
  import opened Wrappers
  import opened Jmdict
  import opened Display
  import opened SearchDoc

  /** An index document staged under the word's ID. */
  datatype Staged<D> = Staged(id: string, doc: D)

  /** What distinguishes the four workers. */
  datatype Config<S, D> = Config(
    batchSize: nat,
    marshalStep: bool,
    storeDoc: JMdictWord -> S,
    indexDoc: JMdictWord -> Result<D, EmptyField>)

  /** Which steps fail, with their message: marshalling and staging by the
      position of the word in the input, the store and index writes by the
      number of writes already made. */
  datatype Faults = Faults(
    marshal: nat -> Option<string>,
    stage: nat -> Option<string>,
    storeWrite: nat -> Option<string>,
    indexWrite: nat -> Option<string>)

  datatype ImportError =
    | MarshalError(msg: string)
    | NormaliseError(field: EmptyField)
    | StageError(msg: string)
    | StoreWriteError(msg: string, final: bool)
    | IndexWriteError(msg: string, final: bool)

  /** The text the worker sends on its error channel. */
  function ErrorText(e: ImportError): string {
    match e
    case MarshalError(m) => "error marshalling to BSON: " + m
    case NormaliseError(f) => "emtpy field at " + f.id
    case StageError(m) => "error indexing in Bleve: " + m
    case StoreWriteError(m, final) =>
      (if final then "error writing final batch to MongoDB: " else "error writing to MongoDB: ") + m
    case IndexWriteError(m, final) =>
      (if final then "error writing final batch to Bleve: " else "error writing to Bleve: ") + m
  }

  datatype State<S, D> = State(
    storeBatch: seq<S>,
    indexBatch: seq<Staged<D>>,
    storeWrites: seq<seq<S>>,
    indexCommits: seq<seq<Staged<D>>>,
    error: Option<ImportError>)

  function Init<S, D>(): State<S, D> {
    State([], [], [], [], None)
  }

  /** A flush: the store bulk write, then the index commit, then both
      batches start empty again (the final flush leaves them as they are). */
  function Flushed<S, D>(st: State<S, D>, f: Faults, final: bool): State<S, D> {
    match f.storeWrite(|st.storeWrites|)
    case Some(m) => st.(error := Some(StoreWriteError(m, final)))
    case None =>
      var written := st.(storeWrites := st.storeWrites + [st.storeBatch]);
      match f.indexWrite(|st.indexCommits|)
      case Some(m) => written.(error := Some(IndexWriteError(m, final)))
      case None =>
        var committed := written.(indexCommits := st.indexCommits + [st.indexBatch]);
        if final then committed else committed.(storeBatch := [], indexBatch := [])
  }

  /** One word, the k-th of the input. */
  function Step<S, D>(c: Config<S, D>, f: Faults, st: State<S, D>, k: nat, e: JMdictWord): State<S, D> {
    if st.error.Some? then st
    else if c.marshalStep && f.marshal(k).Some? then st.(error := Some(MarshalError(f.marshal(k).value)))
    else
      var stored := st.(storeBatch := st.storeBatch + [c.storeDoc(e)]);
      match c.indexDoc(e)
      case Err(x) => stored.(error := Some(NormaliseError(x)))
      case Ok(d) =>
        if f.stage(k).Some? then stored.(error := Some(StageError(f.stage(k).value)))
        else
          var staged := stored.(indexBatch := stored.indexBatch + [Staged(e.id, d)]);
          if |staged.storeBatch| >= c.batchSize then Flushed(staged, f, false) else staged
  }

  /** The state after the loop has consumed the words. */
  function Consumed<S, D>(c: Config<S, D>, f: Faults, entries: seq<JMdictWord>): State<S, D> {
    if entries == [] then Init()
    else
      var n := |entries| - 1;
      Step(c, f, Consumed(c, f, entries[..n]), n, entries[n])
  }

  /** After the loop: a non-empty remainder is flushed. */
  function Finished<S, D>(st: State<S, D>, f: Faults): State<S, D> {
    if st.error.None? && |st.storeBatch| > 0 then Flushed(st, f, true) else st
  }

  function Imported<S, D>(c: Config<S, D>, f: Faults, entries: seq<JMdictWord>): State<S, D> {
    Finished(Consumed(c, f, entries), f)
  }

  // ---------------------------------------------------------------------
  // The four workers.
  // ---------------------------------------------------------------------

  function IndexedDocument(e: JMdictWord): Result<WordSearchable, EmptyField> {
    SearchDocument(e)
  }

  function IndexedEntry(e: JMdictWord): Result<SearchableEntry, EmptyField> {
    SearchableDocument(e)
  }

  function RawEntry(e: JMdictWord): JMdictWord {
    e
  }

  /** bulkImportJmdictEntries of import/import.go: the display record,
      marshalled, and the five-field document, in batches of 1000. */
  function WordImport(): Config<Word, WordSearchable> {
    Config(1000, true, DisplayOf, IndexedDocument)
  }

  /** bulkImportJmdictEntries of database/import.go: the raw word,
      marshalled, and the five-field document. */
  function RawWordImport(batchSize: nat): Config<JMdictWord, WordSearchable> {
    Config(batchSize, true, RawEntry, IndexedDocument)
  }

  /** processEntries of database/database.go: the raw word, marshalled,
      and the three-field document. */
  function RawEntryImport(batchSize: nat): Config<JMdictWord, SearchableEntry> {
    Config(batchSize, true, RawEntry, IndexedEntry)
  }

  /** ProcessEntries of dictionaryimporter.go: the raw word as is, and the
      three-field document. */
  function DictionaryImport(batchSize: nat): Config<JMdictWord, SearchableEntry> {
    Config(batchSize, false, RawEntry, IndexedEntry)
  }

  // ---------------------------------------------------------------------
  // The worker, as the loop it is.
  // ---------------------------------------------------------------------

  class Worker<S, D> {
    const config: Config<S, D>
    const faults: Faults
    var storeBatch: seq<S>
    var indexBatch: seq<Staged<D>>
    var storeWrites: seq<seq<S>>
    var indexCommits: seq<seq<Staged<D>>>
    var error: Option<ImportError>

    function Value(): State<S, D>
      reads this
    {
      State(storeBatch, indexBatch, storeWrites, indexCommits, error)
    }

    constructor(config: Config<S, D>, faults: Faults)
      ensures this.config == config && this.faults == faults
      ensures Value() == Init()
    {
      this.config := config;
      this.faults := faults;
      storeBatch := [];
      indexBatch := [];
      storeWrites := [];
      indexCommits := [];
      error := None;
    }

    method Flush(final: bool)
      modifies this
      ensures Value() == Flushed(old(Value()), faults, final)
    {
      var m := faults.storeWrite(|storeWrites|);
      if m.Some? {
        error := Some(StoreWriteError(m.value, final));
        return;
      }
      storeWrites := storeWrites + [storeBatch];
      m := faults.indexWrite(|indexCommits|);
      if m.Some? {
        error := Some(IndexWriteError(m.value, final));
        return;
      }
      indexCommits := indexCommits + [indexBatch];
      if !final {
        storeBatch := [];
        indexBatch := [];
      }
    }

    /** The body of the loop for the k-th word. */
    method Consume(k: nat, e: JMdictWord)
      requires error.None?
      modifies this
      ensures Value() == Step(config, faults, old(Value()), k, e)
    {
      if config.marshalStep && faults.marshal(k).Some? {
        error := Some(MarshalError(faults.marshal(k).value));
        return;
      }
      storeBatch := storeBatch + [config.storeDoc(e)];
      var doc := config.indexDoc(e);
      if doc.Err? {
        error := Some(NormaliseError(doc.error));
        return;
      }
      if faults.stage(k).Some? {
        error := Some(StageError(faults.stage(k).value));
        return;
      }
      indexBatch := indexBatch + [Staged(e.id, doc.value)];
      if |storeBatch| >= config.batchSize {
        Flush(false);
      }
    }

    /** The worker: every word in turn, returning at the first error, then
        the remainder. */
    method Run(entries: seq<JMdictWord>)
      requires Value() == Init()
      modifies this
      ensures Value() == Imported(config, faults, entries)
    {
      for k := 0 to |entries|
        invariant Value() == Consumed(config, faults, entries[..k])
        invariant error.None?
      {
        assert entries[..k + 1][..k] == entries[..k];
        Consume(k, entries[k]);
        if error.Some? {
          ErrorStops(config, faults, entries, k + 1);
          return;
        }
      }
      assert entries[..|entries|] == entries;
      if |storeBatch| > 0 {
        Flush(true);
      }
    }
  }

  // ---------------------------------------------------------------------
  // What the worker guarantees.
  // ---------------------------------------------------------------------

  function Concat<T>(xss: seq<seq<T>>): seq<T> {
    if xss == [] then [] else Concat(xss[..|xss| - 1]) + xss[|xss| - 1]
  }

  lemma ConcatSnoc<T>(xss: seq<seq<T>>, xs: seq<T>)
    ensures Concat(xss + [xs]) == Concat(xss) + xs
  {
    assert (xss + [xs])[..|xss|] == xss;
  }

  lemma {:induction false} ConcatLength<T>(xss: seq<seq<T>>, b: nat)
    requires forall i :: 0 <= i < |xss| ==> |xss[i]| == b
    ensures |Concat(xss)| == b * |xss|
  {
    if xss != [] {
      var n := |xss| - 1;
      assert forall i :: 0 <= i < n ==> xss[..n][i] == xss[i];
      ConcatLength(xss[..n], b);
      assert |xss[n]| == b;
      assert b * n + b == b * |xss|;
    }
  }

  /** The store documents of the words, in order. */
  function StoreDocs<S, D>(c: Config<S, D>, entries: seq<JMdictWord>): (r: seq<S>)
    ensures |r| == |entries|
    ensures forall i :: 0 <= i < |entries| ==> r[i] == c.storeDoc(entries[i])
  {
    seq(|entries|, i requires 0 <= i < |entries| => c.storeDoc(entries[i]))
  }

  /** The index documents of the words that normalise, in order. */
  function IndexDocs<S, D>(c: Config<S, D>, entries: seq<JMdictWord>): seq<Staged<D>> {
    if entries == [] then []
    else
      var e := entries[|entries| - 1];
      IndexDocs(c, entries[..|entries| - 1])
      + (match c.indexDoc(e) case Ok(d) => [Staged(e.id, d)] case Err(_) => [])
  }

  /** The shape of an error-free worker once a word is staged: what was
      written followed by what is pending is every word so far, the two
      logs and the two batches keep step, and no batch exceeds the size. */
  ghost predicate Staging<S, D>(c: Config<S, D>, entries: seq<JMdictWord>, st: State<S, D>) {
    && st.error.None?
    && (forall i :: 0 <= i < |entries| ==> c.indexDoc(entries[i]).Ok?)
    && Concat(st.storeWrites) + st.storeBatch == StoreDocs(c, entries)
    && Concat(st.indexCommits) + st.indexBatch == IndexDocs(c, entries)
    && |st.storeWrites| == |st.indexCommits|
    && |st.storeBatch| == |st.indexBatch|
    && (forall i :: 0 <= i < |st.storeWrites| ==> |st.storeWrites[i]| == |st.indexCommits[i]|)
    && (c.batchSize >= 1 ==> |st.storeBatch| <= c.batchSize)
    && (c.batchSize >= 1 ==> forall i :: 0 <= i < |st.storeWrites| ==> |st.storeWrites[i]| == c.batchSize)
  }

  /** The shape between words: as above, with the pending batch below the
      size. */
  ghost predicate Running<S, D>(c: Config<S, D>, entries: seq<JMdictWord>, st: State<S, D>) {
    Staging(c, entries, st) && (c.batchSize >= 1 ==> |st.storeBatch| < c.batchSize)
  }

  lemma StoreDocsSnoc<S, D>(c: Config<S, D>, entries: seq<JMdictWord>)
    requires entries != []
    ensures StoreDocs(c, entries) == StoreDocs(c, entries[..|entries| - 1]) + [c.storeDoc(entries[|entries| - 1])]
  {
  }

  lemma StageKeepsShape<S, D>(c: Config<S, D>, entries: seq<JMdictWord>, st: State<S, D>, d: D)
    requires entries != []
    requires Running(c, entries[..|entries| - 1], st)
    requires c.indexDoc(entries[|entries| - 1]) == Ok(d)
    ensures var e := entries[|entries| - 1];
      Staging(c, entries, st.(storeBatch := st.storeBatch + [c.storeDoc(e)],
                              indexBatch := st.indexBatch + [Staged(e.id, d)]))
  {
    var n := |entries| - 1;
    var e := entries[n];
    StoreDocsSnoc(c, entries);
    assert IndexDocs(c, entries) == IndexDocs(c, entries[..n]) + [Staged(e.id, d)];
    assert forall i :: 0 <= i < n ==> entries[..n][i] == entries[i];
  }

  lemma FlushKeepsShape<S, D>(c: Config<S, D>, f: Faults, entries: seq<JMdictWord>, st: State<S, D>)
    requires Staging(c, entries, st)
    requires |st.storeBatch| >= c.batchSize
    requires Flushed(st, f, false).error.None?
    ensures Running(c, entries, Flushed(st, f, false))
  {
    ConcatSnoc(st.storeWrites, st.storeBatch);
    ConcatSnoc(st.indexCommits, st.indexBatch);
    var next := Flushed(st, f, false);
    assert next.storeWrites == st.storeWrites + [st.storeBatch];
    assert next.indexCommits == st.indexCommits + [st.indexBatch];
    assert next.storeBatch == [] && next.indexBatch == [];
  }

  /** One error-free word keeps the shape. */
  lemma StepKeepsRunning<S, D>(c: Config<S, D>, f: Faults, entries: seq<JMdictWord>)
    requires entries != []
    requires Running(c, entries[..|entries| - 1], Consumed(c, f, entries[..|entries| - 1]))
    requires Consumed(c, f, entries).error.None?
    ensures Running(c, entries, Consumed(c, f, entries))
  {
    var n := |entries| - 1;
    var st := Consumed(c, f, entries[..n]);
    var e := entries[n];
    var d := c.indexDoc(e).value;
    var staged := st.(storeBatch := st.storeBatch + [c.storeDoc(e)], indexBatch := st.indexBatch + [Staged(e.id, d)]);
    StageKeepsShape(c, entries, st, d);
    assert Consumed(c, f, entries) == if |staged.storeBatch| >= c.batchSize then Flushed(staged, f, false) else staged;
    if |staged.storeBatch| >= c.batchSize {
      FlushKeepsShape(c, f, entries, staged);
    }
  }

  lemma {:induction false} ConsumedRunning<S, D>(c: Config<S, D>, f: Faults, entries: seq<JMdictWord>)
    requires Consumed(c, f, entries).error.None?
    ensures Running(c, entries, Consumed(c, f, entries))
  {
    if entries != [] {
      var n := |entries| - 1;
      ConsumedRunning(c, f, entries[..n]);
      StepKeepsRunning(c, f, entries);
    }
  }

  /** On success every word is written exactly once, in input order: the
      store writes concatenate to the store documents of all words and the
      index commits to their index documents; every word normalised; each
      flush wrote a store batch and an index batch of the same words. */
  lemma ImportWritesEverything<S, D>(c: Config<S, D>, f: Faults, entries: seq<JMdictWord>)
    requires Imported(c, f, entries).error.None?
    ensures var st := Imported(c, f, entries);
      && Concat(st.storeWrites) == StoreDocs(c, entries)
      && Concat(st.indexCommits) == IndexDocs(c, entries)
      && (forall i :: 0 <= i < |entries| ==> c.indexDoc(entries[i]).Ok?)
      && |st.storeWrites| == |st.indexCommits|
      && (forall i :: 0 <= i < |st.storeWrites| ==> |st.storeWrites[i]| == |st.indexCommits[i]|)
  {
    var st := Consumed(c, f, entries);
    ConsumedRunning(c, f, entries);
    if |st.storeBatch| > 0 {
      ConcatSnoc(st.storeWrites, st.storeBatch);
      ConcatSnoc(st.indexCommits, st.indexBatch);
    }
  }

  lemma MulAtLeast(b: nat, x: int)
    requires x >= 1
    ensures b * x >= b
  {
  }

  lemma DivisionUnique(n: nat, b: nat, w: nat, p: nat)
    requires b >= 1 && n == b * w + p && p < b
    ensures w == n / b && p == n % b
  {
    var q, r := n / b, n % b;
    assert n == b * q + r;
    if w > q {
      MulAtLeast(b, w - q);
    } else if w < q {
      MulAtLeast(b, q - w);
    }
  }

  /** On success with a batch size of at least one, every flush but the
      last is exactly one batch, the last holds the remainder, and there
      are ceil(n / batchSize) flushes of each kind: none for no words. */
  lemma ImportBatchSizes<S, D>(c: Config<S, D>, f: Faults, entries: seq<JMdictWord>)
    requires c.batchSize >= 1
    requires Imported(c, f, entries).error.None?
    ensures var st := Imported(c, f, entries);
      var b, n := c.batchSize, |entries|;
      && |st.storeWrites| == |st.indexCommits| == n / b + (if n % b > 0 then 1 else 0)
      && (forall i :: 0 <= i < n / b ==> |st.storeWrites[i]| == b)
      && (n % b > 0 ==> |st.storeWrites[n / b]| == n % b)
  {
    var st := Consumed(c, f, entries);
    ConsumedRunning(c, f, entries);
    ConcatLength(st.storeWrites, c.batchSize);
    assert |entries| == c.batchSize * |st.storeWrites| + |st.storeBatch| by {
      assert |StoreDocs(c, entries)| == |entries|;
    }
    DivisionUnique(|entries|, c.batchSize, |st.storeWrites|, |st.storeBatch|);
    ImportWritesEverything(c, f, entries);
  }

  /** Between words the pending batch stays below the batch size. */
  lemma PendingBelowBatchSize<S, D>(c: Config<S, D>, f: Faults, entries: seq<JMdictWord>)
    requires c.batchSize >= 1
    requires Consumed(c, f, entries).error.None?
    ensures |Consumed(c, f, entries).storeBatch| < c.batchSize
    ensures |Consumed(c, f, entries).indexBatch| < c.batchSize
  {
    ConsumedRunning(c, f, entries);
  }

  /** Once an error is raised nothing else happens: later words are not
      consumed and the pending batch is not written. */
  lemma {:induction false} ErrorStops<S, D>(c: Config<S, D>, f: Faults, entries: seq<JMdictWord>, k: nat)
    requires k <= |entries|
    requires Consumed(c, f, entries[..k]).error.Some?
    ensures Consumed(c, f, entries) == Consumed(c, f, entries[..k])
    ensures Imported(c, f, entries) == Consumed(c, f, entries[..k])
    decreases |entries| - k
  {
    if k == |entries| {
      assert entries[..k] == entries;
    } else {
      assert entries[..k + 1][..k] == entries[..k];
      ErrorStops(c, f, entries, k + 1);
    }
  }

  /** Store writes lead index commits by exactly the flush whose index
      commit failed; when a store write fails, its index batch is not
      committed. */
  predicate Trailing<S, D>(st: State<S, D>) {
    if st.error.Some? && st.error.value.IndexWriteError? then |st.storeWrites| == |st.indexCommits| + 1
    else |st.storeWrites| == |st.indexCommits|
  }

  lemma {:induction false} ConsumedTrailing<S, D>(c: Config<S, D>, f: Faults, entries: seq<JMdictWord>)
    ensures Trailing(Consumed(c, f, entries))
  {
    if entries != [] {
      ConsumedTrailing(c, f, entries[..|entries| - 1]);
    }
  }

  lemma WritesPaired<S, D>(c: Config<S, D>, f: Faults, entries: seq<JMdictWord>)
    ensures var st := Imported(c, f, entries);
      && |st.indexCommits| <= |st.storeWrites| <= |st.indexCommits| + 1
      && (st.error.Some? && st.error.value.StoreWriteError? ==> |st.storeWrites| == |st.indexCommits|)
      && (st.error.Some? && st.error.value.IndexWriteError? ==> |st.storeWrites| == |st.indexCommits| + 1)
  {
    ConsumedTrailing(c, f, entries);
  }

  /** No words, no writes. */
  lemma NothingToImport<S, D>(c: Config<S, D>, f: Faults)
    ensures Imported(c, f, []) == Init()
  {
  }

  /** A word that fails to normalise stops the worker with its ID, and the
      index never sees it. */
  lemma NormaliseFailureStops<S, D>(c: Config<S, D>, f: Faults, entries: seq<JMdictWord>, k: nat)
    requires k < |entries|
    requires Consumed(c, f, entries[..k]).error.None?
    requires !(c.marshalStep && f.marshal(k).Some?)
    requires c.indexDoc(entries[k]).Err?
    ensures Imported(c, f, entries).error == Some(NormaliseError(c.indexDoc(entries[k]).error))
    ensures ErrorText(Imported(c, f, entries).error.value) == "emtpy field at " + c.indexDoc(entries[k]).error.id
  {
    assert entries[..k + 1][..k] == entries[..k];
    ErrorStops(c, f, entries, k + 1);
  }
}
