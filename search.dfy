/** The search flows: ask the index for hit IDs, fetch the records from
    the store, and put them back into hit order. The index and the store
    are oracles: functions from the request to what they answer. */
module Search {
  import opened Wrappers
  import opened Json
  import opened Jmdict
  import opened SearchDoc
  import opened Script
  import opened Query

  /** A search hit: its stored fields, and whether json.Marshal accepts
      them (the values that make it refuse are not modelled). */
  datatype Hit = Hit(fields: Json, marshals: bool)

  /** The ID a hit contributes: the decoded "id" of a fresh receiver ("" when
      the hit has none), or nothing when the hit fails to marshal or to
      decode. */
  function HitId(h: Hit): Option<string> {
    if h.marshals && Decodable(h.fields) then Some(DecodedId(h.fields, "")) else None
  }

  /** The IDs of the hits that decode, in hit order. */
  function HitIds(hits: seq<Hit>): (ids: seq<string>)
    ensures |ids| <= |hits|
  {
    if hits == [] then []
    else
      var last := hits[|hits| - 1];
      HitIds(hits[..|hits| - 1]) + (if HitId(last).Some? then [HitId(last).value] else [])
  }

  lemma HitIdsStep(hits: seq<Hit>, i: nat)
    requires i < |hits|
    ensures HitIds(hits[..i + 1])
         == HitIds(hits[..i]) + (if HitId(hits[i]).Some? then [HitId(hits[i]).value] else [])
  {
    assert hits[..i + 1][..i] == hits[..i];
  }

  /** extractBleveResult (and the hit loop of runBleveQuery): decode each
      hit, skip the ones that fail, append the ID of the others. */
  method ExtractBleveResult(hits: seq<Hit>) returns (ids: seq<string>)
    ensures ids == HitIds(hits)
  {
    ids := [];
    for i := 0 to |hits|
      invariant ids == HitIds(hits[..i])
    {
      HitIdsStep(hits, i);
      var h := hits[i];
      if !h.marshals {
        continue;
      }
      if !Decodable(h.fields) {
        continue;
      }
      ids := ids + [DecodedId(h.fields, "")];
    }
    assert hits[..|hits|] == hits;
  }

  /** Extraction keeps hit order: the IDs of two runs of hits are the IDs of
      the first followed by those of the second. */
  lemma {:induction false} HitIdsAppend(a: seq<Hit>, b: seq<Hit>)
    ensures HitIds(a + b) == HitIds(a) + HitIds(b)
    decreases |b|
  {
    if b == [] {
      assert a + b == a;
    } else {
      var n := |b| - 1;
      HitIdsAppend(a, b[..n]);
      assert (a + b)[..|a + b| - 1] == a + b[..n];
      assert (a + b)[|a + b| - 1] == b[n];
    }
  }

  /** When every hit decodes, there is one ID per hit, at the same index. */
  lemma {:induction false} HitIdsAllDecode(hits: seq<Hit>)
    requires forall i :: 0 <= i < |hits| ==> HitId(hits[i]).Some?
    ensures |HitIds(hits)| == |hits|
    ensures forall i :: 0 <= i < |hits| ==> HitIds(hits)[i] == HitId(hits[i]).value
  {
    if hits != [] {
      var n := |hits| - 1;
      HitIdsAllDecode(hits[..n]);
    }
  }

  // ---------------------------------------------------------------------
  // sortWords: the comparator and the stable re-sort.
  // ---------------------------------------------------------------------

  /** The first position of an ID in the target order; |target| when the
      ID is absent. */
  function Rank(id: string, target: seq<string>): (r: nat)
    ensures r <= |target|
    ensures r < |target| ==> target[r] == id
    ensures forall k :: 0 <= k < r ==> target[k] != id
    ensures r == |target| <==> id !in target
  {
    if target == [] then 0
    else if target[0] == id then 0
    else 1 + Rank(id, target[1..])
  }

  /** The comparator handed to sort.SliceStable, as written: walk the
      target and answer at the first ID that is either record's. */
  function Less(a: string, b: string, target: seq<string>): (r: bool)
    ensures r ==> a in target
    ensures a in target && b !in target ==> r
  {
    if target == [] then false
    else if a == target[0] then true
    else if b == target[0] then false
    else Less(a, b, target[1..])
  }

  /** The comparator says "a first" exactly when a is in the target no later
      than b. */
  lemma {:induction false} LessIsRankOrder(a: string, b: string, target: seq<string>)
    ensures Less(a, b, target) <==> Rank(a, target) < |target| && Rank(a, target) <= Rank(b, target)
  {
    if target != [] && a != target[0] && b != target[0] {
      LessIsRankOrder(a, b, target[1..]);
    }
  }

  /** For two different IDs it is the strict order of first positions; for
      one present ID compared with itself it answers true, so it is not a
      strict order on equal IDs. */
  lemma LessOnIds(a: string, b: string, target: seq<string>)
    ensures a != b ==> (Less(a, b, target) <==> Rank(a, target) < Rank(b, target))
    ensures Less(a, a, target) <==> a in target
  {
    LessIsRankOrder(a, b, target);
    LessIsRankOrder(a, a, target);
  }

  function Key<T>(x: T, idOf: T -> string, target: seq<string>): nat {
    Rank(idOf(x), target)
  }

  predicate SortedByRank<T>(s: seq<T>, idOf: T -> string, target: seq<string>) {
    forall p, q :: 0 <= p < q < |s| ==> Key(s[p], idOf, target) <= Key(s[q], idOf, target)
  }

  /** The records whose ID is not in the target, in order. */
  function Absent<T>(s: seq<T>, idOf: T -> string, target: seq<string>): seq<T> {
    if s == [] then []
    else
      var last := s[|s| - 1];
      Absent(s[..|s| - 1], idOf, target) + (if idOf(last) in target then [] else [last])
  }

  lemma {:induction false} AbsentAppend<T>(a: seq<T>, b: seq<T>, idOf: T -> string, target: seq<string>)
    ensures Absent(a + b, idOf, target) == Absent(a, idOf, target) + Absent(b, idOf, target)
    decreases |b|
  {
    if b == [] {
      assert a + b == a;
    } else {
      var n := |b| - 1;
      AbsentAppend(a, b[..n], idOf, target);
      assert (a + b)[..|a + b| - 1] == a + b[..n];
      assert (a + b)[|a + b| - 1] == b[n];
    }
  }

  /** Two neighbours of which one is present have the same absent part in
      either order. */
  lemma AbsentPair<T>(x: T, y: T, idOf: T -> string, target: seq<string>)
    requires idOf(x) in target || idOf(y) in target
    ensures Absent([x, y], idOf, target) == Absent([y, x], idOf, target)
  {
    assert [x, y][..1] == [x];
    assert [y, x][..1] == [y];
    assert [x][..0] == [] && [y][..0] == [];
  }

  /** Swapping two neighbours that are not both absent leaves the absent
      records in their order. */
  lemma SwapKeepsAbsent<T>(s: seq<T>, j: nat, idOf: T -> string, target: seq<string>)
    requires 0 < j < |s|
    requires idOf(s[j - 1]) in target || idOf(s[j]) in target
    ensures Absent(s[..j - 1] + [s[j], s[j - 1]] + s[j + 1..], idOf, target) == Absent(s, idOf, target)
  {
    var pre, post := s[..j - 1], s[j + 1..];
    var ab, ba := [s[j - 1], s[j]], [s[j], s[j - 1]];
    assert s == pre + ab + post;
    AbsentAppend(pre + ab, post, idOf, target);
    AbsentAppend(pre, ab, idOf, target);
    AbsentAppend(pre + ba, post, idOf, target);
    AbsentAppend(pre, ba, idOf, target);
    AbsentPair(s[j - 1], s[j], idOf, target);
  }

  /** What the re-sort promises: a permutation of the store's records,
      ordered by first position in the target, with the records whose ID
      is absent in their original order. */
  predicate SortedArrangement<T(==)>(r: seq<T>, records: seq<T>, idOf: T -> string, target: seq<string>) {
    && multiset(r) == multiset(records)
    && SortedByRank(r, idOf, target)
    && Absent(r, idOf, target) == Absent(records, idOf, target)
  }

  /** sortWords. sort.SliceStable runs insertion sort by neighbour swaps
      on blocks of 20 records, and the store returns at most 20 (one per
      hit), so this is the algorithm that runs, with the comparator as
      written. */
  method SortWords<T(==)>(results: array<T>, idOf: T -> string, target: seq<string>)
    modifies results
    ensures SortedArrangement(results[..], old(results[..]), idOf, target)
  {
    for i := 0 to results.Length
      invariant multiset(results[..]) == multiset(old(results[..]))
      invariant Absent(results[..], idOf, target) == Absent(old(results[..]), idOf, target)
      invariant SortedByRank(results[..i], idOf, target)
    {
      InsertAt(results, i, idOf, target);
    }
    assert results[..results.Length] == results[..];
  }

  /** The state in the middle of one insertion: the first i + 1 records
      are in order except the one at j, which is no later than every record
      to its right. */
  predicate Inserting<T>(s: seq<T>, i: nat, j: nat, idOf: T -> string, target: seq<string>)
    requires j <= i < |s|
  {
    && (forall p, q :: 0 <= p < q <= i && p != j && q != j ==> Key(s[p], idOf, target) <= Key(s[q], idOf, target))
    && (forall q :: j < q <= i ==> Key(s[j], idOf, target) <= Key(s[q], idOf, target))
  }

  lemma InsertingStart<T>(s: seq<T>, i: nat, idOf: T -> string, target: seq<string>)
    requires i < |s| && SortedByRank(s[..i], idOf, target)
    ensures Inserting(s, i, i, idOf, target)
  {
    forall p, q | 0 <= p < q <= i && p != i && q != i
      ensures Key(s[p], idOf, target) <= Key(s[q], idOf, target)
    {
      assert s[p] == s[..i][p] && s[q] == s[..i][q];
    }
  }

  function Swapped<T>(s: seq<T>, j: nat): seq<T>
    requires 0 < j < |s|
  {
    s[..j - 1] + [s[j], s[j - 1]] + s[j + 1..]
  }

  /** A swap past a neighbour the record does not exceed keeps the shape. */
  lemma InsertingStep<T>(s: seq<T>, i: nat, j: nat, idOf: T -> string, target: seq<string>)
    requires 0 < j <= i < |s| && Inserting(s, i, j, idOf, target)
    requires Key(s[j], idOf, target) <= Key(s[j - 1], idOf, target)
    ensures |Swapped(s, j)| == |s| && Inserting(Swapped(s, j), i, j - 1, idOf, target)
  {
    var t := Swapped(s, j);
    assert forall k :: 0 <= k < |s| && k != j - 1 && k != j ==> t[k] == s[k];
    assert t[j - 1] == s[j] && t[j] == s[j - 1];
  }

  lemma InsertingDone<T>(s: seq<T>, i: nat, j: nat, idOf: T -> string, target: seq<string>)
    requires j <= i < |s| && Inserting(s, i, j, idOf, target)
    requires j > 0 ==> Key(s[j - 1], idOf, target) <= Key(s[j], idOf, target)
    ensures SortedByRank(s[..i + 1], idOf, target)
  {
    forall p, q | 0 <= p < q <= i
      ensures Key(s[p], idOf, target) <= Key(s[q], idOf, target)
    {
      if p == j || q == j {
      } else if q > j && p < j {
        assert Key(s[p], idOf, target) <= Key(s[j - 1], idOf, target);
      }
    }
  }

  lemma SwapPermutes<T>(s: seq<T>, j: nat)
    requires 0 < j < |s|
    ensures multiset(Swapped(s, j)) == multiset(s)
  {
    assert s == s[..j - 1] + [s[j - 1], s[j]] + s[j + 1..];
  }

  /** Everything a swap keeps, on the sequence of records. */
  lemma SwapStep<T>(s: seq<T>, i: nat, j: nat, idOf: T -> string, target: seq<string>)
    requires 0 < j <= i < |s| && Inserting(s, i, j, idOf, target)
    requires Less(idOf(s[j]), idOf(s[j - 1]), target)
    ensures |Swapped(s, j)| == |s|
    ensures multiset(Swapped(s, j)) == multiset(s)
    ensures Absent(Swapped(s, j), idOf, target) == Absent(s, idOf, target)
    ensures Inserting(Swapped(s, j), i, j - 1, idOf, target)
  {
    LessIsRankOrder(idOf(s[j]), idOf(s[j - 1]), target);
    SwapKeepsAbsent(s, j, idOf, target);
    SwapPermutes(s, j);
    InsertingStep(s, i, j, idOf, target);
  }

  method SwapBack<T>(results: array<T>, j: nat)
    requires 0 < j < results.Length
    modifies results
    ensures results[..] == Swapped(old(results[..]), j)
  {
    results[j - 1], results[j] := results[j], results[j - 1];
  }

  /** One pass of the insertion: swap the record at i towards the front
      while the comparator puts it before its left neighbour. */
  method InsertAt<T(==)>(results: array<T>, i: nat, idOf: T -> string, target: seq<string>)
    requires i < results.Length
    requires SortedByRank(results[..i], idOf, target)
    modifies results
    ensures multiset(results[..]) == multiset(old(results[..]))
    ensures Absent(results[..], idOf, target) == Absent(old(results[..]), idOf, target)
    ensures SortedByRank(results[..i + 1], idOf, target)
  {
    var j := i;
    InsertingStart(results[..], i, idOf, target);
    while j > 0 && Less(idOf(results[j]), idOf(results[j - 1]), target)
      invariant 0 <= j <= i
      invariant multiset(results[..]) == multiset(old(results[..]))
      invariant Absent(results[..], idOf, target) == Absent(old(results[..]), idOf, target)
      invariant Inserting(results[..], i, j, idOf, target)
      decreases j
    {
      ghost var s := results[..];
      SwapStep(s, i, j, idOf, target);
      SwapBack(results, j);
      j := j - 1;
    }
    if j > 0 {
      LessIsRankOrder(idOf(results[j]), idOf(results[j - 1]), target);
    }
    InsertingDone(results[..], i, j, idOf, target);
  }

  // ---------------------------------------------------------------------
  // What the re-sort determines.
  // ---------------------------------------------------------------------

  predicate DistinctIds<T>(s: seq<T>, idOf: T -> string) {
    forall p, q :: 0 <= p < q < |s| ==> idOf(s[p]) != idOf(s[q])
  }

  lemma AbsentAllAbsent<T>(s: seq<T>, idOf: T -> string, target: seq<string>)
    requires forall k :: 0 <= k < |s| ==> idOf(s[k]) !in target
    ensures Absent(s, idOf, target) == s
  {
    if s != [] {
      AbsentAllAbsent(s[..|s| - 1], idOf, target);
    }
  }

  lemma AbsentAllPresent<T>(s: seq<T>, idOf: T -> string, target: seq<string>)
    requires forall k :: 0 <= k < |s| ==> idOf(s[k]) in target
    ensures Absent(s, idOf, target) == []
  {
    if s != [] {
      AbsentAllPresent(s[..|s| - 1], idOf, target);
    }
  }

  lemma AbsentDropsPresentHead<T>(s: seq<T>, idOf: T -> string, target: seq<string>)
    requires s != [] && idOf(s[0]) in target
    ensures Absent(s, idOf, target) == Absent(s[1..], idOf, target)
  {
    AbsentAppend([s[0]], s[1..], idOf, target);
    assert [s[0]] + s[1..] == s;
    assert [s[0]][..0] == [];
  }

  /** The first record of a sorted arrangement has the least rank of all. */
  lemma HeadIsLeast<T>(s: seq<T>, x: T, idOf: T -> string, target: seq<string>)
    requires SortedByRank(s, idOf, target) && x in multiset(s)
    ensures Key(s[0], idOf, target) <= Key(x, idOf, target)
  {
    assert x in s;
    var k :| 0 <= k < |s| && s[k] == x;
  }

  /** When the first record's ID is absent, so is every record's. */
  lemma AbsentHeadAllAbsent<T>(s: seq<T>, idOf: T -> string, target: seq<string>)
    requires s != [] && SortedByRank(s, idOf, target) && idOf(s[0]) !in target
    ensures forall k :: 0 <= k < |s| ==> idOf(s[k]) !in target
  {
    forall k | 0 <= k < |s| ensures idOf(s[k]) !in target {
      if k > 0 {
        assert Key(s[0], idOf, target) <= Key(s[k], idOf, target);
      }
    }
  }

  /** Two sorted arrangements of the same records start with the same
      record, unless both start with an absent one. */
  lemma SameHeads<T>(s1: seq<T>, s2: seq<T>, idOf: T -> string, target: seq<string>)
    requires s1 != [] && multiset(s1) == multiset(s2)
    requires SortedByRank(s1, idOf, target) && SortedByRank(s2, idOf, target)
    requires DistinctIds(s2, idOf)
    ensures s2 != []
    ensures s1[0] == s2[0] || (idOf(s1[0]) !in target && idOf(s2[0]) !in target)
  {
    assert s1[0] in multiset(s1);
    assert s2 != [];
    assert s2[0] in multiset(s2);
    HeadIsLeast(s1, s2[0], idOf, target);
    HeadIsLeast(s2, s1[0], idOf, target);
    var r := Key(s1[0], idOf, target);
    if r < |target| {
      assert idOf(s1[0]) == target[r] == idOf(s2[0]);
      assert s1[0] in s2;
      var k :| 0 <= k < |s2| && s2[k] == s1[0];
    }
  }

  lemma TailsStay<T>(s: seq<T>, idOf: T -> string, target: seq<string>)
    requires s != [] && SortedByRank(s, idOf, target) && DistinctIds(s, idOf)
    ensures SortedByRank(s[1..], idOf, target) && DistinctIds(s[1..], idOf)
  {
    forall p, q | 0 <= p < q < |s| - 1
      ensures Key(s[1..][p], idOf, target) <= Key(s[1..][q], idOf, target)
      ensures idOf(s[1..][p]) != idOf(s[1..][q])
    {
      assert s[1..][p] == s[p + 1] && s[1..][q] == s[q + 1];
    }
  }

  lemma SortedTail<T>(s: seq<T>, idOf: T -> string, target: seq<string>)
    requires s != [] && SortedByRank(s, idOf, target)
    ensures SortedByRank(s[1..], idOf, target)
  {
    forall p, q | 0 <= p < q < |s| - 1
      ensures Key(s[1..][p], idOf, target) <= Key(s[1..][q], idOf, target)
    {
      assert s[1..][p] == s[p + 1] && s[1..][q] == s[q + 1];
    }
  }

  /** Two arrangements of the same records that start alike hold the
      same records after their heads. */
  lemma SameTails<T>(s1: seq<T>, s2: seq<T>)
    requires s1 != [] && s2 != [] && s1[0] == s2[0]
    requires multiset(s1) == multiset(s2)
    ensures multiset(s1[1..]) == multiset(s2[1..])
  {
    assert s1 == [s1[0]] + s1[1..] && s2 == [s2[0]] + s2[1..];
    assert multiset(s1) == multiset{s1[0]} + multiset(s1[1..]);
    assert multiset(s2) == multiset{s2[0]} + multiset(s2[1..]);
    assert multiset(s1[1..]) == multiset(s1) - multiset{s1[0]};
    assert multiset(s2[1..]) == multiset(s2) - multiset{s2[0]};
  }

  /** With distinct IDs (the store's primary key) the promise pins the
      result down: a sorted arrangement of records already sorted is those
      records, so the re-sort is the stable sort by first position. */
  lemma {:induction false} SortedArrangementUnique<T>(s1: seq<T>, s2: seq<T>, idOf: T -> string, target: seq<string>)
    requires SortedArrangement(s1, s2, idOf, target)
    requires SortedByRank(s2, idOf, target)
    requires DistinctIds(s2, idOf)
    ensures s1 == s2
    decreases |s1|
  {
    assert |s1| == |multiset(s1)| == |multiset(s2)| == |s2|;
    if s1 != [] {
      SameHeads(s1, s2, idOf, target);
      if idOf(s1[0]) !in target {
        AbsentHeadAllAbsent(s1, idOf, target);
        AbsentHeadAllAbsent(s2, idOf, target);
        AbsentAllAbsent(s1, idOf, target);
        AbsentAllAbsent(s2, idOf, target);
      } else {
        SameTails(s1, s2);
        AbsentDropsPresentHead(s1, idOf, target);
        AbsentDropsPresentHead(s2, idOf, target);
        SortedTail(s1, idOf, target);
        TailsStay(s2, idOf, target);
        SortedArrangementUnique(s1[1..], s2[1..], idOf, target);
      }
    }
  }

  function Rec(id: string): Word {
    Word(id, EmptyFurigana, [], false, [])
  }

  lemma ExampleRanks()
    ensures Rank("id3", ["id3", "id1", "id2"]) == 0
    ensures Rank("id1", ["id3", "id1", "id2"]) == 1
    ensures Rank("id2", ["id3", "id1", "id2"]) == 2
  {
    assert ["id3", "id1", "id2"][1..] == ["id1", "id2"];
    assert ["id1", "id2"][1..] == ["id2"];
  }

  function ById(w: Word): string {
    w.id
  }

  lemma ExampleSorted()
    ensures SortedByRank([Rec("id3"), Rec("id1"), Rec("id2")], ById, ["id3", "id1", "id2"])
    ensures DistinctIds([Rec("id3"), Rec("id1"), Rec("id2")], ById)
  {
    ExampleRanks();
  }

  lemma ExampleAbsent()
    ensures Absent([Rec("id1"), Rec("id2"), Rec("id3")], ById, ["id3", "id1", "id2"]) == []
    ensures Absent([Rec("id3"), Rec("id1"), Rec("id2")], ById, ["id3", "id1", "id2"]) == []
  {
    AbsentAllPresent([Rec("id1"), Rec("id2"), Rec("id3")], ById, ["id3", "id1", "id2"]);
    AbsentAllPresent([Rec("id3"), Rec("id1"), Rec("id2")], ById, ["id3", "id1", "id2"]);
  }

  /** The worked example: target [id3, id1, id2] and records in the order
      id1, id2, id3 can only be re-sorted to id3, id1, id2. */
  lemma SortExample(r: seq<Word>)
    requires SortedArrangement(r, [Rec("id1"), Rec("id2"), Rec("id3")], ById, ["id3", "id1", "id2"])
    ensures r == [Rec("id3"), Rec("id1"), Rec("id2")]
  {
    var sorted := [Rec("id3"), Rec("id1"), Rec("id2")];
    assert multiset([Rec("id1"), Rec("id2"), Rec("id3")]) == multiset(sorted);
    ExampleAbsent();
    ExampleSorted();
    SortedArrangementUnique(r, sorted, ById, ["id3", "id1", "id2"]);
  }

  // ---------------------------------------------------------------------
  // The store, and the search flows around it.
  // ---------------------------------------------------------------------

  /** What the store's find answers: the records, or the failure of the
      find, of decoding a document, or of the cursor. */
  datatype Fetch<T> =
    | Found(records: seq<T>)
    | FindFailed(msg: string)
    | DecodeFailed(msg: string)
    | CursorFailed(msg: string)

  /** The error of the cursor loop: a document that fails to decode, or
      the cursor's own error. */
  function CursorError<T>(f: Fetch<T>): (e: string)
    requires f.DecodeFailed? || f.CursorFailed?
    ensures f.DecodeFailed? ==> e == "failed to decode document: " + f.msg
    ensures f.CursorFailed? ==> e == "cursor error: " + f.msg
  {
    if f.DecodeFailed? then "failed to decode document: " + f.msg
    else "cursor error: " + f.msg
  }

  /** The error a failed fetch reports. fetchWordsByIDs (database/search.go,
      client/server/search.go) wraps the cursor loop's error once more;
      runMongoFind (database/database.go) runs the loop inline and does
      not, which `wrapCursor` selects. */
  function FetchError<T>(f: Fetch<T>, wrapCursor: bool): (e: string)
    requires !f.Found?
    ensures f.FindFailed? ==> e == "failed to find documents in MongoDB: " + f.msg
    ensures !f.FindFailed? && wrapCursor ==> e == "failed to iterate over cursor: " + CursorError(f)
    ensures !f.FindFailed? && !wrapCursor ==> e == CursorError(f)
  {
    if f.FindFailed? then "failed to find documents in MongoDB: " + f.msg
    else if wrapCursor then "failed to iterate over cursor: " + CursorError(f)
    else CursorError(f)
  }

  /** The two revisions report a failed find alike, and a failure of the
      cursor loop differently: only fetchWordsByIDs adds its prefix. */
  lemma FetchErrorRevisions<T>(f: Fetch<T>)
    requires !f.Found?
    ensures f.FindFailed? ==> FetchError(f, true) == FetchError(f, false)
    ensures !f.FindFailed? ==> FetchError(f, true) == "failed to iterate over cursor: " + FetchError(f, false)
    ensures !f.FindFailed? ==> FetchError(f, true) != FetchError(f, false)
  {
    if !f.FindFailed? {
      assert |FetchError(f, true)| > |FetchError(f, false)|;
    }
  }

  /** performBleveQuery / runBleveQuery after the request is built: an
      index error comes back wrapped, otherwise the extracted IDs. */
  method PerformBleveQuery(index: SearchRequest -> Result<seq<Hit>, string>, req: SearchRequest)
    returns (r: Result<seq<string>, string>)
    ensures index(req).Err? ==> r == Err("failed to search Bleve index: " + index(req).error)
    ensures index(req).Ok? ==> r == Ok(HitIds(index(req).value))
  {
    var answer := index(req);
    if answer.Err? {
      return Err("failed to search Bleve index: " + answer.error);
    }
    var ids := ExtractBleveResult(answer.value);
    return Ok(ids);
  }

  /** fetchWordsByIDs (wrapCursor) / runMongoFind (not wrapCursor): find
      the records, then re-sort them into the order of the IDs. */
  method FetchWordsByIds<T(==)>(ids: seq<string>, store: seq<string> -> Fetch<T>, idOf: T -> string, wrapCursor: bool)
    returns (r: Result<seq<T>, string>)
    ensures !store(ids).Found? ==> r == Err(FetchError(store(ids), wrapCursor))
    ensures store(ids).Found? ==> r.Ok? && SortedArrangement(r.value, store(ids).records, idOf, ids)
  {
    var answer := store(ids);
    if !answer.Found? {
      return Err(FetchError(answer, wrapCursor));
    }
    var records := answer.records;
    var results := new T[|records|](k requires 0 <= k < |records| => records[k]);
    assert results[..] == records;
    SortWords(results, idOf, ids);
    return Ok(results[..]);
  }

  /** The request-to-records flow shared by the search revisions, with the
      revision's own message for "no IDs" and its store error texts. */
  predicate SearchOutcome<T(==)>(r: Result<seq<T>, string>, req: SearchRequest, emptyError: string,
                             index: SearchRequest -> Result<seq<Hit>, string>,
                             store: seq<string> -> Fetch<T>, idOf: T -> string, wrapCursor: bool) {
    match index(req)
    case Err(e) => r == Err("failed to search Bleve index: " + e)
    case Ok(hits) =>
      var ids := HitIds(hits);
      if ids == [] then r == Err(emptyError)
      else if !store(ids).Found? then r == Err(FetchError(store(ids), wrapCursor))
      else r.Ok? && SortedArrangement(r.value, store(ids).records, idOf, ids)
  }

  /** Lower-casing rune by rune, as strings.ToLower does. */
  function Lower(u: UnicodeTables, s: string): (r: string)
    ensures |r| == |s|
    ensures forall i :: 0 <= i < |s| ==> r[i] == u.toLower(s[i])
  {
    seq(|s|, i requires 0 <= i < |s| => u.toLower(s[i]))
  }

  /** search of client/server/search.go: lower-case, classify, ask the
      classification's field group, and answer "EMPTY_LIST" when no ID
      comes back; the store is consulted only with at least one ID. */
  method ClientSearch<T(==)>(u: UnicodeTables, searchTerm: string,
                         index: SearchRequest -> Result<seq<Hit>, string>,
                         store: seq<string> -> Fetch<T>, idOf: T -> string)
    returns (r: Result<seq<T>, string>)
    ensures var term := Lower(u, searchTerm);
      SearchOutcome(r, PerScriptRequest(term, Classify(u, term)), "EMPTY_LIST", index, store, idOf, true)
  {
    var term := Lower(u, searchTerm);
    var t := DetectSearchTermType(u, term);
    var ids := PerformBleveQuery(index, PerScriptRequest(term, t));
    if ids.Err? {
      return Err(ids.error);
    }
    if |ids.value| == 0 {
      return Err("EMPTY_LIST");
    }
    r := FetchWordsByIds(ids.value, store, idOf, true);
  }

  /** Search of database/search.go (wrapCursor) and database/database.go
      (not wrapCursor): the text as given, the all-groups query, and "no
      results found" when no ID comes back. */
  method DatabaseSearch<T(==)>(query: string,
                           index: SearchRequest -> Result<seq<Hit>, string>,
                           store: seq<string> -> Fetch<T>, idOf: T -> string, wrapCursor: bool)
    returns (r: Result<seq<T>, string>)
    ensures SearchOutcome(r, AllGroupsRequest(query), "no results found", index, store, idOf, wrapCursor)
  {
    var ids := PerformBleveQuery(index, AllGroupsRequest(query));
    if ids.Err? {
      return Err(ids.error);
    }
    if |ids.value| == 0 {
      return Err("no results found");
    }
    r := FetchWordsByIds(ids.value, store, idOf, wrapCursor);
  }

  /** The "no IDs" outcome never depends on the store. */
  lemma EmptyIdsIgnoreStore<T>(r: Result<seq<T>, string>, req: SearchRequest, emptyError: string,
                               index: SearchRequest -> Result<seq<Hit>, string>,
                               store: seq<string> -> Fetch<T>, idOf: T -> string, wrapCursor: bool)
    requires index(req).Ok? && HitIds(index(req).value) == []
    ensures SearchOutcome(r, req, emptyError, index, store, idOf, wrapCursor) <==> r == Err(emptyError)
  {
  }

  /** The client flow reads the same search term in any letter case the
      same way: terms that lower-case alike give the same request. */
  lemma CaseInsensitiveRequest(u: UnicodeTables, a: string, b: string)
    requires |a| == |b|
    requires forall i :: 0 <= i < |a| ==> u.toLower(a[i]) == u.toLower(b[i])
    ensures PerScriptRequest(Lower(u, a), Classify(u, Lower(u, a)))
         == PerScriptRequest(Lower(u, b), Classify(u, Lower(u, b)))
  {
    assert Lower(u, a) == Lower(u, b);
  }

  // ---------------------------------------------------------------------
  // Search of dictionaryimporter.go: the hits themselves are the answer.
  // ---------------------------------------------------------------------

  function EmptyEntry(): SearchableEntry {
    SearchableEntry("", [], [], [])
  }

  /** The entries the hits decode to, skipping the ones that fail. */
  function DecodedHits(hits: seq<Hit>): (entries: seq<SearchableEntry>)
    ensures |entries| <= |hits|
  {
    if hits == [] then []
    else
      var last := hits[|hits| - 1];
      var e := DecodeSearchableEntry(last.fields, EmptyEntry(), true);
      DecodedHits(hits[..|hits| - 1]) + (if last.marshals && e.Some? then [e.value] else [])
  }

  lemma DecodedHitsStep(hits: seq<Hit>, i: nat)
    requires i < |hits|
    ensures var e := DecodeSearchableEntry(hits[i].fields, EmptyEntry(), true);
      DecodedHits(hits[..i + 1]) == DecodedHits(hits[..i]) + (if hits[i].marshals && e.Some? then [e.value] else [])
  {
    assert hits[..i + 1][..i] == hits[..i];
  }

  /** Search: one match query over every field; an index error is returned
      unchanged; each hit is decoded into a fresh entry. */
  method ImporterSearch(query: string, index: SearchRequest -> Result<seq<Hit>, string>)
    returns (r: Result<seq<SearchableEntry>, string>)
    ensures index(MatchAllFieldsRequest(query)).Err? ==> r == Err(index(MatchAllFieldsRequest(query)).error)
    ensures index(MatchAllFieldsRequest(query)).Ok? ==> r == Ok(DecodedHits(index(MatchAllFieldsRequest(query)).value))
  {
    var answer := index(MatchAllFieldsRequest(query));
    if answer.Err? {
      return Err(answer.error);
    }
    var hits := answer.value;
    var results := [];
    for i := 0 to |hits|
      invariant results == DecodedHits(hits[..i])
    {
      DecodedHitsStep(hits, i);
      if !hits[i].marshals {
        continue;
      }
      var entry := DecodeSearchableEntry(hits[i].fields, EmptyEntry(), true);
      if entry.None? {
        continue;
      }
      results := results + [entry.value];
    }
    assert hits[..|hits|] == hits;
    return Ok(results);
  }

  /** The entries come back in hit order: what was indexed is what the
      search returns, one entry per hit. */
  lemma {:induction false} IndexedEntriesComeBack(docs: seq<SearchableEntry>)
    ensures DecodedHits(seq(|docs|, i requires 0 <= i < |docs| => Hit(EncodeSearchableEntry(docs[i]), true))) == docs
  {
    if docs != [] {
      var n := |docs| - 1;
      var hits := seq(|docs|, i requires 0 <= i < |docs| => Hit(EncodeSearchableEntry(docs[i]), true));
      IndexedEntriesComeBack(docs[..n]);
      assert hits[..n] == seq(n, i requires 0 <= i < n => Hit(EncodeSearchableEntry(docs[..n][i]), true));
      DecodeEncodedSearchableEntry(docs[n], EmptyEntry(), true);
      assert docs[..n] + [docs[n]] == docs;
    }
  }
}
