/** The index queries, as values: the query tree handed to the search
    engine and the request around it. The engine itself (analysis, scoring)
    is not modelled; only the shape of what is asked is. */
module Query {
  import opened Script

  /** A query tree. The leaves carry the field they search, the query text
      and their boost. */
  datatype Query =
    | Term(field: string, text: string, boost: real)
    | Match(field: string, text: string, boost: real)
    | MatchPhrase(field: string, text: string, boost: real)
    | Prefix(field: string, text: string, boost: real)
    | Fuzzy(field: string, text: string, fuzziness: int, boost: real)
    | Disjunction(min: int, disjuncts: seq<Query>)
    | Boolean(should: seq<Query>)

  /** The boost a leaf has when none is set. */
  const DefaultBoost: real := 1.0

  const SearchSize: int := 20
  const SearchFrom: int := 0

  datatype SearchRequest = SearchRequest(query: Query, size: int, from: int, fields: seq<string>)

  predicate IsLeaf(q: Query) {
    !q.Disjunction? && !q.Boolean?
  }

  /** The leaves of a query, left to right. */
  function Leaves(q: Query): (r: seq<Query>)
    ensures forall l <- r :: IsLeaf(l)
    decreases q, 1
  {
    match q
    case Disjunction(_, qs) => LeavesOf(qs)
    case Boolean(qs) => LeavesOf(qs)
    case _ => [q]
  }

  function LeavesOf(qs: seq<Query>): (r: seq<Query>)
    ensures forall l <- r :: IsLeaf(l)
    decreases qs, 0
  {
    if qs == [] then [] else Leaves(qs[0]) + LeavesOf(qs[1..])
  }

  /** The fields a query searches. */
  function Fields(q: Query): set<string> {
    set l | l in Leaves(q) :: l.field
  }

  // ---------------------------------------------------------------------
  // utils/bleve.go and its earlier copy in database/database.go.
  // ---------------------------------------------------------------------

  /** newTermQueryWithBoost: a term query on exactly the given field, with
      exactly the given boost. */
  function NewTermQueryWithBoost(field: string, term: string, boost: real): (q: Query)
    ensures q.Term? && q.field == field && q.text == term && q.boost == boost
  {
    Term(field, term, boost)
  }

  /** newMatchQueryWithBoost: the same for a match query. */
  function NewMatchQueryWithBoost(field: string, term: string, boost: real): (q: Query)
    ensures q.Match? && q.field == field && q.text == term && q.boost == boost
  {
    Match(field, term, boost)
  }

  const ExactBoost: real := 10.0
  const CharBoost: real := 1.0

  /** NewJapaneseFieldQuery (CreateBooleanQueryForField in
      database/database.go): the exact field as a term, or the char-gram
      field as a match inside a disjunction that needs one hit; the exact
      clause outweighs the char-gram one. */
  function NewJapaneseFieldQuery(text: string, exactField: string, charField: string): (q: Query)
    ensures q.Boolean? && |q.should| == 2
    ensures q.should[0] == Term(exactField, text, ExactBoost)
    ensures q.should[1] == Disjunction(1, [Match(charField, text, CharBoost)])
    ensures q.should[0].boost > q.should[1].disjuncts[0].boost
    ensures Leaves(q) == [Term(exactField, text, ExactBoost), Match(charField, text, CharBoost)]
    ensures Fields(q) == {exactField, charField}
  {
    var q := Boolean([NewTermQueryWithBoost(exactField, text, ExactBoost),
                      Disjunction(1, [NewMatchQueryWithBoost(charField, text, CharBoost)])]);
    JapaneseLeaves(text, exactField, charField);
    q
  }

  /** The all-groups query of database/search.go and database/database.go:
      the meanings as a term with the default boost, or the kana group, or
      the kanji group. */
  function AllGroupsQuery(text: string): (q: Query)
    ensures q.Boolean? && |q.should| == 3
    ensures q.should[0].Term? && q.should[0].field == "meanings" && q.should[0].text == text
    ensures q.should[0].boost == DefaultBoost
    ensures Fields(q.should[1]) == {"kana_exact", "kana_char"}
    ensures Fields(q.should[2]) == {"kanji_exact", "kanji_char"}
  {
    Boolean([Term("meanings", text, DefaultBoost),
             NewJapaneseFieldQuery(text, "kana_exact", "kana_char"),
             NewJapaneseFieldQuery(text, "kanji_exact", "kanji_char")])
  }

  /** The request asks back the ID and every field it searches, and
      nothing else. */
  function AllGroupsRequest(text: string): (r: SearchRequest)
    ensures r.query == AllGroupsQuery(text) && r.size == SearchSize && r.from == SearchFrom
    ensures "id" in r.fields
    ensures forall f <- Fields(r.query) :: f in r.fields
    ensures forall f <- r.fields :: f == "id" || f in Fields(r.query)
  {
    AllGroupsFields(text);
    SearchRequest(AllGroupsQuery(text), SearchSize, SearchFrom,
                  ["id", "kana_exact", "kana_char", "kanji_exact", "kanji_char", "meanings"])
  }

  /** The per-script query of client/server/search.go. */
  function PerScriptQuery(text: string, t: SearchTermType): (q: Query)
    ensures q.Boolean? && |q.should| == (if t == Romaji then 2 else 3)
    ensures forall i :: 0 <= i < |q.should| ==> IsLeaf(q.should[i]) && q.should[i].text == text
  {
    match t
    case Romaji => Boolean([Match("meanings", text, 4.0), Fuzzy("meanings", text, 1, 1.0)])
    case Kana => Boolean([Match("kana_exact", text, 5.0), Prefix("kana_char", text, 4.0), Match("kana_char", text, 1.0)])
    case Kanji => Boolean([MatchPhrase("kanji_exact", text, 5.0), Prefix("kanji_char", text, 4.0), Match("kanji_char", text, 1.0)])
  }

  /** The first 20 hits of the classification's query; the ID is always
      asked back. */
  function PerScriptRequest(text: string, t: SearchTermType): (r: SearchRequest)
    ensures r.query == PerScriptQuery(text, t) && r.size == SearchSize && r.from == SearchFrom
    ensures "id" in r.fields
  {
    SearchRequest(PerScriptQuery(text, t), SearchSize, SearchFrom, ["id", "kana_char", "kanji_char", "meanings"])
  }

  /** The query of dictionaryimporter.go's Search: one match over every
      field (an empty field name). */
  function MatchAllFieldsRequest(text: string): (r: SearchRequest)
    ensures r.query.Match? && r.query.field == "" && r.query.text == text
    ensures r.size == 20 && r.from == 0 && "id" in r.fields
  {
    SearchRequest(Match("", text, DefaultBoost), 20, 0, ["id", "kana", "kanji", "meanings"])
  }

  // ---------------------------------------------------------------------
  // Properties of the queries.
  // ---------------------------------------------------------------------

  lemma {:induction false} LeavesOfFlat(qs: seq<Query>)
    requires forall q <- qs :: IsLeaf(q)
    ensures LeavesOf(qs) == qs
  {
    if qs != [] {
      LeavesOfFlat(qs[1..]);
      assert qs[0] in qs;
      assert Leaves(qs[0]) == [qs[0]];
      assert [qs[0]] + qs[1..] == qs;
    }
  }

  lemma LeavesOfCons(q: Query, qs: seq<Query>)
    ensures LeavesOf([q] + qs) == Leaves(q) + LeavesOf(qs)
  {
    assert ([q] + qs)[1..] == qs;
  }

  lemma JapaneseLeaves(text: string, exactField: string, charField: string)
    ensures Leaves(Boolean([Term(exactField, text, ExactBoost), Disjunction(1, [Match(charField, text, CharBoost)])]))
         == [Term(exactField, text, ExactBoost), Match(charField, text, CharBoost)]
  {
    var m := Match(charField, text, CharBoost);
    var d := Disjunction(1, [m]);
    var t := Term(exactField, text, ExactBoost);
    LeavesOfCons(m, []);
    LeavesOfCons(d, []);
    LeavesOfCons(t, [d]);
    assert [m] + [] == [m] && [d] + [] == [d] && [t] + [d] == [t, d];
  }

  /** The clauses depend only on the classification: romaji searches the
      meanings only, kana the kana fields only, kanji the kanji fields
      only; within each, the boosts strictly decrease from the exact clause
      to the char-gram one. */
  lemma PerScriptShape(text: string, t: SearchTermType)
    ensures var q := PerScriptQuery(text, t);
      && Leaves(q) == q.should
      && (forall l <- Leaves(q) :: l.text == text)
      && (t == Romaji ==> Fields(q) == {"meanings"})
      && (t == Kana ==> Fields(q) == {"kana_exact", "kana_char"})
      && (t == Kanji ==> Fields(q) == {"kanji_exact", "kanji_char"})
      && (forall i, j :: 0 <= i < j < |q.should| ==> q.should[i].boost > q.should[j].boost)
  {
    match t
    case Romaji => RomajiShape(text);
    case Kana => KanaShape(text);
    case Kanji => KanjiShape(text);
  }

  lemma RomajiShape(text: string)
    ensures var q := PerScriptQuery(text, Romaji);
      && Leaves(q) == q.should
      && (forall l <- Leaves(q) :: l.text == text)
      && Fields(q) == {"meanings"}
      && (forall i, j :: 0 <= i < j < |q.should| ==> q.should[i].boost > q.should[j].boost)
  {
    var q := PerScriptQuery(text, Romaji);
    FlatTwo(q.should[0], q.should[1]);
  }

  lemma KanaShape(text: string)
    ensures var q := PerScriptQuery(text, Kana);
      && Leaves(q) == q.should
      && (forall l <- Leaves(q) :: l.text == text)
      && Fields(q) == {"kana_exact", "kana_char"}
      && (forall i, j :: 0 <= i < j < |q.should| ==> q.should[i].boost > q.should[j].boost)
  {
    var q := PerScriptQuery(text, Kana);
    FlatThree(q.should[0], q.should[1], q.should[2]);
  }

  lemma KanjiShape(text: string)
    ensures var q := PerScriptQuery(text, Kanji);
      && Leaves(q) == q.should
      && (forall l <- Leaves(q) :: l.text == text)
      && Fields(q) == {"kanji_exact", "kanji_char"}
      && (forall i, j :: 0 <= i < j < |q.should| ==> q.should[i].boost > q.should[j].boost)
  {
    var q := PerScriptQuery(text, Kanji);
    FlatThree(q.should[0], q.should[1], q.should[2]);
  }

  /** A query of two leaves has them as its leaves and their fields as its
      fields. */
  lemma FlatTwo(q0: Query, q1: Query)
    requires IsLeaf(q0) && IsLeaf(q1)
    ensures Leaves(Boolean([q0, q1])) == [q0, q1]
    ensures Fields(Boolean([q0, q1])) == {q0.field, q1.field}
  {
    LeavesOfFlat([q0, q1]);
  }

  /** The same for three leaves. */
  lemma FlatThree(q0: Query, q1: Query, q2: Query)
    requires IsLeaf(q0) && IsLeaf(q1) && IsLeaf(q2)
    ensures Leaves(Boolean([q0, q1, q2])) == [q0, q1, q2]
    ensures Fields(Boolean([q0, q1, q2])) == {q0.field, q1.field, q2.field}
  {
    LeavesOfFlat([q0, q1, q2]);
    forall f ensures f in Fields(Boolean([q0, q1, q2])) <==> f in {q0.field, q1.field, q2.field} {
      if f in {q0.field, q1.field, q2.field} {
        assert q0 in [q0, q1, q2] && q1 in [q0, q1, q2] && q2 in [q0, q1, q2];
      }
    }
  }

  /** The all-groups query searches all five fields with the unmodified
      text, and each Japanese group prefers its exact field. */
  lemma AllGroupsShape(text: string)
    ensures Fields(AllGroupsQuery(text)) == {"meanings", "kana_exact", "kana_char", "kanji_exact", "kanji_char"}
    ensures forall l <- Leaves(AllGroupsQuery(text)) :: l.text == text
  {
    AllGroupsFields(text);
    AllGroupsText(text);
  }

  lemma AllGroupsFields(text: string)
    ensures Fields(AllGroupsQuery(text)) == {"meanings", "kana_exact", "kana_char", "kanji_exact", "kanji_char"}
  {
    var t := Term("meanings", text, DefaultBoost);
    var kana := NewJapaneseFieldQuery(text, "kana_exact", "kana_char");
    var kanji := NewJapaneseFieldQuery(text, "kanji_exact", "kanji_char");
    ThreeGroups(t, kana, kanji);
    LeafFields(t);
  }

  lemma AllGroupsText(text: string)
    ensures forall l <- Leaves(AllGroupsQuery(text)) :: l.text == text
  {
    var t := Term("meanings", text, DefaultBoost);
    var kana := NewJapaneseFieldQuery(text, "kana_exact", "kana_char");
    var kanji := NewJapaneseFieldQuery(text, "kanji_exact", "kanji_char");
    ThreeGroups(t, kana, kanji);
    LeafFields(t);
    forall l | l in Leaves(AllGroupsQuery(text))
      ensures l.text == text
    {
      assert l in [t] || l in Leaves(kana) || l in Leaves(kanji);
    }
  }

  /** A leaf is its own only leaf and searches its own field. */
  lemma LeafFields(l: Query)
    requires IsLeaf(l)
    ensures Leaves(l) == [l] && Fields(l) == {l.field}
  {
  }

  /** A query of three groups has the leaves and the fields of its groups,
      in order. */
  lemma ThreeGroups(a: Query, b: Query, c: Query)
    ensures Leaves(Boolean([a, b, c])) == Leaves(a) + Leaves(b) + Leaves(c)
    ensures Fields(Boolean([a, b, c])) == Fields(a) + Fields(b) + Fields(c)
  {
    ThreeGroupsLeaves(a, b, c);
    var ls := Leaves(Boolean([a, b, c]));
    forall f ensures f in Fields(Boolean([a, b, c])) <==> f in Fields(a) + Fields(b) + Fields(c) {
      if f in Fields(Boolean([a, b, c])) {
        var l :| l in ls && l.field == f;
        assert l in Leaves(a) || l in Leaves(b) || l in Leaves(c);
      }
    }
  }

  lemma ThreeGroupsLeaves(a: Query, b: Query, c: Query)
    ensures Leaves(Boolean([a, b, c])) == Leaves(a) + Leaves(b) + Leaves(c)
  {
    LeavesOfCons(c, []);
    LeavesOfCons(b, [c]);
    LeavesOfCons(a, [b, c]);
    assert [c] + [] == [c] && [b] + [c] == [b, c] && [a] + [b, c] == [a, b, c];
    assert Leaves(c) + [] == Leaves(c);
  }
}
