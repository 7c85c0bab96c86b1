/** The in-memory vector index, over real numbers. */
module VectorStore {
  import opened Bpmn
  import opened Similarity
  import opened Totals

  datatype Document = Document(id: Id, content: string)

  datatype Hit = Hit(document: Document, score: real)

  datatype Scored = Scored(id: Id, score: real)

  predicate Descending(s: seq<Scored>) { forall i, j | 0 <= i < j < |s| :: s[i].score >= s[j].score }

  lemma InsertAt(r: seq<Scored>, k: nat, x: Scored)
    requires k <= |r| && Descending(r)
    requires forall j | 0 <= j < k :: r[j].score >= x.score
    requires forall j | k <= j < |r| :: r[j].score <= x.score
    ensures Descending(r[..k] + [x] + r[k..]) && multiset(r[..k] + [x] + r[k..]) == multiset(r) + multiset{x}
  {
    assert r == r[..k] + r[k..];
  }

  method PlaceFor(r: seq<Scored>, score: real) returns (k: nat)
    requires Descending(r)
    ensures k <= |r| && (forall j | 0 <= j < k :: r[j].score >= score)
    ensures forall j | k <= j < |r| :: r[j].score <= score
  {
    k := 0;
    while k < |r| && r[k].score >= score
      invariant 0 <= k <= |r| && forall j | 0 <= j < k :: r[j].score >= score
    {
      k := k + 1;
    }
  }

  /** sort.Slice by descending score; how ties come out is left open. */
  method SortByScore(s: seq<Scored>) returns (r: seq<Scored>)
    ensures Descending(r) && multiset(r) == multiset(s)
  {
    r := [];
    for i := 0 to |s|
      invariant Descending(r) && multiset(r) == multiset(s[..i])
    {
      var k := PlaceFor(r, s[i].score);
      InsertAt(r, k, s[i]);
      r := r[..k] + [s[i]] + r[k..];
      assert s[..i + 1] == s[..i] + [s[i]];
    }
    assert s[..|s|] == s;
  }

  function Inserted(docs: map<Id, Document>, added: seq<Document>): map<Id, Document> {
    if added == [] then docs
    else
      var front, last := Inserted(docs, added[..|added| - 1]), added[|added| - 1];
      if last.id == "" then front else front[last.id := last]
  }

  function Embedded(vectors: map<Id, seq<real>>, added: seq<Document>, embeddings: seq<seq<real>>): map<Id, seq<real>>
    requires |added| == |embeddings|
  {
    if added == [] then vectors
    else
      var n := |added| - 1;
      var front := Embedded(vectors, added[..n], embeddings[..n]);
      if added[n].id == "" then front else front[added[n].id := embeddings[n]]
  }

  lemma {:induction false} SameKeys(docs: map<Id, Document>, vectors: map<Id, seq<real>>, added: seq<Document>,
                                    embeddings: seq<seq<real>>)
    requires docs.Keys == vectors.Keys && |added| == |embeddings|
    ensures Inserted(docs, added).Keys == Embedded(vectors, added, embeddings).Keys
  {
    if added != [] {
      var n := |added| - 1;
      SameKeys(docs, vectors, added[..n], embeddings[..n]);
    }
  }

  /** The last document with its id in the list. */
  predicate LastOfId(added: seq<Document>, i: nat) {
    i < |added| && added[i].id != "" && forall j | i < j < |added| :: added[j].id != added[i].id
  }

  predicate NotNamed(added: seq<Document>, id: Id) { id == "" || forall j | 0 <= j < |added| :: added[j].id != id }

  /** Every document is stored with the embedding at its own place in the list; of several with one id the last. */
  lemma {:induction false} StoredTogether(docs: map<Id, Document>, vectors: map<Id, seq<real>>, added: seq<Document>,
                                          embeddings: seq<seq<real>>, i: nat)
    requires |added| == |embeddings| && LastOfId(added, i)
    ensures var id, d, v := added[i].id, Inserted(docs, added), Embedded(vectors, added, embeddings);
            id in d && d[id] == added[i] && id in v && v[id] == embeddings[i]
    decreases |added|
  {
    var n := |added| - 1;
    if i < n {
      StoredTogether(docs, vectors, added[..n], embeddings[..n], i);
    }
  }

  /** What is not named in the list stays as it was, and nothing else is added. */
  lemma {:induction false} OthersStay(docs: map<Id, Document>, vectors: map<Id, seq<real>>, added: seq<Document>,
                                      embeddings: seq<seq<real>>, id: Id)
    requires |added| == |embeddings| && NotNamed(added, id)
    ensures var d, v := Inserted(docs, added), Embedded(vectors, added, embeddings);
            && (id in d <==> id in docs) && (id in docs ==> d[id] == docs[id])
            && (id in v <==> id in vectors) && (id in vectors ==> v[id] == vectors[id])
    decreases |added|
  {
    if added != [] {
      var n := |added| - 1;
      OthersStay(docs, vectors, added[..n], embeddings[..n], id);
    }
  }

  /** Both at once. */
  lemma InsertedExactly(docs: map<Id, Document>, vectors: map<Id, seq<real>>, added: seq<Document>,
                        embeddings: seq<seq<real>>)
    requires |added| == |embeddings|
    ensures StoresAll(docs, vectors, added, embeddings, Inserted(docs, added), Embedded(vectors, added, embeddings))
  {
    forall i: nat | LastOfId(added, i)
      ensures Holds(Inserted(docs, added), Embedded(vectors, added, embeddings), added[i], embeddings[i])
    {
      StoredTogether(docs, vectors, added, embeddings, i);
    }
    forall id | NotNamed(added, id)
      ensures Unmoved(docs, vectors, Inserted(docs, added), Embedded(vectors, added, embeddings), id)
    {
      OthersStay(docs, vectors, added, embeddings, id);
    }
  }

  predicate Holds(docs: map<Id, Document>, vectors: map<Id, seq<real>>, doc: Document, embedding: seq<real>) {
    doc.id in docs && docs[doc.id] == doc && doc.id in vectors && vectors[doc.id] == embedding
  }

  predicate Unmoved(docs: map<Id, Document>, vectors: map<Id, seq<real>>, docs': map<Id, Document>,
                    vectors': map<Id, seq<real>>, id: Id)
  {
    && (id in docs' <==> id in docs) && (id in docs ==> docs'[id] == docs[id])
    && (id in vectors' <==> id in vectors) && (id in vectors ==> vectors'[id] == vectors[id])
  }

  ghost predicate StoresAll(docs: map<Id, Document>, vectors: map<Id, seq<real>>, added: seq<Document>,
                            embeddings: seq<seq<real>>, docs': map<Id, Document>, vectors': map<Id, seq<real>>)
    requires |added| == |embeddings|
  {
    && (forall i: nat | LastOfId(added, i) :: Holds(docs', vectors', added[i], embeddings[i]))
    && forall id | NotNamed(added, id) :: Unmoved(docs, vectors, docs', vectors', id)
  }

  /** The score of every vector. */
  function Graded(root: real -> real, vectors: map<Id, seq<real>>, query: seq<real>): map<Id, real>
    requires IsRoot(root)
  {
    map id | id in vectors :: Cosine(root, query, vectors[id])
  }

  /** What a pass over the vectors has scored when `todo` are left; `graded` says what the scores are. */
  ghost predicate ScoredBut(graded: map<Id, real>, todo: set<Id>, scores: seq<Scored>) {
    todo <= graded.Keys && AllScored(graded - todo, scores)
  }

  method ScoreOne(root: real -> real, vectors: map<Id, seq<real>>, query: seq<real>, todo: set<Id>,
                  scores: seq<Scored>, ghost graded: map<Id, real>) returns (id: Id, more: seq<Scored>)
    requires IsRoot(root) && graded == Graded(root, vectors, query) && todo != {} && ScoredBut(graded, todo, scores)
    ensures id in todo && ScoredBut(graded, todo - {id}, more)
  {
    id :| id in todo;
    var score := CosineSimilarity(root, query, vectors[id]);
    OneMoreScored(graded, todo, scores, id);
    more := scores + [Scored(id, score)];
  }

  /** Every vector with its score, in any order. */
  method Scores(root: real -> real, vectors: map<Id, seq<real>>, query: seq<real>) returns (scores: seq<Scored>)
    requires IsRoot(root)
    ensures AllScored(Graded(root, vectors, query), scores)
  {
    scores := [];
    ghost var graded := Graded(root, vectors, query);
    var todo := vectors.Keys;
    BeforeAndAfter(graded);
    while todo != {}
      invariant todo <= vectors.Keys && ScoredBut(graded, todo, scores)
      decreases todo
    {
      var id;
      id, scores := ScoreOne(root, vectors, query, todo, scores, graded);
      todo := todo - {id};
    }
  }

  lemma BeforeAndAfter(graded: map<Id, real>)
    ensures graded - graded.Keys == map[] && graded - {} == graded
  {
  }

  /** How many of `n` results `topK` leaves. */
  function Kept(topK: int, n: nat): (k: nat)
    ensures k <= n
  {
    if topK <= 0 || topK > n then n else topK
  }

  class InMemoryVectorStore {
    const root: real -> real
    var documents: map<Id, Document>
    var vectors: map<Id, seq<real>>

    ghost predicate Valid()
      reads this
    {
      IsRoot(root) && documents.Keys == vectors.Keys
    }

    constructor (root: real -> real)
      requires IsRoot(root)
      ensures Valid() && documents == map[] && vectors == map[]
    {
      this.root := root;
      documents, vectors := map[], map[];
    }

    method Insert(docs: seq<Document>, embeddings: seq<seq<real>>)
      requires Valid()
      modifies this`documents, this`vectors
      ensures Valid()
      ensures |docs| != |embeddings| ==> documents == old(documents) && vectors == old(vectors)
      ensures |docs| == |embeddings| ==>
                documents == Inserted(old(documents), docs) && vectors == Embedded(old(vectors), docs, embeddings)
      ensures |docs| == |embeddings| ==> StoresAll(old(documents), old(vectors), docs, embeddings, documents, vectors)
    {
      if |docs| != |embeddings| {
        return;
      }
      for i := 0 to |docs|
        invariant documents == Inserted(old(documents), docs[..i])
        invariant vectors == Embedded(old(vectors), docs[..i], embeddings[..i])
      {
        assert docs[..i + 1][..i] == docs[..i] && embeddings[..i + 1][..i] == embeddings[..i];
        if docs[i].id == "" {
          continue;
        }
        documents := documents[docs[i].id := docs[i]];
        vectors := vectors[docs[i].id := embeddings[i]];
      }
      assert docs[..|docs|] == docs && embeddings[..|embeddings|] == embeddings;
      SameKeys(old(documents), old(vectors), docs, embeddings);
      InsertedExactly(old(documents), old(vectors), docs, embeddings);
    }

    method Delete(ids: seq<Id>)
      requires Valid()
      modifies this`documents, this`vectors
      ensures Valid()
      ensures documents == map id | id in old(documents) && id !in ids :: old(documents)[id]
      ensures vectors == map id | id in old(vectors) && id !in ids :: old(vectors)[id]
    {
      for i := 0 to |ids|
        invariant documents == map id | id in old(documents) && id !in ids[..i] :: old(documents)[id]
        invariant vectors == map id | id in old(vectors) && id !in ids[..i] :: old(vectors)[id]
      {
        assert ids[..i + 1] == ids[..i] + [ids[i]];
        documents := documents - {ids[i]};
        vectors := vectors - {ids[i]};
      }
      assert ids[..|ids|] == ids;
    }

    method Clear()
      requires Valid()
      modifies this`documents, this`vectors
      ensures Valid() && documents == map[] && vectors == map[]
    {
      documents, vectors := map[], map[];
    }

    /** The best `topK` documents, all of them when `topK` is not positive. */
    method Search(query: seq<real>, topK: int) returns (results: seq<Hit>)
      requires Valid()
      ensures |results| == if topK <= 0 || topK > |vectors| then |vectors| else topK
      ensures forall r | r in results ::
                exists id :: id in documents && id in vectors
                  && r == Hit(documents[id], Cosine(root, query, vectors[id]))
      ensures forall i, j | 0 <= i < j < |results| :: results[i].score >= results[j].score
      ensures exists ids: seq<Id> :: BestFirst(documents, Graded(root, vectors, query), ids, results)
    {
      var scores := Scores(root, vectors, query);
      var sorted := SortByScore(scores);
      SortedScored(Graded(root, vectors, query), scores, sorted);
      var n := Kept(topK, |sorted|);
      results := Hits(sorted[..n]);
      BestAreFirst(documents, Graded(root, vectors, query), sorted, n, results);
      HitsAreScored(documents, Graded(root, vectors, query), IdsOf(sorted[..n]), results);
    }

    /** The stored documents for the scores; one without a document would be skipped. */
    method Hits(scores: seq<Scored>) returns (results: seq<Hit>)
      requires forall s | s in scores :: s.id in documents
      ensures |results| == |scores|
      ensures forall k | 0 <= k < |scores| :: scores[k].id in documents
                && results[k] == Hit(documents[scores[k].id], scores[k].score)
    {
      results := [];
      for i := 0 to |scores|
        invariant |results| == i
        invariant forall k | 0 <= k < i :: scores[k].id in documents
                    && results[k] == Hit(documents[scores[k].id], scores[k].score)
      {
        if scores[i].id in documents {
          results := results + [Hit(documents[scores[i].id], scores[i].score)];
        }
      }
    }
  }

  /** `scores` holds every id with its score, and no more entries than that. */
  ghost predicate AllScored(graded: map<Id, real>, scores: seq<Scored>) {
    && |scores| == |graded|
    && forall s :: s in scores <==> s.id in graded && s.score == graded[s.id]
  }

  lemma OneMoreScored(graded: map<Id, real>, todo: set<Id>, scores: seq<Scored>, id: Id)
    requires id in todo && todo <= graded.Keys && AllScored(graded - todo, scores)
    ensures AllScored(graded - (todo - {id}), scores + [Scored(id, graded[id])])
  {
    var before, after := graded - todo, graded - (todo - {id});
    assert after == before[id := graded[id]];
    assert |after| == |before| + 1;
  }

  /** Sorting keeps every score. */
  lemma SortedScored(graded: map<Id, real>, scores: seq<Scored>, sorted: seq<Scored>)
    requires AllScored(graded, scores) && multiset(sorted) == multiset(scores)
    ensures AllScored(graded, sorted)
  {
    assert |sorted| == |multiset(sorted)| == |scores|;
    forall s ensures s in sorted <==> s in scores {
      assert s in sorted <==> s in multiset(sorted);
    }
  }

  lemma {:induction false} FewIds(s: seq<Scored>)
    ensures |set x | x in s :: x.id| <= |s|
  {
    if s == [] {
      assert (set x | x in s :: x.id) == {};
    } else {
      var front, last := s[..|s| - 1], s[|s| - 1];
      FewIds(front);
      assert s == front + [last];
      assert (set x | x in s :: x.id) == (set x | x in front :: x.id) + {last.id};
    }
  }

  /** There is no room for an id to appear twice. */
  lemma DistinctIds(graded: map<Id, real>, s: seq<Scored>, i: nat, j: nat)
    requires AllScored(graded, s) && i < j < |s|
    ensures s[i].id != s[j].id
  {
    if s[i].id == s[j].id {
      var rest := s[..j] + s[j + 1..];
      assert s == s[..j] + [s[j]] + s[j + 1..];
      assert rest[i] == s[i] && s[i] in s && s[j] in s;
      FewIds(rest);
      forall id | id in graded ensures id in set x | x in rest :: x.id {
        assert Scored(id, graded[id]) in s;
      }
      SubsetSize(graded.Keys, set x | x in rest :: x.id);
    }
  }

  function IdsOf(s: seq<Scored>): (ids: seq<Id>)
    ensures |ids| == |s| && forall i | 0 <= i < |s| :: ids[i] == s[i].id
  {
    seq(|s|, i requires 0 <= i < |s| => s[i].id)
  }

  /** The results are the documents `ids` with their scores, without repeats, and nothing left out
      scores higher than anything returned. */
  ghost predicate BestFirst(documents: map<Id, Document>, graded: map<Id, real>, ids: seq<Id>, results: seq<Hit>) {
    && |ids| == |results|
    && (forall i, j | 0 <= i < j < |ids| :: ids[i] != ids[j])
    && (forall i | 0 <= i < |ids| ::
          ids[i] in documents && ids[i] in graded && results[i] == Hit(documents[ids[i]], graded[ids[i]]))
    && (forall id, i | id in graded && id !in ids && 0 <= i < |ids| :: graded[id] <= results[i].score)
  }

  lemma HitsAreScored(documents: map<Id, Document>, graded: map<Id, real>, ids: seq<Id>, results: seq<Hit>)
    requires BestFirst(documents, graded, ids, results)
    ensures forall r | r in results ::
              exists id :: id in documents && id in graded && r == Hit(documents[id], graded[id])
  {
    forall r | r in results
      ensures exists id :: id in documents && id in graded && r == Hit(documents[id], graded[id])
    {
      var i :| 0 <= i < |results| && results[i] == r;
      assert r == Hit(documents[ids[i]], graded[ids[i]]);
    }
  }

  lemma OmittedScoreLess(graded: map<Id, real>, sorted: seq<Scored>, n: nat, id: Id)
    requires AllScored(graded, sorted) && Descending(sorted) && n <= |sorted|
    requires id in graded && id !in IdsOf(sorted[..n])
    ensures forall i | 0 <= i < n :: graded[id] <= sorted[i].score
  {
    var ids := IdsOf(sorted[..n]);
    assert forall i | 0 <= i < n :: ids[i] == sorted[i].id && ids[i] in ids;
    assert Scored(id, graded[id]) in sorted;
    var k :| 0 <= k < |sorted| && sorted[k] == Scored(id, graded[id]);
    assert k >= n;
  }

  lemma BestAreFirst(documents: map<Id, Document>, graded: map<Id, real>, sorted: seq<Scored>, n: nat,
                     results: seq<Hit>)
    requires AllScored(graded, sorted) && Descending(sorted) && n <= |sorted|
    requires documents.Keys == graded.Keys && |results| == n
    requires forall k | 0 <= k < n :: sorted[k].id in documents
               && results[k] == Hit(documents[sorted[k].id], sorted[k].score)
    ensures BestFirst(documents, graded, IdsOf(sorted[..n]), results)
    ensures forall i, j | 0 <= i < j < n :: results[i].score >= results[j].score
  {
    var ids := IdsOf(sorted[..n]);
    forall i | 0 <= i < n ensures ids[i] == sorted[i].id && results[i] == Hit(documents[ids[i]], graded[ids[i]]) {
      assert sorted[i] in sorted;
    }
    forall i, j | 0 <= i < j < n ensures ids[i] != ids[j] {
      DistinctIds(graded, sorted, i, j);
    }
    forall id, i | id in graded && id !in ids && 0 <= i < n ensures graded[id] <= results[i].score {
      OmittedScoreLess(graded, sorted, n, id);
    }
  }
}
