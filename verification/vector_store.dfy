/** The vector store of points of interest: which enriched POIs become stored
    records, how they are added in batches of a hundred, how a
    nearest-neighbour reply becomes a list of search hits, and the sorted list
    of categories. Embeddings and the similarity search itself belong to the
    collection, which the model treats as an oracle. */
module VectorStore {
  import opened Wrappers
  import opened Text

  /** A metadata value: the store keeps strings and numbers. */
  datatype MetaValue = Str(s: string) | Num(x: real)

  type Metadata = map<string, MetaValue>

  /** `d.get(key, default)` on a metadata dictionary. */
  function Lookup(m: Metadata, key: string, default: MetaValue): MetaValue
  {
    if key in m then m[key] else default
  }

  /** Records are added to the collection this many at a time. */
  const BatchSize: nat := 100

  /** The part of an enriched POI that indexing reads; `reviewData` is the
      `review_data` entry, absent for POIs that have none. */
  datatype IndexablePoi = IndexablePoi(
    id: int,
    name: string,
    category: string,
    lat: real,
    lon: real,
    documentText: Option<string>,
    reviewData: Option<ReviewSummary>)

  datatype ReviewSummary = ReviewSummary(averageRating: Option<real>)

  /** One record of the collection (its embedding is not modelled). */
  datatype StoredRecord = StoredRecord(id: string, document: string, metadata: Metadata)

  // ------------------------------------------------------------ indexing

  /** A POI is indexed when its document text is present and not empty. */
  predicate Indexable(p: IndexablePoi)
  {
    p.documentText.GetOr("") != ""
  }

  /** The POIs that indexing keeps, in input order. */
  function Kept(pois: seq<IndexablePoi>): (kept: seq<IndexablePoi>)
    ensures |kept| <= |pois|
    ensures forall k :: 0 <= k < |kept| ==> Indexable(kept[k]) && kept[k] in pois
    ensures forall p :: p in pois && Indexable(p) ==> p in kept
  {
    if pois == [] then []
    else
      var last := pois[|pois| - 1];
      Kept(pois[..|pois| - 1]) + (if Indexable(last) then [last] else [])
  }

  /** Filtering commutes with concatenation: indexing keeps the input order. */
  lemma {:induction false} KeptConcat(a: seq<IndexablePoi>, b: seq<IndexablePoi>)
    ensures Kept(a + b) == Kept(a) + Kept(b)
    decreases |b|
  {
    if b == [] {
      assert a + b == a;
    } else {
      var b' := b[..|b| - 1];
      assert (a + b)[..|a + b| - 1] == a + b';
      KeptConcat(a, b');
    }
  }

  /** The stored rating: the review summary's average, 0 when either is absent. */
  function RatingOf(p: IndexablePoi): real
  {
    if p.reviewData.Some? then p.reviewData.value.averageRating.GetOr(0.0) else 0.0
  }

  /** The metadata stored with a POI. */
  function MetadataOf(p: IndexablePoi): (m: Metadata)
    ensures m.Keys == {"name", "category", "lat", "lon", "rating"}
    ensures m["name"] == Str(p.name) && m["category"] == Str(p.category)
    ensures m["lat"] == Num(p.lat) && m["lon"] == Num(p.lon) && m["rating"] == Num(RatingOf(p))
  {
    map["name" := Str(p.name), "category" := Str(p.category),
        "lat" := Num(p.lat), "lon" := Num(p.lon), "rating" := Num(RatingOf(p))]
  }

  /** The record stored for an indexable POI. */
  function RecordOf(p: IndexablePoi): StoredRecord
    requires Indexable(p)
  {
    StoredRecord(IntToString(p.id), p.documentText.value, MetadataOf(p))
  }

  /** The records an indexing run stores, in input order. */
  function Records(pois: seq<IndexablePoi>): (rs: seq<StoredRecord>)
    ensures |rs| == |Kept(pois)|
    ensures forall k :: 0 <= k < |rs| ==> rs[k].document != "" && rs[k].metadata.Keys == MetadataOf(Kept(pois)[k]).Keys
    ensures forall k :: 0 <= k < |rs| ==> rs[k].id == IntToString(Kept(pois)[k].id)
  {
    var kept := Kept(pois);
    seq(|kept|, k requires 0 <= k < |kept| => RecordOf(kept[k]))
  }

  /** Chroma's `add` wants each id once: POIs with distinct ids give records
      with distinct ids, and two records of one run never share an id
      unless their POIs do. */
  lemma RecordIdsDistinct(pois: seq<IndexablePoi>, j: nat, k: nat)
    requires j < |Kept(pois)| && k < |Kept(pois)|
    requires Records(pois)[j].id == Records(pois)[k].id
    ensures Kept(pois)[j].id == Kept(pois)[k].id
  {
    IntToStringInjective(Kept(pois)[j].id, Kept(pois)[k].id);
  }

  /** The parallel lists hold, position by position, the id, document text
      and metadata of the given POIs. */
  predicate Prepared(ids: seq<string>, documents: seq<string>, metadatas: seq<Metadata>,
                     kept: seq<IndexablePoi>)
  {
    && |ids| == |kept| && |documents| == |kept| && |metadatas| == |kept|
    && forall k :: 0 <= k < |kept| ==>
         && Indexable(kept[k])
         && ids[k] == IntToString(kept[k].id)
         && documents[k] == kept[k].documentText.value
         && metadatas[k] == MetadataOf(kept[k])
  }

  /** The three parallel lists `index_documents` prepares for the collection. */
  method PrepareRecords(pois: seq<IndexablePoi>)
    returns (ids: seq<string>, documents: seq<string>, metadatas: seq<Metadata>)
    ensures Prepared(ids, documents, metadatas, Kept(pois))
  {
    ids, documents, metadatas := [], [], [];
    for i := 0 to |pois|
      invariant Prepared(ids, documents, metadatas, Kept(pois[..i]))
    {
      assert pois[..i + 1][..i] == pois[..i];
      var poi := pois[i];
      assert Kept(pois[..i + 1]) == Kept(pois[..i]) + (if Indexable(poi) then [poi] else []);
      var docText := poi.documentText.GetOr("");
      if docText == "" {
        continue;
      }
      PreparedSnoc(ids, documents, metadatas, Kept(pois[..i]), poi);
      ids := ids + [IntToString(poi.id)];
      documents := documents + [docText];
      metadatas := metadatas + [MetadataOf(poi)];
    }
    assert pois[..|pois|] == pois;
  }

  /** Appending one indexable POI's entries keeps the lists prepared. */
  lemma PreparedSnoc(ids: seq<string>, documents: seq<string>, metadatas: seq<Metadata>,
                     kept: seq<IndexablePoi>, p: IndexablePoi)
    requires Prepared(ids, documents, metadatas, kept) && Indexable(p)
    ensures Prepared(ids + [IntToString(p.id)], documents + [p.documentText.value],
                     metadatas + [MetadataOf(p)], kept + [p])
  {
  }

  /** The prepared lists, zipped, are the records of the kept POIs. */
  lemma PreparedRecords(pois: seq<IndexablePoi>, ids: seq<string>, documents: seq<string>,
                        metadatas: seq<Metadata>, records: seq<StoredRecord>)
    requires Prepared(ids, documents, metadatas, Kept(pois)) && |records| == |ids|
    requires forall k :: 0 <= k < |records| ==> records[k] == StoredRecord(ids[k], documents[k], metadatas[k])
    ensures records == Records(pois)
    ensures forall k :: 0 <= k < |records| ==> records[k].metadata["category"].Str?
  {
  }

  // ------------------------------------------------------------ batching

  /** The `[start, end)` bounds of the batches from position `from` on, for
      `n` records: `range(from, n, 100)` with `end = min(start + 100, n)`. */
  function BatchBounds(n: nat, from: nat): (bs: seq<(nat, nat)>)
    ensures forall k :: 0 <= k < |bs| ==> from <= bs[k].0 < bs[k].1 <= n
    decreases n - from
  {
    if from >= n then []
    else [(from, Min(from + BatchSize, n))] + BatchBounds(n, from + BatchSize)
  }

  function Min(a: nat, b: nat): nat
  {
    if a <= b then a else b
  }

  /** Batch `k` starts at `from + 100 k` and holds one to a hundred records. */
  lemma {:induction false} BatchStarts(n: nat, from: nat)
    ensures var bs := BatchBounds(n, from);
      forall k :: 0 <= k < |bs| ==>
        bs[k].0 == from + k * BatchSize && bs[k].0 < bs[k].1 <= bs[k].0 + BatchSize
    decreases n - from
  {
    if from < n {
      BatchStarts(n, from + BatchSize);
      var bs := BatchBounds(n, from);
      var rest := BatchBounds(n, from + BatchSize);
      assert forall j :: 0 <= j < |BatchBounds(n, from + BatchSize)| ==>
        BatchBounds(n, from + BatchSize)[j].0 == (from + BatchSize) + j * BatchSize;
      assert bs == [(from, Min(from + BatchSize, n))] + rest;
      forall k | 1 <= k < |bs|
        ensures bs[k].0 == from + k * BatchSize && bs[k].1 <= bs[k].0 + BatchSize
      {
        assert bs[k] == rest[k - 1];
      }
    }
  }

  /** Each batch ends where the next starts, and the last one ends at `n`. */
  lemma {:induction false} BatchesChain(n: nat, from: nat)
    ensures var bs := BatchBounds(n, from);
      && (forall k :: 0 <= k < |bs| - 1 ==> bs[k].1 == bs[k + 1].0)
      && (bs != [] ==> bs[|bs| - 1].1 == n)
    decreases n - from
  {
    if from < n {
      BatchesChain(n, from + BatchSize);
      var bs := BatchBounds(n, from);
      var rest := BatchBounds(n, from + BatchSize);
      assert bs == [(from, Min(from + BatchSize, n))] + rest;
      forall k | 1 <= k < |bs| - 1
        ensures bs[k].1 == bs[k + 1].0
      {
        assert bs[k] == rest[k - 1] && bs[k + 1] == rest[k];
      }
      if rest == [] {
        assert from + BatchSize >= n;
      } else {
        assert bs[|bs| - 1] == rest[|rest| - 1];
        assert bs[0].1 == rest[0].0;
      }
    }
  }

  /** The batches start at every multiple of a hundred below `n`, hold between
      one and a hundred records, and each one ends where the next starts; the
      last one ends at `n`. */
  lemma BatchBoundsShape(n: nat, from: nat)
    ensures var bs := BatchBounds(n, from);
      && (forall k :: 0 <= k < |bs| ==>
            bs[k].0 == from + k * BatchSize && bs[k].0 < bs[k].1 <= bs[k].0 + BatchSize && bs[k].1 <= n)
      && (forall k :: 0 <= k < |bs| - 1 ==> bs[k].1 == bs[k + 1].0)
      && (bs == [] <==> from >= n)
      && (bs != [] ==> bs[|bs| - 1].1 == n)
  {
    BatchStarts(n, from);
    BatchesChain(n, from);
  }

  /** The records of the batches, one after another. */
  function Flatten(rs: seq<StoredRecord>, bs: seq<(nat, nat)>): seq<StoredRecord>
    requires forall k :: 0 <= k < |bs| ==> bs[k].0 <= bs[k].1 <= |rs|
  {
    if bs == [] then [] else rs[bs[0].0..bs[0].1] + Flatten(rs, bs[1..])
  }

  /** Adding the batches in order stores every record exactly once, in order. */
  lemma {:induction false} BatchesCoverRecords(rs: seq<StoredRecord>, from: nat)
    requires from <= |rs|
    ensures Flatten(rs, BatchBounds(|rs|, from)) == rs[from..]
    decreases |rs| - from
  {
    if from < |rs| {
      var end := Min(from + BatchSize, |rs|);
      if end < |rs| {
        BatchesCoverRecords(rs, end);
        assert rs[from..] == rs[from..end] + rs[end..];
      } else {
        assert BatchBounds(|rs|, from + BatchSize) == [];
      }
    }
  }

  // ------------------------------------------------------------ search

  /** The collection's reply to a nearest-neighbour query: each field holds one
      list per query embedding, and a field the reply leaves empty is `[]`. */
  datatype QueryReply = QueryReply(
    ids: seq<seq<string>>,
    documents: seq<seq<string>>,
    metadatas: seq<seq<Metadata>>,
    distances: seq<seq<real>>)

  /** One search result. */
  datatype SearchHit = SearchHit(document: string, metadata: Metadata, distance: real, id: Option<string>)

  /** The parallel lists of a reply are at least as long as its document list. */
  predicate WellFormed(r: QueryReply)
  {
    r.documents != [] ==>
      && (r.metadatas != [] ==> |r.metadatas[0]| >= |r.documents[0]|)
      && (r.distances != [] ==> |r.distances[0]| >= |r.documents[0]|)
      && (r.ids != [] ==> |r.ids[0]| >= |r.documents[0]|)
  }

  /** The filter a search passes to the collection: one on the category, and
      only when the requested category is present and not empty. */
  function WhereClause(categoryFilter: Option<string>): (w: Option<map<string, string>>)
    ensures w.Some? <==> categoryFilter.Some? && categoryFilter.value != ""
    ensures w.Some? ==> w.value.Keys == {"category"} && w.value["category"] == categoryFilter.value
  {
    if categoryFilter.Some? && categoryFilter.value != "" then Some(map["category" := categoryFilter.value])
    else None
  }

  /** The `i`-th hit of the first query's results; a missing metadata,
      distance or id list yields `{}`, `0` and `None`. */
  function HitAt(r: QueryReply, i: nat): (h: SearchHit)
    requires WellFormed(r) && r.documents != [] && i < |r.documents[0]|
    ensures h.document == r.documents[0][i]
    ensures h.metadata == (if r.metadatas == [] then map[] else r.metadatas[0][i])
    ensures h.distance == (if r.distances == [] then 0.0 else r.distances[0][i])
    ensures h.id.Some? <==> r.ids != []
    ensures h.id.Some? ==> h.id.value == r.ids[0][i]
  {
    SearchHit(
      r.documents[0][i],
      if r.metadatas != [] then r.metadatas[0][i] else map[],
      if r.distances != [] then r.distances[0][i] else 0.0,
      if r.ids != [] then Some(r.ids[0][i]) else None)
  }

  /** The hits of a reply: one per document of the first query, in rank order;
      none when the reply has no document list. */
  function Hits(r: QueryReply): (hs: seq<SearchHit>)
    requires WellFormed(r)
    ensures r.documents == [] ==> hs == []
    ensures r.documents != [] ==> |hs| == |r.documents[0]|
  {
    if r.documents == [] then []
    else seq(|r.documents[0]|, i requires 0 <= i < |r.documents[0]| => HitAt(r, i))
  }

  /** The result formatting loop of `search`. */
  method FormatResults(r: QueryReply) returns (hits: seq<SearchHit>)
    requires WellFormed(r)
    ensures hits == Hits(r)
  {
    hits := [];
    if r.documents != [] {
      var docs := r.documents[0];
      for i := 0 to |docs|
        invariant |hits| == i
        invariant forall k :: 0 <= k < i ==> hits[k] == HitAt(r, k)
      {
        var metadata := if r.metadatas != [] then r.metadatas[0][i] else map[];
        var distance := if r.distances != [] then r.distances[0][i] else 0.0;
        var id := if r.ids != [] then Some(r.ids[0][i]) else None;
        hits := hits + [SearchHit(docs[i], metadata, distance, id)];
      }
    }
  }

  // ------------------------------------------------------------ categories

  /** The categories named by a list of metadata entries. */
  function CategorySet(ms: seq<Metadata>): set<string>
  {
    if ms == [] then {}
    else
      var m := ms[|ms| - 1];
      CategorySet(ms[..|ms| - 1]) + (if "category" in m && m["category"].Str? then {m["category"].s} else {})
  }

  predicate HasCategory(m: Metadata, c: string)
  {
    "category" in m && m["category"] == Str(c)
  }

  /** A category is collected exactly when some entry carries it. */
  lemma {:induction false} CategorySetIff(ms: seq<Metadata>, c: string)
    ensures c in CategorySet(ms) <==> exists k :: 0 <= k < |ms| && HasCategory(ms[k], c)
  {
    if ms != [] {
      var init := ms[..|ms| - 1];
      CategorySetIff(init, c);
      if c in CategorySet(init) {
        var k :| 0 <= k < |init| && HasCategory(init[k], c);
        assert ms[k] == init[k];
      }
      if exists k :: 0 <= k < |ms| && HasCategory(ms[k], c) {
        var k :| 0 <= k < |ms| && HasCategory(ms[k], c);
        if k < |init| {
          assert init[k] == ms[k];
        }
      }
    }
  }

  /** Every category value is a string. */
  predicate CategoriesAreText(ms: seq<Metadata>)
  {
    forall k :: 0 <= k < |ms| && "category" in ms[k] ==> ms[k]["category"].Str?
  }

  /** The categories of a list of metadata entries, sorted, without repeats. */
  method SortedCategories(ms: seq<Metadata>) returns (categories: seq<string>)
    ensures StrictlySorted(categories)
    ensures forall c :: c in categories <==> c in CategorySet(ms)
  {
    var found: set<string> := {};
    for i := 0 to |ms|
      invariant found == CategorySet(ms[..i])
    {
      assert ms[..i + 1][..i] == ms[..i];
      var m := ms[i];
      if "category" in m && m["category"].Str? {
        found := found + {m["category"].s};
      }
    }
    assert ms[..|ms|] == ms;
    categories := [];
    var rest := found;
    while rest != {}
      invariant rest <= found
      invariant forall c :: c in found <==> c in rest || c in categories
      invariant StrictlySorted(categories)
      invariant forall i, c :: 0 <= i < |categories| && c in rest ==> Less(categories[i], c)
      decreases rest
    {
      ghost var least := HasLeast(rest);
      var m :| m in rest && forall x :: x in rest && x != m ==> Less(m, x);
      categories := categories + [m];
      rest := rest - {m};
    }
  }

  // ------------------------------------------------------------ the store

  /** The collection `czestochowa_pois`: its records in insertion order. */
  class Store {
    var collection: seq<StoredRecord>
    /** The `[start, end)` bounds of the `add` calls of the last indexing run. */
    ghost var batches: seq<(nat, nat)>

    /** Every stored category is a string. */
    predicate Valid()
      reads this
    {
      forall k :: 0 <= k < |collection| && "category" in collection[k].metadata ==>
        collection[k].metadata["category"].Str?
    }

    /** Opening the persisted collection: it holds whatever an earlier run
        stored, and nothing has been added in this run yet. */
    constructor (persisted: seq<StoredRecord>)
      requires forall k :: 0 <= k < |persisted| && "category" in persisted[k].metadata ==>
        persisted[k].metadata["category"].Str?
      ensures collection == persisted && batches == [] && Valid()
    {
      collection := persisted;
      batches := [];
    }

    /** `index_documents`: a non-empty collection is left alone unless a
        re-index is forced; otherwise the collection ends up holding exactly
        the records of the POIs with a document text, added a hundred at a time. */
    method IndexDocuments(pois: seq<IndexablePoi>, forceReindex: bool)
      modifies this
      ensures |old(collection)| > 0 && !forceReindex ==>
        collection == old(collection) && batches == old(batches)
      ensures !(|old(collection)| > 0 && !forceReindex) ==>
        collection == Records(pois) && batches == BatchBounds(|Records(pois)|, 0)
      ensures old(Valid()) ==> Valid()
    {
      if |collection| > 0 && !forceReindex {
        return;
      }
      if forceReindex && |collection| > 0 {
        collection := [];
      }
      var ids, documents, metadatas := PrepareRecords(pois);
      var n := |ids|;
      var records := seq(n, k requires 0 <= k < n => StoredRecord(ids[k], documents[k], metadatas[k]));
      PreparedRecords(pois, ids, documents, metadatas, records);
      AddInBatches(records);
    }

    /** The batch loop: `records` is added to the empty collection a hundred
        at a time, in order. */
    method AddInBatches(records: seq<StoredRecord>)
      requires collection == []
      modifies this
      ensures collection == records && batches == BatchBounds(|records|, 0)
    {
      var n := |records|;
      batches := [];
      var i := 0;
      while i < n
        invariant collection == records[..Min(i, n)]
        invariant batches + BatchBounds(n, i) == BatchBounds(n, 0)
        decreases n - i
      {
        var end := Min(i + BatchSize, n);
        assert BatchBounds(n, i) == [(i, end)] + BatchBounds(n, i + BatchSize);
        collection := collection + records[i..end];
        batches := batches + [(i, end)];
        i := i + BatchSize;
      }
      assert collection == records;
    }

    /** `search`: the query goes to the collection with the category filter,
        and the hits are read off the first query's reply. The embedding and
        the similarity search are the `nearest` oracle. */
    method Search(query: string, topK: nat, categoryFilter: Option<string>,
                  nearest: (string, nat, Option<map<string, string>>) -> QueryReply)
      returns (hits: seq<SearchHit>)
      requires WellFormed(nearest(query, topK, WhereClause(categoryFilter)))
      ensures hits == Hits(nearest(query, topK, WhereClause(categoryFilter)))
    {
      var whereClause := WhereClause(categoryFilter);
      var reply := nearest(query, topK, whereClause);
      hits := FormatResults(reply);
    }

    /** The metadata of the first thousand records, as `get(limit=1000)` returns it. */
    function Sample(): (ms: seq<Metadata>)
      reads this
      ensures |ms| == Min(1000, |collection|)
      ensures forall k :: 0 <= k < |ms| ==> ms[k] == collection[k].metadata
    {
      seq(Min(1000, |collection|), k requires 0 <= k < Min(1000, |collection|) reads this =>
        collection[k].metadata)
    }

    /** `get_all_categories`: the categories of the sampled records, sorted and
        without repeats. */
    method AllCategories() returns (categories: seq<string>)
      requires Valid()
      ensures StrictlySorted(categories)
      ensures forall c :: c in categories <==>
        exists k :: 0 <= k < Min(1000, |collection|) && HasCategory(collection[k].metadata, c)
    {
      var ms := Sample();
      categories := SortedCategories(ms);
      forall c ensures c in categories <==>
        exists k :: 0 <= k < Min(1000, |collection|) && HasCategory(collection[k].metadata, c)
      {
        CategorySetIff(ms, c);
        if c in categories {
          var k :| 0 <= k < |ms| && HasCategory(ms[k], c);
          assert HasCategory(collection[k].metadata, c);
        }
        if exists k :: 0 <= k < Min(1000, |collection|) && HasCategory(collection[k].metadata, c) {
          var k :| 0 <= k < Min(1000, |collection|) && HasCategory(collection[k].metadata, c);
          assert HasCategory(ms[k], c);
        }
      }
    }
  }
}
