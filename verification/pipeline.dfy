/** The question-answering pipeline: retrieve the nearest POI documents,
    label them as numbered sources to form a context, and answer either with
    the language model or, when it is unreachable, with a short extract of
    the context. */
module Pipeline {
  import opened Wrappers
  import opened Text
  import opened VectorStore
  import Llm

  /** Documents retrieved per question unless the caller asks otherwise. */
  const TopKResults: nat := 3

  const NoInformationAnswer: string := "I couldn't find relevant information to answer your question."
  const FallbackHeader: string := "Based on the available information:\n\n"
  /** Characters of the context the fallback answer quotes. */
  const FallbackExcerpt: nat := 1000
  const SourceSeparator: string := "\n\n"

  // ------------------------------------------------------------ context

  /** The label of the `i`-th retrieved document, counting from one. */
  function SourceLabel(i: nat, document: string): (l: string)
    ensures "[Source " <= l && l != ""
  {
    "[Source " + NatToString(i) + "]: " + document
  }

  function SourceLabels(docs: seq<SearchHit>): (labels: seq<string>)
    ensures |labels| == |docs|
    ensures forall k :: 0 <= k < |docs| ==> labels[k] == SourceLabel(k + 1, docs[k].document)
  {
    seq(|docs|, k requires 0 <= k < |docs| => SourceLabel(k + 1, docs[k].document))
  }

  /** The context `build_context` returns: the labelled documents, separated
      by blank lines. */
  function Context(docs: seq<SearchHit>): string
  {
    Join(SourceLabels(docs), SourceSeparator)
  }

  /** The context is empty exactly when nothing was retrieved. */
  lemma ContextEmptyIff(docs: seq<SearchHit>)
    ensures Context(docs) == "" <==> docs == []
  {
    JoinEmpty(SourceLabels(docs), SourceSeparator);
  }

  /** The context opens with the first document, labelled as source 1. */
  lemma ContextStartsWithFirstSource(docs: seq<SearchHit>)
    requires docs != []
    ensures "[Source 1]: " + docs[0].document <= Context(docs)
  {
    JoinStartsWithFirst(SourceLabels(docs), SourceSeparator);
    assert NatToString(1) == "1";
  }

  /** One more document adds one more labelled source at the end, numbered
      after the others: sources keep the retrieval order. */
  lemma ContextSnoc(docs: seq<SearchHit>, d: SearchHit)
    requires docs != []
    ensures Context(docs + [d]) == Context(docs) + SourceSeparator + SourceLabel(|docs| + 1, d.document)
  {
    assert SourceLabels(docs + [d]) == SourceLabels(docs) + [SourceLabel(|docs| + 1, d.document)];
    JoinSnoc(SourceLabels(docs), SourceLabel(|docs| + 1, d.document), SourceSeparator);
  }

  /** `build_context`. */
  method BuildContext(docs: seq<SearchHit>) returns (context: string)
    ensures context == Context(docs)
  {
    if docs == [] {
      return "";
    }
    var parts: seq<string> := [];
    for i := 0 to |docs|
      invariant |parts| == i
      invariant forall k :: 0 <= k < i ==> parts[k] == SourceLabel(k + 1, docs[k].document)
    {
      parts := parts + [SourceLabel(i + 1, docs[i].document)];
    }
    assert parts == SourceLabels(docs);
    context := Join(parts, SourceSeparator);
  }

  // ------------------------------------------------------------ fallback

  /** `_fallback_answer`: a fixed message for an empty context, otherwise
      the first thousand characters of the context after a header, followed
      by an ellipsis. */
  function FallbackAnswer(context: string): (a: string)
    ensures a == NoInformationAnswer <==> context == ""
    ensures context != "" ==>
      && FallbackHeader <= a
      && |a| == |FallbackHeader| + (if |context| < FallbackExcerpt then |context| else FallbackExcerpt) + 3
      && a[|FallbackHeader|..|a| - 3] <= context
      && a[|a| - 3..] == "..."
  {
    if context == "" then NoInformationAnswer
    else
      var excerpt := if |context| < FallbackExcerpt then context else context[..FallbackExcerpt];
      var a := FallbackHeader + excerpt + "...";
      assert a[..|FallbackHeader|] == FallbackHeader;
      assert a[|FallbackHeader|..|a| - 3] == excerpt;
      a
  }

  /** Without the language model, the "no information" message is given
      exactly when retrieval found nothing. */
  lemma FallbackIffNothingRetrieved(docs: seq<SearchHit>)
    ensures FallbackAnswer(Context(docs)) == NoInformationAnswer <==> docs == []
  {
    ContextEmptyIff(docs);
  }

  // ------------------------------------------------------------ sources

  /** A source as the answer lists it. */
  datatype SourceInfo = SourceInfo(name: MetaValue, category: MetaValue, rating: MetaValue)

  /** A source with `relevance_score`, one minus the distance. */
  datatype RankedSource = RankedSource(source: SourceInfo, relevanceScore: real)

  /** The name, category and rating of a hit, defaulting to "Unknown", "N/A" and 0. */
  function SourceOf(hit: SearchHit): (s: SourceInfo)
    ensures s.name == (if "name" in hit.metadata then hit.metadata["name"] else Str("Unknown"))
    ensures s.category == (if "category" in hit.metadata then hit.metadata["category"] else Str("N/A"))
    ensures s.rating == (if "rating" in hit.metadata then hit.metadata["rating"] else Num(0.0))
  {
    SourceInfo(Lookup(hit.metadata, "name", Str("Unknown")),
               Lookup(hit.metadata, "category", Str("N/A")),
               Lookup(hit.metadata, "rating", Num(0.0)))
  }

  function Sources(docs: seq<SearchHit>): (ss: seq<SourceInfo>)
    ensures |ss| == |docs|
    ensures forall k :: 0 <= k < |docs| ==> ss[k] == SourceOf(docs[k])
  {
    seq(|docs|, k requires 0 <= k < |docs| => SourceOf(docs[k]))
  }

  function RankedSources(docs: seq<SearchHit>): (rs: seq<RankedSource>)
    ensures |rs| == |docs|
    ensures forall k :: 0 <= k < |docs| ==>
      rs[k].source == SourceOf(docs[k]) && rs[k].relevanceScore + docs[k].distance == 1.0
  {
    seq(|docs|, k requires 0 <= k < |docs| => RankedSource(SourceOf(docs[k]), 1.0 - docs[k].distance))
  }

  /** The relevance score lies in [0, 1] exactly when the distance does;
      nothing clamps it, so a distance above 1 gives a negative score. */
  lemma RelevanceInUnitRange(docs: seq<SearchHit>, k: nat)
    requires k < |docs|
    ensures var r := RankedSources(docs)[k].relevanceScore;
      (0.0 <= r <= 1.0 <==> 0.0 <= docs[k].distance <= 1.0)
      && (docs[k].distance > 1.0 ==> r < 0.0)
  {
  }

  /** A hit on a record the store indexed never falls back to the defaults:
      its source shows the POI's own name, category and rating. */
  lemma IndexedSourceHasNoDefaults(p: IndexablePoi, hit: SearchHit)
    requires hit.metadata == MetadataOf(p)
    ensures SourceOf(hit) == SourceInfo(Str(p.name), Str(p.category), Num(RatingOf(p)))
  {
  }

  // ------------------------------------------------------------ answers

  /** The reply of `query`; the timings it also reports are not modelled. */
  datatype QueryResult = QueryResult(
    answer: string,
    documentsRetrieved: nat,
    llmAvailable: bool,
    sources: Option<seq<RankedSource>>)

  /** What `query_stream` yields, in order. */
  datatype Event =
    | SourcesEvent(sources: seq<SourceInfo>)
    | AnswerEvent(text: string)
    | DoneEvent(documentsRetrieved: nat)

  function AnswerEvents(chunks: seq<string>): (es: seq<Event>)
    ensures |es| == |chunks|
    ensures forall k :: 0 <= k < |es| ==> es[k] == AnswerEvent(chunks[k])
  {
    seq(|chunks|, k requires 0 <= k < |chunks| => AnswerEvent(chunks[k]))
  }

  /** The events of a streamed answer: the sources, the answer chunks, and
      the document count. */
  function StreamEvents(docs: seq<SearchHit>, chunks: seq<string>): seq<Event>
  {
    [SourcesEvent(Sources(docs))] + AnswerEvents(chunks) + [DoneEvent(|docs|)]
  }

  /** A streamed answer yields its sources first and its count last, once
      each, with only answer chunks in between. */
  lemma StreamEventsShape(docs: seq<SearchHit>, chunks: seq<string>)
    ensures var es := StreamEvents(docs, chunks);
      && |es| == |chunks| + 2
      && es[0] == SourcesEvent(Sources(docs))
      && es[|es| - 1] == DoneEvent(|docs|)
      && (forall k :: 0 < k < |es| - 1 ==> es[k] == AnswerEvent(chunks[k - 1]))
  {
  }

  /** A stream that carries no text yields no answer event at all. */
  lemma EmptyStreamHasNoAnswer(docs: seq<SearchHit>)
    ensures StreamEvents(docs, Llm.StreamChunks([], None)) == [SourcesEvent(Sources(docs)), DoneEvent(|docs|)]
  {
  }

  /** The availability `check_llm` reports given the cached value and the
      tags the server would list if asked now. */
  function Probed(cache: Option<bool>, model: string, tags: Llm.TagsReply): bool
  {
    if cache.Some? then cache.value else Llm.Available(model, tags)
  }

  // ------------------------------------------------------------ the pipeline

  /** `RAGPipeline`: the store, the language-model client, and the cached
      availability of the model. */
  class RagPipeline {
    const store: Store
    const llm: Llm.Client
    var llmAvailable: Option<bool>
    /** How many times the model server has been probed. */
    ghost var probes: nat

    constructor (store: Store, llm: Llm.Client)
      ensures this.store == store && this.llm == llm
      ensures llmAvailable == None && probes == 0
    {
      this.store := store;
      this.llm := llm;
      llmAvailable := None;
      probes := 0;
    }

    /** `check_llm`: the server is probed only while no answer is cached;
        afterwards the cached answer is returned and nothing is probed. */
    method CheckLlm(tags: Llm.TagsReply) returns (available: bool)
      modifies this
      ensures available == Probed(old(llmAvailable), llm.model, tags)
      ensures llmAvailable == Some(available)
      ensures old(llmAvailable).Some? ==> llmAvailable == old(llmAvailable) && probes == old(probes)
      ensures old(llmAvailable).None? ==> probes == old(probes) + 1
    {
      if llmAvailable.None? {
        var ok := llm.IsAvailable(tags);
        llmAvailable := Some(ok);
        probes := probes + 1;
      }
      available := llmAvailable.value;
    }

    /** `generate_answer`: the model's answer when it is available, the
        fallback answer otherwise. */
    method GenerateAnswer(question: string, context: string, tags: Llm.TagsReply,
                          server: Llm.Payload -> Llm.GenerateReply) returns (answer: string)
      modifies this
      ensures llmAvailable == Some(Probed(old(llmAvailable), llm.model, tags))
      ensures probes == old(probes) + (if old(llmAvailable).None? then 1 else 0)
      ensures answer == if llmAvailable.value
        then llm.Generate(question, context, Llm.DefaultTemperature, Llm.DefaultMaxTokens, server)
        else FallbackAnswer(context)
    {
      var available := CheckLlm(tags);
      if !available {
        return FallbackAnswer(context);
      }
      answer := llm.Generate(question, context, Llm.DefaultTemperature, Llm.DefaultMaxTokens, server);
    }

    /** `query`: retrieve, build the context, answer, and report the number
        of documents, the availability of the model and, when asked, the
        ranked sources. */
    method Query(question: string, topK: nat := TopKResults, category: Option<string>, returnSources: bool,
                 nearest: (string, nat, Option<map<string, string>>) -> QueryReply,
                 tags: Llm.TagsReply, server: Llm.Payload -> Llm.GenerateReply)
      returns (r: QueryResult)
      requires WellFormed(nearest(question, topK, WhereClause(category)))
      modifies this
      ensures llmAvailable == Some(Probed(old(llmAvailable), llm.model, tags))
      ensures probes == old(probes) + (if old(llmAvailable).None? then 1 else 0)
      ensures var docs := Hits(nearest(question, topK, WhereClause(category)));
        && r.documentsRetrieved == |docs|
        && r.llmAvailable == llmAvailable.value
        && r.answer == (if r.llmAvailable
             then llm.Generate(question, Context(docs), Llm.DefaultTemperature, Llm.DefaultMaxTokens, server)
             else FallbackAnswer(Context(docs)))
        && r.sources == (if returnSources then Some(RankedSources(docs)) else None)
    {
      var docs := store.Search(question, topK, category, nearest);
      var context := BuildContext(docs);
      var answer := GenerateAnswer(question, context, tags, server);
      var available := CheckLlm(tags);
      var sources := None;
      if returnSources {
        sources := Some(RankedSources(docs));
      }
      r := QueryResult(answer, |docs|, available, sources);
    }

    /** `query_stream`: the sources, then the streamed answer chunks (or the
        fallback answer as one chunk), then the document count. */
    method QueryStream(question: string, topK: nat := TopKResults, category: Option<string>,
                       nearest: (string, nat, Option<map<string, string>>) -> QueryReply,
                       tags: Llm.TagsReply, server: Llm.Payload -> Llm.StreamReply)
      returns (events: seq<Event>)
      requires WellFormed(nearest(question, topK, WhereClause(category)))
      modifies this
      ensures llmAvailable == Some(Probed(old(llmAvailable), llm.model, tags))
      ensures probes == old(probes) + (if old(llmAvailable).None? then 1 else 0)
      ensures var docs := Hits(nearest(question, topK, WhereClause(category)));
        var reply := server(llm.RequestPayload(question, Context(docs), true,
                                               Llm.DefaultTemperature, Llm.DefaultMaxTokens));
        events == StreamEvents(docs, if llmAvailable.value
          then Llm.StreamChunks(reply.lines, reply.failure)
          else [FallbackAnswer(Context(docs))])
    {
      var docs := store.Search(question, topK, category, nearest);
      events := [SourcesEvent(Sources(docs))];
      var context := BuildContext(docs);
      var available := CheckLlm(tags);
      var chunks: seq<string>;
      if available {
        chunks := llm.GenerateStream(question, context, Llm.DefaultTemperature, Llm.DefaultMaxTokens, server);
      } else {
        chunks := [FallbackAnswer(context)];
      }
      events := events + AnswerEvents(chunks) + [DoneEvent(|docs|)];
    }

    /** `get_categories`: the store's sorted categories. */
    method GetCategories() returns (categories: seq<string>)
      requires store.Valid()
      ensures StrictlySorted(categories)
      ensures forall c :: c in categories <==>
        exists k :: 0 <= k < Min(1000, |store.collection|) && HasCategory(store.collection[k].metadata, c)
    {
      categories := store.AllCategories();
    }
  }
}
