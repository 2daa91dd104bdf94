# Częstochowa city guide — a verified model of its core

The city guide answers questions about points of interest (POIs) in
Częstochowa. It works in three stages.

- **Data preparation.** POIs are fetched from OpenStreetMap and classified
  by their tags. Each POI is given a few sample reviews and a one-paragraph
  document text.
- **Indexing.** The documents are stored in a vector collection.
- **Answering.** A question is answered by retrieval-augmented generation:
  - the nearest documents are retrieved;
  - they are laid out as a numbered context;
  - a locally served language model answers from that context. When the
    model is not available, an extractive fallback answers instead.

An evaluation module scores the answers and summarises the scores.

The model covers the repository's own logic in nine Dafny modules. The
vector database, the model server, the map API, embeddings, the clock and
randomness appear only as inputs.

- `Wrappers` (wrappers.dfy): `Option`.
- `Text` (text.dfy): the Python string operations the code relies on. These
  are `" ".join`, `str(n)`, `split(":")[0]`, `replace`, `in`, `strip()`,
  `split()` and string ordering with `sorted`.
- `Stats` (stats.dfy): the total, mean, minimum and maximum of a list of
  values, as `sum`, `np.mean`, `np.min` and `np.max` compute them.
- `FetchOsm` (fetch_osm.dfy):
  - the priority-ordered classifier `determine_category`, together with an
    equivalent rule table;
  - the element filter and field-defaulting loop of `fetch_osm_data`.
- `Reviews` (reviews.dfy):
  - the review templates;
  - `generate_reviews_for_poi`, with every random choice passed in as a
    `Draw`;
  - `create_document_text`.
- `VectorStore` (vector_store.dfy): the `Store` class holds the collection as
  a sequence of records. Modelled here:
  - record preparation in `index_documents` and its batches of a hundred;
  - the `search` where-clause and result formatting;
  - the sorted category list.
- `Llm` (llm.dfy): the `Client` class holds the model name. Modelled here:
  - model-name matching;
  - `set_model`;
  - prompt construction;
  - reading of non-streamed and streamed replies.
- `Pipeline` (pipeline.dfy): the `RagPipeline` class holds the cached
  availability flag. Modelled here:
  - `check_llm`, `build_context`, `_fallback_answer` and `generate_answer`;
  - the result of `query`;
  - the event sequence of `query_stream`.
- `Metrics` (metrics.dfy):
  - the keyword-overlap ratio;
  - the relevance, length and latency scores;
  - the weighted combined score;
  - the `EvaluationReport` accumulator and its summary.

How the outside world enters the model:

- HTTP replies are values:
  - the reply of `GET /api/tags` is a `TagsReply`;
  - the generate endpoint is a function from the posted `Payload` to a
    `GenerateReply` or a `StreamReply`;
  - the Overpass reply is an `OverpassReply`.
- The nearest-neighbour search of the collection is a function from the
  query, `top_k` and the where-clause to a `QueryReply`.
- `str.lower` is a parameter `lower`.
- The semantic similarity is a parameter `similarity`.
- The text shape of a float average inside the document text is a parameter
  `showRating`.
- Scores are exact `real`s.

## Model

| member | source | states |
|---|---|---|
| Text.JoinStartsWithFirst | data/generate_reviews.py:353 | the first part opens `sep.join(parts)` |
| Text.JoinEmpty | rag/pipeline.py:45-49 | joining non-empty parts gives "" exactly when there are no parts |
| Text.JoinSnoc | rag/pipeline.py:45-49 | one more part appends the separator and that part |
| Text.NatToString | rag/vector_store.py:63 | `str(n)` is a non-empty string of decimal digits with no leading zero |
| Text.ParseNatToString | rag/vector_store.py:63 | reading the decimal rendering back gives the number |
| Text.NatToStringInjective | rag/vector_store.py:63 | distinct non-negative numbers give distinct decimal strings |
| Text.IntToString | rag/vector_store.py:63 | `str(i)` is the digits of a non-negative i, or "-" and the digits of -i |
| Text.IntToStringInjective | rag/vector_store.py:63 | distinct integers, negative ones included, give distinct id strings |
| Text.BeforeFirst | rag/llm.py:32 | `s.split(c)[0]` is a prefix of s without c; it is all of s when s has no c; otherwise it stops right before the first c |
| Text.ReplaceChar | data/generate_reviews.py:308 | a one-character replace leaves a text without that character unchanged, removes the character when the replacement lacks it, and introduces no other characters |
| Text.ContainsIff | evaluation/metrics.py:27 | `sub in s` holds exactly when sub starts at some position of s |
| Text.ReplaceAbsent | data/generate_reviews.py:281-285 | `replace` leaves a text without the pattern unchanged |
| Text.ReplaceFirst | data/generate_reviews.py:285 | the first occurrence of the pattern is replaced when nothing before it can start one |
| Text.Strip | rag/llm.py:94 | `strip()` leaves no white space at either end |
| Text.StripShape | rag/llm.py:94 | `strip()` removes only white space, and only at the two ends |
| Text.Words | evaluation/metrics.py:117 | `split()` returns non-empty words with no white space in them |
| Text.WordsEmpty | evaluation/metrics.py:117 | a text has no words exactly when it is all white space |
| Text.LessIrreflexive | rag/vector_store.py:130 | no string sorts before itself |
| Text.LessTransitive | rag/vector_store.py:130 | string order is transitive |
| Text.LessTotal | rag/vector_store.py:130 | of two distinct strings, one sorts before the other |
| Text.StrictlySortedDistinct | rag/vector_store.py:130 | a strictly sorted list holds each string at most once |
| Text.StrictlySortedUnique | rag/vector_store.py:130 | two strictly sorted lists with the same elements are equal, so `sorted(set)` is determined by the set |
| FetchOsm.DetermineCategory | data/fetch_osm_data.py:150-179 | the result is always one of the fourteen category labels |
| FetchOsm.FirstMatchWins | data/fetch_osm_data.py:150-179 | in the rule table, the first rule that holds decides |
| FetchOsm.FirstMatchNone | data/fetch_osm_data.py:178-179 | when no rule holds the result is "other" |
| FetchOsm.DetermineCategoryIsFirstMatch | data/fetch_osm_data.py:150-179 | the if/elif chain equals first-match over the rule table, in the source's order |
| FetchOsm.RestaurantBeforeMuseum | data/fetch_osm_data.py:152-157 | `amenity=restaurant` beats `tourism=museum` |
| FetchOsm.HistoricBeforeBar | data/fetch_osm_data.py:166-171 | a `historic` key, whatever its value, beats `amenity=pub` |
| FetchOsm.EmptyShopIsNoShop | data/fetch_osm_data.py:172-179 | for any tags with an empty `shop` value, the category is none of the shop categories, and it is the category the tags get without the `shop` key |
| FetchOsm.PoiOf | data/fetch_osm_data.py:99-142 | an element yields a POI exactly when it has a name and usable (present, non-zero) coordinates. The POI carries the element's id, its name and category, name:en defaulting to the name, node or center coordinates, and the city defaulting to Częstochowa |
| FetchOsm.Pois | data/fetch_osm_data.py:97-144 | the loop keeps at most one POI per element |
| FetchOsm.PoisKeepAll | data/fetch_osm_data.py:97-144 | one POI per element exactly when every element yields a POI: the loop skips nothing else |
| FetchOsm.PoisConcat | data/fetch_osm_data.py:98-144 | extraction keeps element order: the POIs of a + b are those of a, then those of b |
| FetchOsm.PoisWellFormed | data/fetch_osm_data.py:98-144 | every POI comes from some element, has a valid category and has non-zero coordinates |
| FetchOsm.FetchOsmData | data/fetch_osm_data.py:85-147 | a failed request yields no POIs; otherwise the loop's result is the POIs of the elements, in order |
| Reviews.TemplatesWellFormed | data/generate_reviews.py:266 | every category's templates, or the defaults, are non-empty groups with base ratings 3 to 5 and at least one text |
| Reviews.SomeDraw | data/generate_reviews.py:272-290 | every category admits a valid draw, so every POI can get reviews |
| Reviews.ClampRating | data/generate_reviews.py:276 | `max(1, min(5, r))` lies in [1, 5]; it equals r inside the range, 1 below it and 5 above it |
| Reviews.CuisineName | data/generate_reviews.py:282-285 | "Polish" for an empty cuisine; otherwise the text before the first `;` |
| Reviews.FillTemplate | data/generate_reviews.py:281-285 | a text without `{cuisine}` is unchanged |
| Reviews.CuisineTemplateFilled | data/generate_reviews.py:281-285 | the cuisine template reads its text with the cuisine name in place of the placeholder |
| Reviews.Pad2 | data/generate_reviews.py:290 | `f"{n:02d}"` for n < 100 is two decimal digits whose value is n |
| Reviews.ParsePad2 | data/generate_reviews.py:290 | the two-digit month or day reads back as the number |
| Reviews.DateFields | data/generate_reviews.py:290 | a date has ten characters, "202" then the year digit, dashes at positions 4 and 7, and fields that read back as the drawn year, month and day |
| Reviews.ReviewFrom | data/generate_reviews.py:273-291 | the rating is the clamped base rating plus the variation and lies in [1, 5]; the text is the drawn template filled; the date has ten characters |
| Reviews.Ratings | data/generate_reviews.py:294 | one rating per review, in order, each the review's rating |
| Reviews.AverageRating | data/generate_reviews.py:294 | 0 for no reviews; otherwise the average times the count is the sum of the ratings, and it lies in [1, 5] |
| Reviews.DrawReviews | data/generate_reviews.py:272-294 | one review per draw, in draw order, each equal to ReviewFrom of its draw; the total is the count; the average is the mean |
| Reviews.GenerateReviewsForPoi | data/generate_reviews.py:263-300 | one to four reviews from the category's templates; ratings lie in [1, 5]; `total_reviews` is the count; the average is the mean and lies in [1, 5] |
| Reviews.Header | data/generate_reviews.py:308 | the opening sentence starts with the POI's name |
| Reviews.CuisineText | data/generate_reviews.py:328 | the cuisine list shown has no `;` and no `_` |
| Reviews.ReviewParts | data/generate_reviews.py:343-351 | nothing without reviews; otherwise the rating summary and then one line for each of at most the first two reviews |
| Reviews.CreateDocumentText | data/generate_reviews.py:303-353 | the document is the optional sentences, in the source's order, joined by single spaces |
| Reviews.Describe | data/generate_reviews.py:305-324 | header, then the "also known as", location and opening-hours sentences, each only when its condition holds |
| Reviews.AppendDetails | data/generate_reviews.py:326-340 | appends the cuisine, description, website and phone sentences, each only when present, and keeps what was there |
| Reviews.AppendReviewSummary | data/generate_reviews.py:342-351 | appends the review part and keeps what was there |
| Reviews.When | data/generate_reviews.py:311-341 | an optional sentence is included exactly when its condition holds, and then verbatim |
| Reviews.DocumentStartsWithHeader | data/generate_reviews.py:308 | every document text opens with the header sentence, so it names the POI |
| VectorStore.Kept | rag/vector_store.py:58-61 | the kept POIs are exactly those with a non-empty document text, drawn from the input |
| VectorStore.KeptConcat | rag/vector_store.py:58-61 | filtering keeps input order |
| VectorStore.MetadataOf | rag/vector_store.py:65-71 | the metadata has exactly the keys name, category, lat, lon and rating; the rating defaults to 0 |
| VectorStore.Records | rag/vector_store.py:54-71 | one record per kept POI, in order: its id is `str(poi.id)`, its document is non-empty, and its metadata has the five keys |
| VectorStore.RecordIdsDistinct | rag/vector_store.py:63 | two records of one run share an id only when their POIs do |
| VectorStore.PrepareRecords | rag/vector_store.py:54-71 | the three lists have one aligned entry per kept POI, in input order: its id string, its document text and its metadata |
| VectorStore.PreparedRecords | rag/vector_store.py:54-86 | the zipped lists are the stored records, and every stored category is a string |
| VectorStore.BatchBounds | rag/vector_store.py:78-80 | each batch `[i, min(i+100, n))` is a non-empty range inside `[0, n)` |
| VectorStore.BatchBoundsShape | rag/vector_store.py:78-80 | batch k starts at 100k and holds 1 to 100 records; each batch ends where the next starts; the last one ends at n; there are no batches exactly when n is 0 |
| VectorStore.BatchesCoverRecords | rag/vector_store.py:78-86 | the batches, one after another, hold every record exactly once, in order |
| VectorStore.Store.constructor | rag/vector_store.py:21-33 | opening the store gives the persisted collection as it is, with nothing added in this run |
| VectorStore.Store.IndexDocuments | rag/vector_store.py:35-89 | a non-empty collection is left alone without force_reindex; otherwise the collection becomes exactly the prepared records, added in the batches above |
| VectorStore.Store.AddInBatches | rag/vector_store.py:78-87 | the batch loop adds every record, in order |
| VectorStore.WhereClause | rag/vector_store.py:97-99 | a where-clause `{"category": filter}` is passed exactly when the filter is present and not empty |
| VectorStore.HitAt | rag/vector_store.py:113-118 | a hit carries its document, its metadata or `{}`, its distance or 0, and its id or None, from the first query's lists |
| VectorStore.Hits | rag/vector_store.py:110-120 | one hit per returned document; none when the reply has no documents |
| VectorStore.FormatResults | rag/vector_store.py:110-120 | the formatting loop returns exactly those hits, in order |
| VectorStore.Store.Search | rag/vector_store.py:91-120 | the hits of the collection's reply to the query with the category where-clause |
| VectorStore.CategorySetIff | rag/vector_store.py:126-129 | a category is collected exactly when some metadata entry carries it |
| VectorStore.SortedCategories | rag/vector_store.py:126-130 | the result is strictly sorted (no duplicates) and holds exactly the collected categories |
| VectorStore.Store.Sample | rag/vector_store.py:125 | `get(limit=1000)` returns the metadata of the first min(1000, n) records |
| VectorStore.Store.AllCategories | rag/vector_store.py:122-130 | sorted, without duplicates, and exactly the categories of the sampled records |
| Llm.Family | rag/llm.py:32 | the family is a prefix of the model name without `:` |
| Llm.SameFamilyMatches | rag/llm.py:31-33 | another tag of the same family matches |
| Llm.LongerFamilyMatches | rag/llm.py:32 | the match is a prefix test: a name of a different, longer family also matches |
| Llm.AvailableModels | rag/llm.py:40-49 | one name per listed model on status 200; an empty list otherwise |
| Llm.AvailableIffListed | rag/llm.py:23-49 | `is_available` holds exactly when a name from `get_available_models` matches |
| Llm.PromptLayout | rag/llm.py:99-117 | the prompt is the instructions, then the context verbatim, then "Question: " and the question verbatim, and it ends with "Answer:" |
| Llm.RagPromptInjective | rag/llm.py:99-117 | given the context's length, the prompt determines both the question and the context |
| Llm.PromptFor | rag/llm.py:69-73 | an empty context sends the prompt unchanged; otherwise the RAG prompt is sent |
| Llm.ReadReply | rag/llm.py:91-97 | a failed request gives the "Error communicating with Ollama: " text; a missing response gives ""; otherwise the answer has no white space at either end |
| Llm.StreamStopsAtDone | rag/llm.py:146-152 | nothing after the first line marked done is read, not even a later failure |
| Llm.StreamChunksBound | rag/llm.py:146-155 | at most one chunk per line, plus one error chunk when the connection fails |
| Llm.StreamFailureAlone | rag/llm.py:154-155 | a request that fails before any line yields exactly one "Error: " chunk |
| Llm.StreamStep | rag/llm.py:146-152 | reading one more line: a line that ends the stream completes the chunks; any other line leaves the rest of the stream still to read |
| Llm.ReadLine | rag/llm.py:147-152 | a line yields its response if it has one, and says whether it ends the stream |
| Llm.ReadStream | rag/llm.py:146-155 | the loop yields exactly the chunks that StreamChunks describes |
| Llm.Client.constructor | rag/llm.py:17-21 | the client starts with the given model, by default the configured one, and the given base URL |
| Llm.Client.CurrentModel | rag/llm.py:51-53 | `get_current_model` is the stored model name |
| Llm.Client.IsAvailable | rag/llm.py:23-38 | true exactly on status 200 with some listed name matching the model |
| Llm.Client.SetModel | rag/llm.py:55-63 | switches to the requested model and returns true exactly when some available name matches it; otherwise the model is unchanged; after a switch the model is available |
| Llm.Client.RequestPayload | rag/llm.py:75-83 | the payload names the current model and the selected prompt |
| Llm.Client.Generate | rag/llm.py:65-97 | a failed request yields the error text instead of an exception |
| Llm.Client.GenerateStream | rag/llm.py:119-155 | the chunks are those of the stream the server returns for the payload |
| Pipeline.SourceLabel | rag/pipeline.py:47 | a label starts with "[Source " |
| Pipeline.SourceLabels | rag/pipeline.py:45-47 | one label per document, numbered from 1 in retrieval order |
| Pipeline.ContextEmptyIff | rag/pipeline.py:40-49 | the context is "" exactly when nothing was retrieved |
| Pipeline.ContextStartsWithFirstSource | rag/pipeline.py:45-49 | the context opens with "[Source 1]: " and the first document verbatim |
| Pipeline.ContextSnoc | rag/pipeline.py:45-49 | one more document appends "\n\n" and its label, numbered n + 1 |
| Pipeline.BuildContext | rag/pipeline.py:40-49 | the loop builds exactly that context |
| Pipeline.FallbackAnswer | rag/pipeline.py:58-64 | the fixed message exactly for an empty context; otherwise the header, the first min(1000, n) characters of the context, and "..." |
| Pipeline.FallbackIffNothingRetrieved | rag/pipeline.py:58-64 | the fallback is the "no information" message exactly when nothing was retrieved |
| Pipeline.SourceOf | rag/pipeline.py:112-114 | name, category and rating default to "Unknown", "N/A" and 0 |
| Pipeline.Sources | rag/pipeline.py:136-143 | one source per document, in order |
| Pipeline.RankedSources | rag/pipeline.py:110-118 | one source per document, in order, with relevance score plus distance equal to 1 |
| Pipeline.RelevanceInUnitRange | rag/pipeline.py:115 | the relevance score lies in [0, 1] exactly when the distance does; a distance above 1 gives a negative score |
| Pipeline.IndexedSourceHasNoDefaults | rag/pipeline.py:112-114 | a hit on an indexed record shows that POI's own name, category and rating |
| Pipeline.AnswerEvents | rag/pipeline.py:151-152 | one answer event per chunk, in order |
| Pipeline.StreamEventsShape | rag/pipeline.py:144-156 | sources first, the count last, and only answer events in between |
| Pipeline.EmptyStreamHasNoAnswer | rag/pipeline.py:150-152 | a model stream with no text yields no answer event |
| Pipeline.RagPipeline.constructor | rag/pipeline.py:19-26 | the availability cache starts unset |
| Pipeline.RagPipeline.CheckLlm | rag/pipeline.py:28-32 | the server is probed once, while nothing is cached; afterwards the cached value is returned and nothing is probed |
| Pipeline.RagPipeline.GenerateAnswer | rag/pipeline.py:51-56 | the model's answer when it is available; the fallback answer otherwise |
| Pipeline.RagPipeline.Query | rag/pipeline.py:66-120 | `top_k` defaults to 3; the answer is generated from the context of the retrieved documents; the result reports their count, the cached availability and, only when asked, the ranked sources |
| Pipeline.RagPipeline.QueryStream | rag/pipeline.py:122-156 | the events are the sources, then the model's chunks (or the fallback answer as one chunk), then the count |
| Pipeline.RagPipeline.GetCategories | rag/pipeline.py:158-160 | the store's categories, sorted and without duplicates |
| Stats.MinOf | evaluation/metrics.py:189 | the minimum is one of the values and bounds every value from below |
| Stats.MaxOf | evaluation/metrics.py:190 | the maximum is one of the values and bounds every value from above |
| Stats.TotalBounds | data/generate_reviews.py:294 | n values in [lo, hi] add up to between n·lo and n·hi |
| Stats.MeanBounds | evaluation/metrics.py:97 | the mean of values in [lo, hi] lies in [lo, hi] |
| Stats.MeanBetweenExtremes | evaluation/metrics.py:188-190 | min <= mean <= max |
| Metrics.MatchCount | evaluation/metrics.py:27 | at most one match per keyword; all keywords match exactly when each lowercased keyword occurs in the lowercased answer |
| Metrics.OverlapScore | evaluation/metrics.py:16-28 | the score lies in [0, 1]; it is 0 for an empty answer or no keywords; it is 1 exactly when every keyword occurs |
| Metrics.DocScore | evaluation/metrics.py:83-95 | a document's score lies in [0, 1]; a missing distance gives 0; a distance of 0 or below gives 1 |
| Metrics.BonusNeverLowers | evaluation/metrics.py:90-93 | the category bonus never lowers a document's score |
| Metrics.DocScores | evaluation/metrics.py:81-95 | one score per document, each in [0, 1] |
| Metrics.RelevanceInUnitRange | evaluation/metrics.py:69-97 | the relevance lies in [0, 1] |
| Metrics.RelevanceScore | evaluation/metrics.py:69-97 | the loop computes the mean document score, 0 for no documents, in [0, 1] |
| Metrics.LengthScoreOf | evaluation/metrics.py:117-119 | both branches amount to min(words / 50, 1), which lies in [0, 1] |
| Metrics.LatencyScoreOf | evaluation/metrics.py:131 | `max(0, 1 - latency/5000)` is at least 0 and at most 1 for a non-negative latency; it is positive exactly below 5000 ms |
| Metrics.WeightedSumBounds | evaluation/metrics.py:142-147 | with scores in [0, 1], the weighted sum lies between 0 and the total weight of the present metrics |
| Metrics.WeightedAverageInUnitRange | evaluation/metrics.py:142-149 | with the weighted scores in [0, 1], the combined score lies in [0, 1] |
| Metrics.CombineScores | evaluation/metrics.py:142-149 | the accumulation loop computes the weighted average over the present metrics, or 0 when their weights add up to 0 |
| Metrics.AlwaysWeighted | evaluation/metrics.py:111-119 | the three metrics that are always present carry a weight of at least 0.7, so the division is never by 0 |
| Metrics.ScoreMetrics | evaluation/metrics.py:108-131 | keyword overlap, similarity, length and length score are always present; relevance is present exactly when there are sources; latency and latency score exactly when a latency is given; each value is its formula |
| Metrics.ScoreMetricsWeighted | evaluation/metrics.py:133-149 | the weights present add up to at least 0.7; with similarity in [0, 1] and a non-negative latency, the combined score lies in [0, 1] |
| Metrics.CombinedIgnoresItself | evaluation/metrics.py:149 | storing `combined_score` changes neither the weighted average nor the total weight |
| Metrics.EvaluateResponse | evaluation/metrics.py:100-151 | the metrics are the scored ones plus `combined_score`, and `combined_score` is the weighted average of the returned metrics |
| Metrics.Shortened | evaluation/metrics.py:164 | an answer of at most 200 characters is unchanged; a longer one keeps its first 200 characters and gains "...", 203 in all |
| Metrics.ValuesOf | evaluation/metrics.py:185-186 | at most one value per result; no values exactly when no result has the metric |
| Metrics.ValuesFromResults | evaluation/metrics.py:185-186 | every collected value is that metric's value in some result |
| Metrics.SummaryKeys | evaluation/metrics.py:177-191 | `total_questions` is the number of results; average, min and max have the same keys: the listed metrics present in some result |
| Metrics.SummaryValues | evaluation/metrics.py:187-190 | for a metric present in some result, the summary holds the mean, minimum and maximum of its values |
| Metrics.SummaryOrdered | evaluation/metrics.py:184-190 | min <= average <= max for every summarised metric |
| Metrics.EvaluationReport.constructor | evaluation/metrics.py:157-158 | the report starts with no results |
| Metrics.EvaluationReport.AddResult | evaluation/metrics.py:160-166 | appends exactly one result with the shortened answer; earlier results are untouched |
| Metrics.EvaluationReport.GetSummary | evaluation/metrics.py:168-192 | nothing for no results; otherwise the summary of the five listed metrics |
| Metrics.EvaluationReport.Summarise | evaluation/metrics.py:177-190 | the loop over the metric names computes that summary |
| Metrics.EvaluationReport.CollectValues | evaluation/metrics.py:185-186 | the values of one metric across the results, in order |

## Left out

- HTTP, JSON, timeouts, `raise_for_status` and `json.loads` are not modelled. Status codes, model lists, reply bodies and stream lines are inputs. An exception's text is the `failure` string of a reply.
- The Chroma client is not modelled. That covers `PersistentClient`, `count`, `delete_collection`, `add` and the nearest-neighbour `query`. The collection is a sequence of records, and the records an earlier run persisted are the constructor's input. The search is a function parameter.
- Embeddings are not modelled: `rag/embeddings.py` is not part of this model, and `get_embeddings` is dropped from `index_documents`.
- `semantic_similarity_score` (embeddings and scikit-learn cosine similarity) is left out; its value is the `similarity` parameter.
- `app.py`, `evaluation/run_evaluation.py` and `build_overpass_query` are not part of this model: they are delivery, scripting and a fixed query template.
- Also left out: `enrich_pois_with_reviews`, `load_and_index_pois`, `print_report`, `save_report` and the other file and console I/O.
- `get_pipeline` and the module-level `llm` instance are left out: process-wide singletons.
- Wall-clock timings and their millisecond rounding are not modelled. `query` reports no times, and the latency is an input.
- Reviews.GenerateReviewsForPoi: the average is the exact mean. `round(avg_rating, 1)` is float rounding and is not modelled.
- Reviews.GenerateReviewsForPoi: the number of reviews and every random choice come in as the `draws`. The contract covers every draw sequence of length 1 to 4, not the probabilities.
- Reviews.GenerateReviewsForPoi: takes the category from the POI record, which always has one. The `"other"` default of `poi.get("category", "other")` is therefore not modelled.
- Reviews.CreateDocumentText: the float average inside "Average rating: …/5" is printed by the `showRating` parameter.
- Reviews.CreateDocumentText: a missing `name_en`, address field or contact field is the empty string, as the fetcher stores it.
- Metrics.OverlapScore: `str.lower` is the abstract parameter `lower`. Unicode case folding is not modelled.
- Metrics.EvaluateResponse: the `question` argument is unused by the source and is left out.
- Metrics.EvaluateResponse: an empty `sources` list stands for `None`.
- Metrics.EvaluateResponse: an empty `expected_category` stands for `None`.
- Metrics.EvaluateResponse: metric names are an enumeration. A metrics dictionary with keys outside the eight known names is not modelled.
- Metrics.RelevanceScore: each retrieved document is reduced to its distance and its metadata category. A missing category is "".
- Metrics.SummaryValues: `np.mean`, `np.min` and `np.max` are exact; floating-point rounding is not modelled.
- Llm.ReadReply: states the shape of the stripped text, not that it equals `strip()` of the response. Text.StripShape relates the two.
- Llm.Client.Generate: its contract states only the error path. The successful path is ReadReply of the server's reply.
- FetchOsm.PoiOf: the contract names the id, name, English name, category, coordinates and city. The remaining fields default to "" in the same way, by the function's definition.
- Pipeline.RagPipeline.QueryStream: the source emits no answer event at all when the model's stream carries no text. The model follows the code here and states it as Pipeline.EmptyStreamHasNoAnswer.
- Pipeline.RagPipeline.Query: `check_llm` is called twice in `query`; the second call reads the cache, so `llm_available` equals the first result.
