/** Evaluation metrics of the question-answering system: keyword overlap,
    retrieval relevance, answer length and latency scores, their weighted
    combination, and a report that collects results and summarises them.
    Scores are exact reals; the embedding similarity and `str.lower` are
    parameters. */
module Metrics {
  import opened Wrappers
  import opened Text
  import opened Stats

  // ------------------------------------------------------------ keyword overlap

  /** How many keywords, lowercased, occur in the lowercased answer. */
  function MatchCount(answerLower: string, keywords: seq<string>, lower: string -> string): (n: nat)
    ensures n <= |keywords|
    ensures n == |keywords| <==> forall k :: 0 <= k < |keywords| ==> Contains(answerLower, lower(keywords[k]))
  {
    if keywords == [] then 0
    else
      var rest := keywords[..|keywords| - 1];
      var last := keywords[|keywords| - 1];
      assert forall k :: 0 <= k < |rest| ==> rest[k] == keywords[k];
      MatchCount(answerLower, rest, lower) + (if Contains(answerLower, lower(last)) then 1 else 0)
  }

  /** `keyword_overlap_score`: the fraction of keywords found in the answer,
      0 for an empty answer or no keywords. */
  function OverlapScore(answer: string, keywords: seq<string>, lower: string -> string): (score: real)
    ensures 0.0 <= score <= 1.0
    ensures answer == "" || keywords == [] ==> score == 0.0
    ensures score == 1.0 <==>
      answer != "" && keywords != [] && forall k :: 0 <= k < |keywords| ==> Contains(lower(answer), lower(keywords[k]))
  {
    if answer == "" || keywords == [] then 0.0
    else
      var n := MatchCount(lower(answer), keywords, lower) as real;
      var total := |keywords| as real;
      QuotientInUnitRange(n, total);
      n / total
  }

  // ------------------------------------------------------------ retrieval relevance

  /** A retrieved document as the relevance score sees it: its distance,
      when it has one, and its metadata category ("" when it has none). */
  datatype RetrievedDoc = RetrievedDoc(distance: Option<real>, category: string)

  const CategoryBonus: real := 1.2

  /** The score of one document: `1 - min(distance, 1)` (a missing distance
      counts as 1), times 1.2 when a category is expected and matches,
      capped at 1. */
  function DocScore(doc: RetrievedDoc, expectedCategory: string): (s: real)
    ensures 0.0 <= s <= 1.0
    ensures doc.distance.None? ==> s == 0.0
    ensures doc.distance.Some? && doc.distance.value <= 0.0 ==> s == 1.0
  {
    var distance := doc.distance.GetOr(1.0);
    var score := 1.0 - (if distance < 1.0 then distance else 1.0);
    var score := if expectedCategory != "" && doc.category == expectedCategory then score * CategoryBonus else score;
    if score < 1.0 then score else 1.0
  }

  /** The category bonus never lowers a document's score. */
  lemma BonusNeverLowers(doc: RetrievedDoc, expectedCategory: string)
    ensures DocScore(doc, "") <= DocScore(doc, expectedCategory)
  {
  }

  function DocScores(docs: seq<RetrievedDoc>, expectedCategory: string): (scores: seq<real>)
    ensures |scores| == |docs|
    ensures Between(scores, 0.0, 1.0)
  {
    seq(|docs|, k requires 0 <= k < |docs| => DocScore(docs[k], expectedCategory))
  }

  /** The relevance of the retrieved documents: the mean of their scores,
      0 for none. */
  function Relevance(docs: seq<RetrievedDoc>, expectedCategory: string): real
  {
    if docs == [] then 0.0 else Mean(DocScores(docs, expectedCategory))
  }

  /** The relevance lies between 0 and 1. */
  lemma RelevanceInUnitRange(docs: seq<RetrievedDoc>, expectedCategory: string)
    ensures 0.0 <= Relevance(docs, expectedCategory) <= 1.0
  {
    if docs != [] {
      MeanBounds(DocScores(docs, expectedCategory), 0.0, 1.0);
    }
  }

  /** `calculate_relevance_score`. */
  method RelevanceScore(docs: seq<RetrievedDoc>, expectedCategory: string) returns (score: real)
    ensures score == Relevance(docs, expectedCategory)
    ensures 0.0 <= score <= 1.0
    ensures docs == [] ==> score == 0.0
  {
    if docs == [] {
      return 0.0;
    }
    var scores: seq<real> := [];
    for i := 0 to |docs|
      invariant |scores| == i
      invariant forall k :: 0 <= k < i ==> scores[k] == DocScore(docs[k], expectedCategory)
    {
      var doc := docs[i];
      var s := 1.0;
      var distance := if doc.distance.Some? then doc.distance.value else 1.0;
      s := s * (1.0 - (if distance < 1.0 then distance else 1.0));
      if expectedCategory != "" {
        if doc.category == expectedCategory {
          s := s * CategoryBonus;
        }
      }
      scores := scores + [if s < 1.0 then s else 1.0];
    }
    assert scores == DocScores(docs, expectedCategory);
    score := Mean(scores);
    RelevanceInUnitRange(docs, expectedCategory);
  }

  // ------------------------------------------------------------ one response

  /** The keys of the metrics dictionary: `keyword_overlap`,
      `semantic_similarity`, `answer_length`, `answer_length_score`,
      `retrieval_relevance`, `latency_ms`, `latency_score` and
      `combined_score`. */
  datatype Metric =
    | KeywordOverlap | SemanticSimilarity | AnswerLength | AnswerLengthScore
    | RetrievalRelevance | LatencyMs | LatencyScore | CombinedScore

  /** The answer-length score: the word count over 50, capped at 1 only for
      answers of more than ten words. */
  function LengthScoreOf(wordCount: nat): (s: real)
    ensures s == if wordCount as real / 50.0 < 1.0 then wordCount as real / 50.0 else 1.0
    ensures 0.0 <= s <= 1.0
  {
    if wordCount > 10 then (if wordCount as real / 50.0 < 1.0 then wordCount as real / 50.0 else 1.0)
    else wordCount as real / 50.0
  }

  /** The latency score: `max(0, 1 - latency / 5000)`, at most 1 for a
      latency that is not negative. */
  function LatencyScoreOf(latencyMs: real): (s: real)
    ensures 0.0 <= s
    ensures latencyMs >= 0.0 ==> s <= 1.0
    ensures latencyMs < 5000.0 <==> s > 0.0
  {
    var raw := 1.0 - latencyMs / 5000.0;
    if 0.0 < raw then raw else 0.0
  }

  /** The weights of the combined score, in the order they are added up. */
  const Weights: seq<(Metric, real)> := [
    (KeywordOverlap, 0.3),
    (SemanticSimilarity, 0.3),
    (RetrievalRelevance, 0.2),
    (LatencyScore, 0.1),
    (AnswerLengthScore, 0.1)]

  /** The metrics that carry a weight. */
  predicate Weighted(m: Metric)
  {
    m.KeywordOverlap? || m.SemanticSimilarity? || m.RetrievalRelevance? || m.LatencyScore? || m.AnswerLengthScore?
  }

  predicate NonNegativeWeights(ws: seq<(Metric, real)>)
  {
    forall k :: 0 <= k < |ws| ==> ws[k].1 >= 0.0
  }

  /** A weighted metric's weighted value, 0 when it is absent. */
  function Term(metrics: map<Metric, real>, entry: (Metric, real)): real
  {
    if entry.0 in metrics then metrics[entry.0] * entry.1 else 0.0
  }

  /** A weighted metric's weight, 0 when it is absent. */
  function Share(metrics: map<Metric, real>, entry: (Metric, real)): real
  {
    if entry.0 in metrics then entry.1 else 0.0
  }

  /** The sum of weight times value over the weighted metrics present. */
  function WeightedSum(metrics: map<Metric, real>, ws: seq<(Metric, real)>): real
  {
    if ws == [] then 0.0 else WeightedSum(metrics, ws[..|ws| - 1]) + Term(metrics, ws[|ws| - 1])
  }

  /** The sum of the weights of the weighted metrics present. */
  function WeightOf(metrics: map<Metric, real>, ws: seq<(Metric, real)>): real
  {
    if ws == [] then 0.0 else WeightOf(metrics, ws[..|ws| - 1]) + Share(metrics, ws[|ws| - 1])
  }

  /** The combined score: the weighted average of the weighted metrics
      present, 0 when none is. */
  function WeightedAverage(metrics: map<Metric, real>): real
  {
    var total := WeightOf(metrics, Weights);
    if total > 0.0 then WeightedSum(metrics, Weights) / total else 0.0
  }

  /** A value between 0 and 1 with a weight that is not negative contributes
      between 0 and its weight. */
  lemma TermBounds(metrics: map<Metric, real>, entry: (Metric, real))
    requires entry.1 >= 0.0
    requires entry.0 in metrics ==> 0.0 <= metrics[entry.0] <= 1.0
    ensures 0.0 <= Term(metrics, entry) <= Share(metrics, entry)
  {
    if entry.0 in metrics {
      ScaledUnit(metrics[entry.0], entry.1);
    }
  }

  /** Present weighted metrics between 0 and 1 add up, weighted, to between
      0 and the total weight. */
  lemma {:induction false} WeightedSumBounds(metrics: map<Metric, real>, ws: seq<(Metric, real)>)
    requires NonNegativeWeights(ws)
    requires forall k :: 0 <= k < |ws| && ws[k].0 in metrics ==> 0.0 <= metrics[ws[k].0] <= 1.0
    ensures 0.0 <= WeightedSum(metrics, ws) <= WeightOf(metrics, ws)
  {
    if ws != [] {
      var k := |ws| - 1;
      WeightedSumBounds(metrics, ws[..k]);
      TermBounds(metrics, ws[k]);
    }
  }

  lemma ScaledUnit(v: real, w: real)
    requires 0.0 <= v <= 1.0 && 0.0 <= w
    ensures 0.0 <= v * w <= w
  {
  }

  /** Weighted metrics between 0 and 1 give a combined score between 0 and 1. */
  lemma WeightedAverageInUnitRange(metrics: map<Metric, real>)
    requires forall m :: m in metrics && Weighted(m) ==> 0.0 <= metrics[m] <= 1.0
    ensures 0.0 <= WeightedAverage(metrics) <= 1.0
  {
    assert forall k :: 0 <= k < |Weights| ==> Weighted(Weights[k].0);
    WeightedSumBounds(metrics, Weights);
    var total := WeightOf(metrics, Weights);
    if total > 0.0 {
      QuotientInUnitRange(WeightedSum(metrics, Weights), total);
    }
  }

  /** A part of a positive whole is a fraction between 0 and 1, and the
      fraction is 1 exactly for the whole. */
  lemma QuotientInUnitRange(a: real, t: real)
    requires 0.0 <= a <= t && t > 0.0
    ensures 0.0 <= a / t <= 1.0
    ensures a / t == 1.0 <==> a == t
  {
    var m := a / t;
    assert m * t == a;
    assert (1.0 - m) * t == t - a;
  }

  /** The combined score is the weighted average over the weighted metrics
      present. */
  method CombineScores(metrics: map<Metric, real>) returns (score: real)
    ensures score == WeightedAverage(metrics)
  {
    var combined := 0.0;
    var totalWeight := 0.0;
    for i := 0 to |Weights|
      invariant combined == WeightedSum(metrics, Weights[..i])
      invariant totalWeight == WeightOf(metrics, Weights[..i])
    {
      assert Weights[..i + 1][..i] == Weights[..i];
      var (name, weight) := Weights[i];
      if name in metrics {
        combined := combined + metrics[name] * weight;
        totalWeight := totalWeight + weight;
      }
    }
    assert Weights[..|Weights|] == Weights;
    score := if totalWeight > 0.0 then combined / totalWeight else 0.0;
  }

  /** With keyword overlap, similarity and answer-length score present, the
      total weight is at least 0.7, so the combined score is never the
      fallback 0 of an empty weighting. */
  lemma AlwaysWeighted(metrics: map<Metric, real>)
    requires KeywordOverlap in metrics && SemanticSimilarity in metrics
    requires AnswerLengthScore in metrics
    ensures WeightOf(metrics, Weights) >= 0.7
  {
    var w1, w2, w3, w4 := Weights[..1], Weights[..2], Weights[..3], Weights[..4];
    assert w1[..0] == [] && w2[..1] == w1 && w3[..2] == w2 && w4[..3] == w3 && Weights[..4] == w4;
    assert WeightOf(metrics, w1) == 0.3;
    assert WeightOf(metrics, w2) == 0.6;
    assert WeightOf(metrics, w3) >= 0.6;
    assert WeightOf(metrics, w4) >= 0.6;
  }

  /** `evaluate_response`: the metrics of one answer. `similarity` is the
      embedding similarity of the answer to the keywords (0 when computing
      it fails); an empty `sources` stands for none given, an empty
      `expectedCategory` for no expected category. */
  method EvaluateResponse(answer: string, expectedKeywords: seq<string>, sources: seq<RetrievedDoc>,
                          expectedCategory: string, latencyMs: Option<real>, similarity: real,
                          lower: string -> string)
    returns (metrics: map<Metric, real>)
    ensures CombinedScore in metrics
    ensures var base := ScoreMetrics(answer, expectedKeywords, sources, expectedCategory, latencyMs, similarity, lower);
      metrics == base[CombinedScore := WeightedAverage(base)]
    ensures metrics[CombinedScore] == WeightedAverage(metrics)
  {
    metrics := map[];
    metrics := metrics[KeywordOverlap := OverlapScore(answer, expectedKeywords, lower)];
    metrics := metrics[SemanticSimilarity := similarity];
    var wordCount := |Words(answer)|;
    metrics := metrics[AnswerLength := wordCount as real];
    metrics := metrics[AnswerLengthScore := LengthScoreOf(wordCount)];
    if sources != [] {
      var relevance := RelevanceScore(sources, expectedCategory);
      metrics := metrics[RetrievalRelevance := relevance];
    }
    if latencyMs.Some? {
      metrics := metrics[LatencyMs := latencyMs.value];
      metrics := metrics[LatencyScore := LatencyScoreOf(latencyMs.value)];
    }
    var combined := CombineScores(metrics);
    ScoreMetricsWeighted(answer, expectedKeywords, sources, expectedCategory, latencyMs, similarity, lower);
    CombinedIgnoresItself(metrics, combined);
    metrics := metrics[CombinedScore := combined];
  }

  /** The metrics of one answer other than the combined score. */
  function ScoreMetrics(answer: string, expectedKeywords: seq<string>, sources: seq<RetrievedDoc>,
                        expectedCategory: string, latencyMs: Option<real>, similarity: real,
                        lower: string -> string): (metrics: map<Metric, real>)
    ensures KeywordOverlap in metrics && SemanticSimilarity in metrics
    ensures AnswerLength in metrics && AnswerLengthScore in metrics
    ensures RetrievalRelevance in metrics <==> sources != []
    ensures LatencyMs in metrics <==> latencyMs.Some?
    ensures LatencyScore in metrics <==> latencyMs.Some?
    ensures CombinedScore !in metrics
    ensures metrics[KeywordOverlap] == OverlapScore(answer, expectedKeywords, lower)
    ensures metrics[SemanticSimilarity] == similarity
    ensures metrics[AnswerLength] == |Words(answer)| as real
    ensures metrics[AnswerLengthScore] == LengthScoreOf(|Words(answer)|)
    ensures sources != [] ==> metrics[RetrievalRelevance] == Relevance(sources, expectedCategory)
    ensures latencyMs.Some? ==>
      metrics[LatencyMs] == latencyMs.value && metrics[LatencyScore] == LatencyScoreOf(latencyMs.value)
  {
    var base := map[KeywordOverlap := OverlapScore(answer, expectedKeywords, lower),
                    SemanticSimilarity := similarity,
                    AnswerLength := |Words(answer)| as real,
                    AnswerLengthScore := LengthScoreOf(|Words(answer)|)];
    var withSources := if sources != [] then base[RetrievalRelevance := Relevance(sources, expectedCategory)] else base;
    if latencyMs.Some? then
      withSources[LatencyMs := latencyMs.value][LatencyScore := LatencyScoreOf(latencyMs.value)]
    else withSources
  }

  /** The metrics of one answer always carry a weight of at least 0.7, and
      their weighted average is between 0 and 1 when the similarity is and
      the latency is not negative. */
  lemma ScoreMetricsWeighted(answer: string, expectedKeywords: seq<string>, sources: seq<RetrievedDoc>,
                             expectedCategory: string, latencyMs: Option<real>, similarity: real,
                             lower: string -> string)
    ensures var metrics := ScoreMetrics(answer, expectedKeywords, sources, expectedCategory, latencyMs, similarity, lower);
      WeightOf(metrics, Weights) >= 0.7
      && (0.0 <= similarity <= 1.0 && (latencyMs.Some? ==> latencyMs.value >= 0.0) ==>
          0.0 <= WeightedAverage(metrics) <= 1.0)
  {
    var metrics := ScoreMetrics(answer, expectedKeywords, sources, expectedCategory, latencyMs, similarity, lower);
    AlwaysWeighted(metrics);
    if 0.0 <= similarity <= 1.0 && (latencyMs.Some? ==> latencyMs.value >= 0.0) {
      RelevanceInUnitRange(sources, expectedCategory);
      WeightedAverageInUnitRange(metrics);
    }
  }

  /** Storing the combined score does not change the weighted average. */
  lemma CombinedIgnoresItself(metrics: map<Metric, real>, v: real)
    ensures WeightedAverage(metrics[CombinedScore := v]) == WeightedAverage(metrics)
    ensures WeightOf(metrics[CombinedScore := v], Weights) == WeightOf(metrics, Weights)
  {
    OtherKeysAgree(metrics, v, Weights);
  }

  lemma {:induction false} OtherKeysAgree(metrics: map<Metric, real>, v: real, ws: seq<(Metric, real)>)
    requires forall k :: 0 <= k < |ws| ==> ws[k].0 != CombinedScore
    ensures WeightedSum(metrics[CombinedScore := v], ws) == WeightedSum(metrics, ws)
    ensures WeightOf(metrics[CombinedScore := v], ws) == WeightOf(metrics, ws)
  {
    if ws != [] {
      OtherKeysAgree(metrics, v, ws[..|ws| - 1]);
    }
  }

  // ------------------------------------------------------------ report

  /** One evaluated question with its (possibly shortened) answer. */
  datatype Result = Result(question: string, answer: string, metrics: map<Metric, real>)

  const AnswerLimit: nat := 200

  /** The answer as stored: its first 200 characters and "..." when longer. */
  function Shortened(answer: string): (s: string)
    ensures |answer| <= AnswerLimit ==> s == answer
    ensures |answer| > AnswerLimit ==> |s| == AnswerLimit + 3 && s[..AnswerLimit] == answer[..AnswerLimit]
    ensures |s| <= AnswerLimit + 3
  {
    if |answer| > AnswerLimit then answer[..AnswerLimit] + "..." else answer
  }

  /** The metrics the summary aggregates, in order. */
  const SummaryMetrics: seq<Metric> :=
    [KeywordOverlap, SemanticSimilarity, CombinedScore, LatencyMs, RetrievalRelevance]

  /** The values of one metric over the results that have it, in order. */
  function ValuesOf(results: seq<Result>, metric: Metric): (vs: seq<real>)
    ensures |vs| <= |results|
    ensures vs == [] <==> forall k :: 0 <= k < |results| ==> metric !in results[k].metrics
  {
    if results == [] then []
    else
      var rest := results[..|results| - 1];
      var last := results[|results| - 1];
      assert forall k :: 0 <= k < |rest| ==> rest[k] == results[k];
      ValuesOf(rest, metric) + (if metric in last.metrics then [last.metrics[metric]] else [])
  }

  /** Every collected value is the metric's value in some result. */
  lemma {:induction false} ValuesFromResults(results: seq<Result>, metric: Metric, v: real)
    requires v in ValuesOf(results, metric)
    ensures exists k :: 0 <= k < |results| && metric in results[k].metrics && results[k].metrics[metric] == v
  {
    var rest := results[..|results| - 1];
    var last := results[|results| - 1];
    if v in ValuesOf(rest, metric) {
      ValuesFromResults(rest, metric, v);
      var k :| 0 <= k < |rest| && metric in rest[k].metrics && rest[k].metrics[metric] == v;
      assert results[k] == rest[k];
    } else {
      assert metric in last.metrics && last.metrics[metric] == v;
    }
  }

  /** `get_summary` for a non-empty report. */
  datatype Summary = Summary(totalQuestions: nat, average: map<Metric, real>,
                             minimum: map<Metric, real>, maximum: map<Metric, real>)

  /** Average, minimum and maximum of the listed metrics that occur. */
  function SummaryOf(results: seq<Result>, metrics: seq<Metric>): (s: Summary)
  {
    if metrics == [] then Summary(|results|, map[], map[], map[])
    else
      var s := SummaryOf(results, metrics[..|metrics| - 1]);
      var m := metrics[|metrics| - 1];
      var vs := ValuesOf(results, m);
      if vs == [] then s
      else Summary(s.totalQuestions, s.average[m := Mean(vs)], s.minimum[m := MinOf(vs)], s.maximum[m := MaxOf(vs)])
  }

  /** The summary counts the results and covers exactly the listed metrics
      that some result has, with the same keys in all three maps. */
  lemma {:induction false} SummaryKeys(results: seq<Result>, metrics: seq<Metric>, m: Metric)
    ensures var s := SummaryOf(results, metrics);
      && s.totalQuestions == |results|
      && s.average.Keys == s.minimum.Keys == s.maximum.Keys
      && (m in s.average <==> m in metrics && ValuesOf(results, m) != [])
  {
    if metrics != [] {
      var init := metrics[..|metrics| - 1];
      assert metrics == init + [metrics[|metrics| - 1]];
      SummaryKeys(results, init, m);
    }
  }

  /** Each listed metric that some result has is summarised by the mean,
      minimum and maximum of its values. */
  lemma {:induction false} SummaryValues(results: seq<Result>, metrics: seq<Metric>, m: Metric)
    requires m in metrics && ValuesOf(results, m) != []
    ensures var s := SummaryOf(results, metrics); var vs := ValuesOf(results, m);
      && m in s.average && m in s.minimum && m in s.maximum
      && s.average[m] == Mean(vs) && s.minimum[m] == MinOf(vs) && s.maximum[m] == MaxOf(vs)
  {
    var init := metrics[..|metrics| - 1];
    var last := metrics[|metrics| - 1];
    if m != last {
      assert metrics == init + [last];
      SummaryValues(results, init, m);
    }
  }

  /** In a summary, every metric's minimum is at most its average, which is
      at most its maximum. */
  lemma SummaryOrdered(results: seq<Result>, m: Metric)
    requires m in SummaryOf(results, SummaryMetrics).average
    ensures var s := SummaryOf(results, SummaryMetrics);
      m in s.minimum && m in s.maximum && s.minimum[m] <= s.average[m] <= s.maximum[m]
  {
    SummaryKeys(results, SummaryMetrics, m);
    SummaryValues(results, SummaryMetrics, m);
    MeanBetweenExtremes(ValuesOf(results, m));
  }

  /** `EvaluationReport`: the results gathered so far. */
  class EvaluationReport {
    var results: seq<Result>

    constructor()
      ensures results == []
    {
      results := [];
    }

    /** `add_result`: one record more, with the answer shortened. */
    method AddResult(question: string, answer: string, metrics: map<Metric, real>)
      modifies this
      ensures results == old(results) + [Result(question, Shortened(answer), metrics)]
    {
      var stored := if |answer| > AnswerLimit then answer[..AnswerLimit] + "..." else answer;
      results := results + [Result(question, stored, metrics)];
    }

    /** `get_summary`: nothing for an empty report; otherwise the number of
        results and the mean, minimum and maximum of each listed metric that
        some result has. */
    method GetSummary() returns (summary: Option<Summary>)
      ensures results == [] <==> summary.None?
      ensures results != [] ==> summary == Some(SummaryOf(results, SummaryMetrics))
    {
      if results == [] {
        return None;
      }
      var s := Summarise(SummaryMetrics);
      summary := Some(s);
    }

    /** The loop of `get_summary` over the metric names. */
    method Summarise(metrics: seq<Metric>) returns (s: Summary)
      ensures s == SummaryOf(results, metrics)
    {
      var average: map<Metric, real> := map[];
      var minimum: map<Metric, real> := map[];
      var maximum: map<Metric, real> := map[];
      for i := 0 to |metrics|
        invariant SummaryOf(results, metrics[..i]) == Summary(|results|, average, minimum, maximum)
      {
        assert metrics[..i + 1][..i] == metrics[..i];
        var metric := metrics[i];
        var values := CollectValues(metric);
        if values != [] {
          average := average[metric := Mean(values)];
          minimum := minimum[metric := MinOf(values)];
          maximum := maximum[metric := MaxOf(values)];
        }
      }
      assert metrics[..|metrics|] == metrics;
      s := Summary(|results|, average, minimum, maximum);
    }

    /** The values of `metric` over the results that have it. */
    method CollectValues(metric: Metric) returns (values: seq<real>)
      ensures values == ValuesOf(results, metric)
    {
      values := [];
      for k := 0 to |results|
        invariant values == ValuesOf(results[..k], metric)
      {
        assert results[..k + 1][..k] == results[..k];
        if metric in results[k].metrics {
          values := values + [results[k].metrics[metric]];
        }
      }
      assert results[..|results|] == results;
    }
  }
}
