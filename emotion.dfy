/**
 * Turning the emotion classifier's raw output into the service's results: raw label names are
 * mapped onto a closed label set, the dominant label is the arg-max of the score-sorted
 * distribution, and the all-labels view gives every label a score.
 */
module Emotion {
  import opened Wrappers

  datatype SentimentLabel = Joy | Sadness | Anger | Fear | Love | Surprise | Neutral

  /** The members of the label enumeration, in iteration order. */
  const SentimentLabels: seq<SentimentLabel> := [Joy, Sadness, Anger, Fear, Love, Surprise, Neutral]

  /** The classifier's label names that have a label of their own. */
  const EmotionMapping: map<string, SentimentLabel> :=
    map["joy" := Joy, "sadness" := Sadness, "anger" := Anger, "fear" := Fear,
        "love" := Love, "surprise" := Surprise]

  /** `EMOTION_MAPPING.get(raw, NEUTRAL)`. */
  function MapRawLabel(raw: string): (l: SentimentLabel)
    ensures raw in EmotionMapping ==> l == EmotionMapping[raw]
    ensures l == Neutral <==> raw !in EmotionMapping
  {
    if raw in EmotionMapping then EmotionMapping[raw] else Neutral
  }

  /** One `{"label": ..., "score": ...}` record of the classifier's output. */
  datatype ScoreEntry = ScoreEntry(name: string, score: real)

  /** The two list shapes the classifier may return: one list of records, or one list per input. */
  datatype ClassifierOutput = Flat(entries: seq<ScoreEntry>) | Batched(batches: seq<seq<ScoreEntry>>)

  datatype SentimentResult = SentimentResult(emotion: SentimentLabel, score: real)

  /** The Python exceptions raised while reading a malformed output. */
  datatype ShapeError = IndexError | NotAMapping

  // ---------------------------------------------------------------------------------------
  // `sorted(results, key=lambda x: x["score"], reverse=True)`: a stable descending sort

  predicate SortedDesc(s: seq<ScoreEntry>) {
    forall i, j | 0 <= i < j < |s| :: s[i].score >= s[j].score
  }

  /** The entries of `s` carrying score `v`, in their order in `s`. */
  function WithScore(s: seq<ScoreEntry>, v: real): seq<ScoreEntry> {
    if s == [] then []
    else (if s[0].score == v then [s[0]] else []) + WithScore(s[1..], v)
  }

  /** Places `e` in front of every entry whose score is not greater than its own. */
  function InsertDesc(e: ScoreEntry, r: seq<ScoreEntry>): (t: seq<ScoreEntry>)
    ensures multiset(t) == multiset(r) + multiset{e}
  {
    if r == [] || r[0].score <= e.score then [e] + r
    else
      assert r == [r[0]] + r[1..];
      [r[0]] + InsertDesc(e, r[1..])
  }

  /** Every entry of the insertion result is the inserted one or came from the sequence. */
  lemma {:induction false} InsertDescMembers(e: ScoreEntry, r: seq<ScoreEntry>)
    ensures forall x | x in InsertDesc(e, r) :: x == e || x in r
  {
    if r != [] && r[0].score > e.score {
      InsertDescMembers(e, r[1..]);
      assert InsertDesc(e, r) == [r[0]] + InsertDesc(e, r[1..]);
    }
  }

  lemma {:induction false} InsertKeepsOrder(e: ScoreEntry, r: seq<ScoreEntry>)
    requires SortedDesc(r)
    ensures SortedDesc(InsertDesc(e, r))
  {
    if r != [] && r[0].score > e.score {
      var rest := InsertDesc(e, r[1..]);
      InsertKeepsOrder(e, r[1..]);
      InsertDescMembers(e, r[1..]);
      forall k | 0 <= k < |rest| ensures rest[k].score <= r[0].score {
        assert rest[k] in rest;
        if rest[k] != e {
          var i :| 0 <= i < |r[1..]| && r[1..][i] == rest[k];
          assert r[1..][i] == r[i + 1];
        }
      }
      assert InsertDesc(e, r) == [r[0]] + rest;
    }
  }

  function SortByScoreDesc(s: seq<ScoreEntry>): (r: seq<ScoreEntry>)
    ensures SortedDesc(r)
    ensures multiset(r) == multiset(s)
  {
    if s == [] then []
    else
      assert s == [s[0]] + s[1..];
      var rest := SortByScoreDesc(s[1..]);
      InsertKeepsOrder(s[0], rest);
      InsertDesc(s[0], rest)
  }

  lemma {:induction false} InsertKeepsTies(e: ScoreEntry, r: seq<ScoreEntry>, v: real)
    ensures WithScore(InsertDesc(e, r), v) == (if e.score == v then [e] else []) + WithScore(r, v)
  {
    if r == [] || r[0].score <= e.score {
      assert ([e] + r)[1..] == r;
    } else {
      InsertKeepsTies(e, r[1..], v);
      assert ([r[0]] + InsertDesc(e, r[1..]))[1..] == InsertDesc(e, r[1..]);
    }
  }

  /** The sort is stable: the entries sharing any one score keep their original relative order. */
  lemma {:induction false} SortIsStable(s: seq<ScoreEntry>, v: real)
    ensures WithScore(SortByScoreDesc(s), v) == WithScore(s, v)
  {
    if s != [] {
      SortIsStable(s[1..], v);
      InsertKeepsTies(s[0], SortByScoreDesc(s[1..]), v);
    }
  }

  /** A list already in descending score order comes out of the sort unchanged. */
  lemma {:induction false} SortOfSortedIsIdentity(s: seq<ScoreEntry>)
    requires SortedDesc(s)
    ensures SortByScoreDesc(s) == s
  {
    if s != [] {
      SortOfSortedIsIdentity(s[1..]);
      assert [s[0]] + s[1..] == s;
    }
  }

  // ---------------------------------------------------------------------------------------
  // `max(xs, key=...)`: the first element reaching the maximum

  function FirstMaxIndex(s: seq<ScoreEntry>): (i: nat)
    requires |s| > 0
    ensures i < |s|
    ensures forall j | 0 <= j < |s| :: s[j].score <= s[i].score
    ensures forall j | 0 <= j < i :: s[j].score < s[i].score
  {
    if |s| == 1 then 0
    else
      var k := 1 + FirstMaxIndex(s[1..]);
      assert forall j | 1 <= j < |s| :: s[j] == s[1..][j - 1];
      if s[0].score >= s[k].score then 0 else k
  }

  /** The head of the stable descending sort is the first entry with the highest score. */
  lemma {:induction false} SortHeadIsFirstMax(s: seq<ScoreEntry>)
    requires |s| > 0
    ensures SortByScoreDesc(s)[0] == s[FirstMaxIndex(s)]
  {
    if |s| > 1 {
      SortHeadIsFirstMax(s[1..]);
    }
  }

  lemma FirstMaxOfSortedIsHead(s: seq<ScoreEntry>)
    requires |s| > 0 && SortedDesc(s)
    ensures FirstMaxIndex(s) == 0
  {
    assert s[0].score >= s[FirstMaxIndex(s)].score;
  }

  // ---------------------------------------------------------------------------------------
  // `{r["label"]: r["score"] for r in ...}`: an insertion-ordered dict of label -> score

  predicate DistinctLabels(s: seq<ScoreEntry>) {
    forall i, j | 0 <= i < j < |s| :: s[i].name != s[j].name
  }

  /** The keys of a dict, in order. */
  function Keys(d: seq<ScoreEntry>): (ks: seq<string>)
    ensures |ks| == |d| && forall k | 0 <= k < |d| :: ks[k] == d[k].name
  {
    seq(|d|, k requires 0 <= k < |d| => d[k].name)
  }

  /**
   * `d[e.name] = e.score`: a new key goes at the end; with distinct keys, the record holding
   * the key is replaced in place and every other record is kept.
   */
  function DictSet(d: seq<ScoreEntry>, e: ScoreEntry): (r: seq<ScoreEntry>)
    ensures e.name !in Keys(d) ==> r == d + [e]
    ensures DistinctLabels(d) && e.name in Keys(d) ==> |r| == |d|
    ensures DistinctLabels(d) ==> |r| >= |d| && forall k | 0 <= k < |d| :: r[k] == (if d[k].name == e.name then e else d[k])
  {
    if d == [] then [e]
    else if d[0].name == e.name then [e] + d[1..]
    else
      assert Keys(d) == [d[0].name] + Keys(d[1..]);
      [d[0]] + DictSet(d[1..], e)
  }

  /** The dict comprehension: `entries` set into `d` one after the other. */
  function BuildDict(d: seq<ScoreEntry>, entries: seq<ScoreEntry>): seq<ScoreEntry>
    decreases |entries|
  {
    if entries == [] then d else BuildDict(DictSet(d, entries[0]), entries[1..])
  }

  /** The position of the first record named `n`, or -1. */
  function FirstIndexOf(es: seq<ScoreEntry>, n: string): (i: int)
    ensures -1 <= i < |es|
    ensures i >= 0 ==> es[i].name == n && forall j | 0 <= j < i :: es[j].name != n
    ensures i == -1 ==> forall j | 0 <= j < |es| :: es[j].name != n
  {
    if es == [] then -1
    else
      var p := FirstIndexOf(es[..|es| - 1], n);
      if p >= 0 then p else if es[|es| - 1].name == n then |es| - 1 else -1
  }

  /** The position of the last record named `n`, or -1. */
  function LastIndexOf(es: seq<ScoreEntry>, n: string): (i: int)
    ensures -1 <= i < |es|
    ensures i >= 0 ==> es[i].name == n && forall j | i < j < |es| :: es[j].name != n
    ensures i == -1 ==> forall j | 0 <= j < |es| :: es[j].name != n
  {
    if es == [] then -1
    else if es[|es| - 1].name == n then |es| - 1
    else LastIndexOf(es[..|es| - 1], n)
  }

  /**
   * `d` is the Python dict `{r.name: r.score for r in es}`: every name of `es` is a key, each key
   * holds the score of its last record, and the keys are ordered by their first record.
   */
  predicate IsDictOf(d: seq<ScoreEntry>, es: seq<ScoreEntry>) {
    CoversNames(d, es) && HoldsLastRecords(d, es) && InFirstRecordOrder(d, es)
  }

  predicate CoversNames(d: seq<ScoreEntry>, es: seq<ScoreEntry>) {
    forall i | 0 <= i < |es| :: es[i].name in Keys(d)
  }

  predicate HoldsLastRecords(d: seq<ScoreEntry>, es: seq<ScoreEntry>) {
    forall k | 0 <= k < |d| :: LastIndexOf(es, d[k].name) >= 0 && d[k] == es[LastIndexOf(es, d[k].name)]
  }

  predicate InFirstRecordOrder(d: seq<ScoreEntry>, es: seq<ScoreEntry>) {
    forall k, k' | 0 <= k < k' < |d| :: FirstIndexOf(es, d[k].name) < FirstIndexOf(es, d[k'].name)
  }

  /** Keys ordered by first record are distinct. */
  lemma DictKeysDistinct(d: seq<ScoreEntry>, es: seq<ScoreEntry>)
    requires IsDictOf(d, es)
    ensures DistinctLabels(d)
  {
  }

  /** Setting the entries one by one and setting one more afterwards are the same. */
  lemma {:induction false} BuildDictSnoc(d: seq<ScoreEntry>, entries: seq<ScoreEntry>, e: ScoreEntry)
    ensures BuildDict(d, entries + [e]) == DictSet(BuildDict(d, entries), e)
    decreases |entries|
  {
    if entries == [] {
      assert [] + [e] == [e];
      assert BuildDict(d, [e]) == BuildDict(DictSet(d, e), [e][1..]);
    } else {
      assert (entries + [e])[1..] == entries[1..] + [e];
      BuildDictSnoc(DictSet(d, entries[0]), entries[1..], e);
    }
  }

  /** How the first and last positions of a name move when one record is appended. */
  lemma IndexOfSnoc(es: seq<ScoreEntry>, e: ScoreEntry, n: string)
    ensures FirstIndexOf(es, n) >= 0 ==> FirstIndexOf(es + [e], n) == FirstIndexOf(es, n)
    ensures FirstIndexOf(es, n) < 0 && n == e.name ==> FirstIndexOf(es + [e], n) == |es|
    ensures n == e.name ==> LastIndexOf(es + [e], n) == |es|
    ensures n != e.name ==> LastIndexOf(es + [e], n) == LastIndexOf(es, n)
  {
    assert (es + [e])[..|es|] == es;
  }

  /** Setting one more record into the dict of `es` gives the dict of `es + [e]`. */
  lemma DictOfSnoc(d: seq<ScoreEntry>, es: seq<ScoreEntry>, e: ScoreEntry)
    requires IsDictOf(d, es)
    ensures IsDictOf(DictSet(d, e), es + [e])
  {
    DictKeysDistinct(d, es);
    SnocCoversNames(d, es, e);
    SnocHoldsLastRecords(d, es, e);
    if e.name in Keys(d) {
      SnocKeepsOrderExisting(d, es, e);
    } else {
      SnocKeepsOrderNew(d, es, e);
    }
  }

  lemma SnocCoversNames(d: seq<ScoreEntry>, es: seq<ScoreEntry>, e: ScoreEntry)
    requires CoversNames(d, es) && DistinctLabels(d)
    ensures CoversNames(DictSet(d, e), es + [e])
  {
    var r, es' := DictSet(d, e), es + [e];
    if e.name in Keys(d) {
      assert Keys(r) == Keys(d);
    } else {
      assert Keys(r) == Keys(d) + [e.name];
    }
    forall i | 0 <= i < |es'| ensures es'[i].name in Keys(r) {
      if i < |es| {
        assert es'[i] == es[i];
      }
    }
  }

  lemma SnocHoldsLastRecords(d: seq<ScoreEntry>, es: seq<ScoreEntry>, e: ScoreEntry)
    requires HoldsLastRecords(d, es) && DistinctLabels(d)
    ensures HoldsLastRecords(DictSet(d, e), es + [e])
  {
    var r, es' := DictSet(d, e), es + [e];
    forall k | 0 <= k < |r|
      ensures LastIndexOf(es', r[k].name) >= 0 && r[k] == es'[LastIndexOf(es', r[k].name)]
    {
      if k < |d| {
        IndexOfSnoc(es, e, d[k].name);
        if d[k].name == e.name {
          assert r[k] == e == es'[|es|];
        } else {
          var l := LastIndexOf(es, d[k].name);
          assert r[k] == d[k] == es[l] == es'[l];
        }
      } else {
        assert e.name !in Keys(d) && r == d + [e];
        IndexOfSnoc(es, e, e.name);
        assert r[k] == e == es'[|es|];
      }
    }
  }

  lemma SnocKeepsOrderExisting(d: seq<ScoreEntry>, es: seq<ScoreEntry>, e: ScoreEntry)
    requires HoldsLastRecords(d, es) && InFirstRecordOrder(d, es) && DistinctLabels(d) && e.name in Keys(d)
    ensures InFirstRecordOrder(DictSet(d, e), es + [e])
  {
    var r, es' := DictSet(d, e), es + [e];
    forall k, k' | 0 <= k < k' < |r|
      ensures FirstIndexOf(es', r[k].name) < FirstIndexOf(es', r[k'].name)
    {
      IndexOfSnoc(es, e, d[k].name);
      IndexOfSnoc(es, e, d[k'].name);
    }
  }

  /** Every key of the dict of `es` names some record of `es`. */
  lemma KeyHasFirstRecord(d: seq<ScoreEntry>, es: seq<ScoreEntry>, k: int)
    requires HoldsLastRecords(d, es) && 0 <= k < |d|
    ensures 0 <= FirstIndexOf(es, d[k].name)
  {
    assert es[LastIndexOf(es, d[k].name)].name == d[k].name;
  }

  lemma SnocKeepsOrderNew(d: seq<ScoreEntry>, es: seq<ScoreEntry>, e: ScoreEntry)
    requires CoversNames(d, es) && HoldsLastRecords(d, es) && InFirstRecordOrder(d, es) && e.name !in Keys(d)
    ensures InFirstRecordOrder(DictSet(d, e), es + [e])
  {
    var r, es' := DictSet(d, e), es + [e];
    assert r == d + [e];
    assert FirstIndexOf(es, e.name) < 0;
    IndexOfSnoc(es, e, e.name);
    forall k | 0 <= k < |d| ensures FirstIndexOf(es', d[k].name) == FirstIndexOf(es, d[k].name) < |es| {
      KeyHasFirstRecord(d, es, k);
      IndexOfSnoc(es, e, d[k].name);
    }
    forall k, k' | 0 <= k < k' < |r|
      ensures FirstIndexOf(es', r[k].name) < FirstIndexOf(es', r[k'].name)
    {
      assert r[k] == d[k];
      if k' < |d| {
        assert r[k'] == d[k'];
      }
    }
  }

  /** The dict comprehension builds exactly the dict of its records. */
  lemma {:induction false} BuildDictIsDict(es: seq<ScoreEntry>)
    ensures IsDictOf(BuildDict([], es), es)
    decreases |es|
  {
    if es != [] {
      var init, e := es[..|es| - 1], es[|es| - 1];
      assert es == init + [e];
      BuildDictIsDict(init);
      BuildDictSnoc([], init, e);
      DictOfSnoc(BuildDict([], init), init, e);
    }
  }

  /** Without repeated labels the dict holds the records themselves, in the same order. */
  lemma {:induction false} BuildDictDistinct(d: seq<ScoreEntry>, entries: seq<ScoreEntry>)
    requires DistinctLabels(d + entries)
    ensures BuildDict(d, entries) == d + entries
    decreases |entries|
  {
    if entries != [] {
      var e := entries[0];
      assert e.name !in Keys(d) by {
        forall k | 0 <= k < |d| ensures d[k].name != e.name {
          assert (d + entries)[k] == d[k] && (d + entries)[|d|] == e;
        }
      }
      assert d + entries == (d + [e]) + entries[1..];
      BuildDictDistinct(d + [e], entries[1..]);
    }
  }

  lemma {:induction false} InsertKeepsDistinct(e: ScoreEntry, r: seq<ScoreEntry>)
    requires DistinctLabels(r) && forall x | x in r :: x.name != e.name
    ensures DistinctLabels(InsertDesc(e, r))
  {
    if r != [] && r[0].score > e.score {
      InsertKeepsDistinct(e, r[1..]);
      InsertDescMembers(e, r[1..]);
      var rest := InsertDesc(e, r[1..]);
      forall k | 0 <= k < |rest| ensures rest[k].name != r[0].name {
        assert rest[k] in rest;
        if rest[k] != e {
          var i :| 0 <= i < |r[1..]| && r[1..][i] == rest[k];
          assert r[1..][i] == r[i + 1];
        }
      }
      assert InsertDesc(e, r) == [r[0]] + rest;
    }
  }

  lemma {:induction false} SortKeepsDistinct(s: seq<ScoreEntry>)
    requires DistinctLabels(s)
    ensures DistinctLabels(SortByScoreDesc(s))
  {
    if s != [] {
      SortKeepsDistinct(s[1..]);
      var r := SortByScoreDesc(s[1..]);
      forall x | x in r ensures x.name != s[0].name {
        assert x in multiset(s[1..]);
        var i :| 1 <= i < |s| && s[i] == x;
      }
      InsertKeepsDistinct(s[0], r);
    }
  }

  // ---------------------------------------------------------------------------------------
  // `analyze`: the dominant emotion

  /** The `scores` dict `analyze` builds from the classifier output. */
  function ScoresForAnalyze(out: ClassifierOutput): (r: Result<seq<ScoreEntry>, ShapeError>)
    ensures r.Failure? <==> out.Batched? && out.batches != [] && out.batches[0] == []
    ensures r.Failure? ==> r.error == IndexError
    ensures out.Flat? ==> IsDictOf(r.value, SortByScoreDesc(out.entries))
    ensures out.Batched? && r.Success? && out.batches != [] ==> IsDictOf(r.value, SortByScoreDesc(out.batches[0]))
    ensures out == Batched([]) ==> r == Success([])
  {
    match out
    case Flat(es) =>
      BuildDictIsDict(SortByScoreDesc(es));
      Success(if es == [] then [] else BuildDict([], SortByScoreDesc(es)))
    case Batched(bs) =>
      if bs == [] then Success([])
      else if bs[0] == [] then Failure(IndexError)
      else
        BuildDictIsDict(SortByScoreDesc(bs[0]));
        Success(BuildDict([], SortByScoreDesc(bs[0])))
  }

  /** The dominant label and its score; `("neutral", 1.0)` when there are no scores. */
  function DominantEmotion(out: ClassifierOutput): (r: Result<SentimentResult, ShapeError>)
    ensures r.Failure? <==> out.Batched? && out.batches != [] && out.batches[0] == []
    ensures out == Flat([]) || out == Batched([]) ==> r == Success(SentimentResult(Neutral, 1.0))
  {
    match ScoresForAnalyze(out)
    case Failure(e) => Failure(e)
    case Success(scores) =>
      if scores == [] then Success(SentimentResult(MapRawLabel("neutral"), 1.0))
      else
        var top := scores[FirstMaxIndex(scores)];
        Success(SentimentResult(MapRawLabel(top.name), top.score))
  }

  /** Of a batched output only the first inner list matters, and it is read as the flat list. */
  lemma BatchedReadsFirstList(es: seq<ScoreEntry>, more: seq<seq<ScoreEntry>>)
    requires es != []
    ensures DominantEmotion(Batched([es] + more)) == DominantEmotion(Flat(es))
  {
    assert ([es] + more)[0] == es;
  }

  lemma DistinctScoresKeepSortedOrder(es: seq<ScoreEntry>)
    requires |es| > 0 && DistinctLabels(es)
    ensures ScoresForAnalyze(Flat(es)) == Success(SortByScoreDesc(es))
  {
    var sorted := SortByScoreDesc(es);
    SortKeepsDistinct(es);
    assert [] + sorted == sorted;
    BuildDictDistinct([], sorted);
  }

  /**
   * With distinct raw labels, the dominant result is the first record of highest score in the
   * classifier's own order, its label mapped onto the label set.
   */
  lemma DominantIsFirstMaximum(es: seq<ScoreEntry>)
    requires |es| > 0 && DistinctLabels(es)
    ensures var top := es[FirstMaxIndex(es)];
            DominantEmotion(Flat(es)) == Success(SentimentResult(MapRawLabel(top.name), top.score))
  {
    var sorted := SortByScoreDesc(es);
    DistinctScoresKeepSortedOrder(es);
    assert |sorted| > 0 by {
      assert es[0] in multiset(es);
    }
    FirstMaxOfSortedIsHead(sorted);
    SortHeadIsFirstMax(es);
  }

  /**
   * A repeated raw label keeps the position of its first record but the score of its last, so
   * the dominant result need not carry the highest raw score: for `[joy 0.9, anger 0.7, joy 0.5]`
   * it is anger with 0.7.
   */
  lemma RepeatedLabelExample(a: ScoreEntry, b: ScoreEntry, c: ScoreEntry)
    requires a.name == c.name != b.name
    requires a.score > b.score > c.score
    ensures DominantEmotion(Flat([a, b, c])) == Success(SentimentResult(MapRawLabel(b.name), b.score))
  {
    ExampleAlreadySorted(a, b, c);
    ExampleDict(a, b, c);
    assert ScoresForAnalyze(Flat([a, b, c])) == Success([c, b]);
    SecondOfPairIsMax(c, b);
    DominantOfScores(Flat([a, b, c]), [c, b]);
  }

  lemma SecondOfPairIsMax(x: ScoreEntry, y: ScoreEntry)
    requires x.score < y.score
    ensures FirstMaxIndex([x, y]) == 1
  {
    assert [x, y][1..] == [y];
  }

  /** A non-empty score list determines the dominant result: its first entry of highest score. */
  lemma DominantOfScores(out: ClassifierOutput, scores: seq<ScoreEntry>)
    requires ScoresForAnalyze(out) == Success(scores) && scores != []
    ensures var top := scores[FirstMaxIndex(scores)];
            DominantEmotion(out) == Success(SentimentResult(MapRawLabel(top.name), top.score))
  {
  }

  lemma ExampleAlreadySorted(a: ScoreEntry, b: ScoreEntry, c: ScoreEntry)
    requires a.score > b.score > c.score
    ensures SortByScoreDesc([a, b, c]) == [a, b, c]
  {
    var s := [a, b, c];
    assert SortedDesc(s) by {
      assert s[0] == a && s[1] == b && s[2] == c;
    }
    SortOfSortedIsIdentity(s);
  }

  lemma ExampleDict(a: ScoreEntry, b: ScoreEntry, c: ScoreEntry)
    requires a.name == c.name != b.name
    ensures BuildDict([], [a, b, c]) == [c, b]
  {
    assert [a, b, c][1..] == [b, c] && [b, c][1..] == [c];
    assert DictSet([], a) == [a];
    assert [a][1..] == [] && DictSet([], b) == [b];
    assert DictSet([a], b) == [a, b];
    assert [a, b][1..] == [b];
    assert DictSet([a, b], c) == [c, b];
    assert BuildDict([a, b], [c]) == BuildDict([c, b], []) == [c, b];
    assert BuildDict([a], [b, c]) == BuildDict([a, b], [c]);
    assert BuildDict([], [a, b, c]) == BuildDict([a], [b, c]);
  }

  // ---------------------------------------------------------------------------------------
  // `analyze_with_all_scores`: a score for every label

  predicate MapsTo(es: seq<ScoreEntry>, i: int, l: SentimentLabel)
    requires 0 <= i < |es|
  {
    MapRawLabel(es[i].name) == l
  }

  /** `i` is the last record whose raw label maps onto `l`. */
  predicate IsLastFor(es: seq<ScoreEntry>, i: int, l: SentimentLabel) {
    0 <= i < |es| && MapsTo(es, i, l) && forall j | i < j < |es| :: !MapsTo(es, j, l)
  }

  predicate Unmapped(es: seq<ScoreEntry>, l: SentimentLabel) {
    forall i | 0 <= i < |es| :: !MapsTo(es, i, l)
  }

  /** The score the record loop leaves for `l`: that of the last record mapping onto it. */
  function LastScoreFor(es: seq<ScoreEntry>, l: SentimentLabel): (o: Option<real>)
    ensures o.None? <==> Unmapped(es, l)
    ensures o.Some? ==> exists i :: IsLastFor(es, i, l) && o.value == es[i].score
  {
    if es == [] then None
    else
      var n := |es| - 1;
      var init := es[..n];
      assert forall j | 0 <= j < n :: es[j] == init[j];
      if MapRawLabel(es[n].name) == l then
        assert IsLastFor(es, n, l);
        Some(es[n].score)
      else
        var o := LastScoreFor(init, l);
        LastForOfPrefix(es, l);
        o
  }

  /** A last record of the prefix is a last record of the whole when the final record maps elsewhere. */
  lemma LastForOfPrefix(es: seq<ScoreEntry>, l: SentimentLabel)
    requires |es| > 0 && MapRawLabel(es[|es| - 1].name) != l
    ensures forall i | IsLastFor(es[..|es| - 1], i, l) :: IsLastFor(es, i, l)
    ensures Unmapped(es, l) <==> Unmapped(es[..|es| - 1], l)
  {
    var init := es[..|es| - 1];
    forall i | IsLastFor(init, i, l) ensures IsLastFor(es, i, l) {
      forall j | i < j < |es| ensures !MapsTo(es, j, l) {
        if j < |init| {
          assert es[j] == init[j] && !MapsTo(init, j, l);
        }
      }
      assert es[i] == init[i];
    }
    forall j | 0 <= j < |init| ensures MapsTo(es, j, l) == MapsTo(init, j, l) {
      assert es[j] == init[j];
    }
  }

  lemma LabelEnumerated(l: SentimentLabel)
    ensures l in SentimentLabels
  {
    match l
    case Joy => assert SentimentLabels[0] == l;
    case Sadness => assert SentimentLabels[1] == l;
    case Anger => assert SentimentLabels[2] == l;
    case Fear => assert SentimentLabels[3] == l;
    case Love => assert SentimentLabels[4] == l;
    case Surprise => assert SentimentLabels[5] == l;
    case Neutral => assert SentimentLabels[6] == l;
  }

  /** A label has at most one last record. */
  lemma LastForUnique(es: seq<ScoreEntry>, l: SentimentLabel, i: int, k: int)
    requires IsLastFor(es, i, l) && IsLastFor(es, k, l)
    ensures i == k
  {
  }

  /** The all-labels view of a list of records: each label's last score, or 0.0 when it has none. */
  function AllScores(es: seq<ScoreEntry>): (r: map<SentimentLabel, real>)
    ensures forall l: SentimentLabel :: l in r
    ensures forall l | Unmapped(es, l) :: r[l] == 0.0
    ensures forall l, i | IsLastFor(es, i, l) :: r[l] == es[i].score
  {
    var r := map l | l in SentimentLabels :: LastScoreFor(es, l).GetOr(0.0);
    AllScoresFacts(es, r);
    r
  }

  lemma AllScoresFacts(es: seq<ScoreEntry>, r: map<SentimentLabel, real>)
    requires r == map l | l in SentimentLabels :: LastScoreFor(es, l).GetOr(0.0)
    ensures forall l: SentimentLabel :: l in r
    ensures forall l, i | IsLastFor(es, i, l) :: r[l] == es[i].score
  {
    forall l: SentimentLabel ensures l in r {
      LabelEnumerated(l);
    }
    forall l, i | IsLastFor(es, i, l) ensures r[l] == es[i].score {
      LabelEnumerated(l);
      var o := LastScoreFor(es, l);
      var k :| IsLastFor(es, k, l) && o.value == es[k].score;
      LastForUnique(es, l, i, k);
    }
  }

  /** Every score in [0, 1] in the records gives every label a score in [0, 1]. */
  lemma AllScoresInUnitRange(es: seq<ScoreEntry>)
    requires forall i | 0 <= i < |es| :: 0.0 <= es[i].score <= 1.0
    ensures forall l :: 0.0 <= AllScores(es)[l] <= 1.0
  {
    forall l ensures 0.0 <= AllScores(es)[l] <= 1.0 {
      var o := LastScoreFor(es, l);
      if o.Some? {
        var i :| IsLastFor(es, i, l) && o.value == es[i].score;
      }
    }
  }

  /** The records `analyze_with_all_scores` iterates over; only the batched shape has any. */
  function EntriesForAllScores(out: ClassifierOutput): (r: Result<seq<ScoreEntry>, ShapeError>)
    ensures r.Success? <==> out.Batched? && out.batches != []
    ensures r.Success? ==> r.value == out.batches[0]
  {
    match out
    case Flat(es) =>
      // `results[0]` of an empty list, or iteration over the keys of the first record.
      if es == [] then Failure(IndexError) else Failure(NotAMapping)
    case Batched(bs) => if bs == [] then Failure(IndexError) else Success(bs[0])
  }

  /** The map returned for empty or whitespace-only text. */
  function ZeroScores(): (r: map<SentimentLabel, real>)
    ensures forall l: SentimentLabel :: l in r && r[l] == 0.0
  {
    AllScores([])
  }

  /** The record loop, then the loop over the label enumeration that fills missing labels with 0.0. */
  method FillAllScores(es: seq<ScoreEntry>) returns (scores: map<SentimentLabel, real>)
    ensures scores == AllScores(es)
  {
    scores := map[];
    var i := 0;
    while i < |es|
      invariant 0 <= i <= |es|
      invariant forall l :: LastScoreFor(es[..i], l) == if l in scores then Some(scores[l]) else None
    {
      var mapped := MapRawLabel(es[i].name);
      forall l ensures LastScoreFor(es[..i + 1], l)
                       == if l == mapped then Some(es[i].score) else LastScoreFor(es[..i], l) {
        LastScoreForStep(es, i, l);
      }
      scores := scores[mapped := es[i].score];
      i := i + 1;
    }
    assert es[..|es|] == es;
    var j := 0;
    while j < |SentimentLabels|
      invariant 0 <= j <= |SentimentLabels|
      invariant forall l :: l in scores <==> LastScoreFor(es, l).Some? || l in SentimentLabels[..j]
      invariant forall l | l in scores :: scores[l] == LastScoreFor(es, l).GetOr(0.0)
    {
      var lbl := SentimentLabels[j];
      assert SentimentLabels[..j + 1] == SentimentLabels[..j] + [lbl];
      if lbl !in scores {
        scores := scores[lbl := 0.0];
      }
      j := j + 1;
    }
    assert SentimentLabels[..j] == SentimentLabels;
    AllScoresCharacterised(es, scores);
  }

  /** One more record overrides the score of the label it maps onto and leaves the others. */
  lemma LastScoreForStep(es: seq<ScoreEntry>, i: nat, l: SentimentLabel)
    requires i < |es|
    ensures LastScoreFor(es[..i + 1], l)
            == if l == MapRawLabel(es[i].name) then Some(es[i].score) else LastScoreFor(es[..i], l)
  {
    assert es[..i + 1][..i] == es[..i];
  }

  /** A map giving every label its last score, or 0.0, is the all-labels view. */
  lemma AllScoresCharacterised(es: seq<ScoreEntry>, m: map<SentimentLabel, real>)
    requires forall l | l in SentimentLabels :: l in m
    requires forall l | l in m :: m[l] == LastScoreFor(es, l).GetOr(0.0)
    ensures m == AllScores(es)
  {
    forall l: SentimentLabel ensures l in m {
      LabelEnumerated(l);
    }
    assert m.Keys == AllScores(es).Keys;
  }
}
