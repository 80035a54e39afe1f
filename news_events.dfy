/** Headline keyword scoring (src/tbot/services/news_event_detector.py). Scores are kept in
    hundredths, so the weights 0.8, 0.05, ... are the naturals 80, 5, ... and rounding to two
    decimals is exact. */
module NewsEvents {
  import opened Wrappers
  import opened Num
  import opened Text

  /** One entry of `EVENT_KEYWORDS`: the keyword, its weight in hundredths and its label (`tag`). */
  datatype Keyword = Keyword(word: string, weight: nat, tag: string)

  /** `EVENT_KEYWORDS`, in the order of the dictionary. */
  const Table: seq<Keyword> := [
    Keyword("earnings", 80, "财报"),
    Keyword("quarterly results", 80, "季报"),
    Keyword("beat", 60, "超预期"),
    Keyword("miss", 60, "不及预期"),
    Keyword("guidance", 70, "业绩指引"),
    Keyword("revenue", 50, "营收"),
    Keyword("profit", 50, "利润"),
    Keyword("EPS", 60, "每股收益"),
    Keyword("FDA", 90, "FDA"),
    Keyword("approval", 80, "获批"),
    Keyword("approved", 80, "获批"),
    Keyword("merger", 90, "合并"),
    Keyword("acquisition", 90, "收购"),
    Keyword("acquire", 80, "收购"),
    Keyword("buyout", 90, "收购"),
    Keyword("takeover", 90, "收购"),
    Keyword("split", 70, "拆股"),
    Keyword("dividend", 50, "分红"),
    Keyword("buyback", 60, "回购"),
    Keyword("upgrade", 60, "上调评级"),
    Keyword("downgrade", 60, "下调评级"),
    Keyword("price target", 50, "目标价"),
    Keyword("rating", 40, "评级"),
    Keyword("initiate", 40, "首次评级"),
    Keyword("lawsuit", 70, "诉讼"),
    Keyword("sue", 70, "起诉"),
    Keyword("investigation", 70, "调查"),
    Keyword("probe", 70, "调查"),
    Keyword("recall", 80, "召回"),
    Keyword("fraud", 90, "欺诈"),
    Keyword("bankruptcy", 90, "破产"),
    Keyword("default", 80, "违约"),
    Keyword("layoff", 60, "裁员"),
    Keyword("CEO", 60, "CEO"),
    Keyword("CFO", 50, "CFO"),
    Keyword("resign", 60, "辞职"),
    Keyword("appoint", 50, "任命"),
    Keyword("executive", 40, "高管"),
    Keyword("launch", 50, "发布"),
    Keyword("partnership", 50, "合作"),
    Keyword("contract", 50, "合同"),
    Keyword("deal", 50, "交易")
  ]

  /** Every weight is positive and at most 1. */
  predicate WellWeighted(table: seq<Keyword>) {
    forall k :: 0 <= k < |table| ==> 0 < table[k].weight <= 100
  }

  lemma TableWellWeighted()
    ensures WellWeighted(Table)
  {
  }

  // ----- matching -----

  /** A regular-expression word character (ASCII letters, digits and the underscore). */
  predicate IsWordChar(c: char) {
    IsAlnumChar(c) || c == '_'
  }

  /** `\b`: a word character on exactly one side of position `i`. */
  predicate Boundary(s: string, i: int)
    requires 0 <= i <= |s|
  {
    (i > 0 && IsWordChar(s[i - 1])) != (i < |s| && IsWordChar(s[i]))
  }

  /** `\bkw\b` matches `s` at position `i`. */
  predicate MatchesAt(s: string, kw: string, i: int) {
    0 <= i && i + |kw| <= |s| && s[i..i + |kw|] == kw && Boundary(s, i) && Boundary(s, i + |kw|)
  }

  /** `re.search(\bkw\b, s)` from position `from` on. */
  function SearchFrom(s: string, kw: string, from: nat): (found: bool)
    ensures found <==> exists i :: from <= i && MatchesAt(s, kw, i)
    decreases |s| - from
  {
    if from + |kw| > |s| then
      assert forall i :: from <= i ==> !MatchesAt(s, kw, i);
      false
    else if MatchesAt(s, kw, from) then true
    else
      var r := SearchFrom(s, kw, from + 1);
      assert forall i :: from <= i && MatchesAt(s, kw, i) ==> from + 1 <= i;
      r
  }

  /** A headline mentions a keyword when the lower-cased keyword occurs in the lower-cased
      headline between two word boundaries. */
  ghost predicate Mentions(headline: string, word: string) {
    exists i :: MatchesAt(Lower(headline), Lower(word), i)
  }

  function Found(headline: string, word: string): (b: bool)
    ensures b <==> Mentions(headline, word)
  {
    SearchFrom(Lower(headline), Lower(word), 0)
  }

  // ----- the scan -----

  /** Every index in `ids` points into a table of `n` keywords. */
  predicate Indexes(ids: seq<nat>, n: nat) {
    forall a :: 0 <= a < |ids| ==> ids[a] < n
  }

  /** Which keywords of `table` a headline mentions, one flag per keyword. */
  function Hits(table: seq<Keyword>, headline: string): (hits: seq<bool>)
    ensures |hits| == |table|
    ensures forall k :: 0 <= k < |table| ==> hits[k] == Found(headline, table[k].word)
  {
    seq(|table|, k requires 0 <= k < |table| => Found(headline, table[k].word))
  }

  /** The flagged keyword indices from `k` on that `seen` lacks, in table order. */
  function ScanHeadline(hits: seq<bool>, seen: set<nat>, k: nat): (ids: seq<nat>)
    ensures forall a :: 0 <= a < |ids| ==> k <= ids[a] < |hits|
    decreases |hits| - k
  {
    if k >= |hits| then []
    else
      var rest := ScanHeadline(hits, seen, k + 1);
      if k !in seen && hits[k] then [k] + rest else rest
  }

  /** One headline contributes exactly the unseen keywords it mentions ... */
  lemma {:induction false} ScanHeadlineExact(hits: seq<bool>, seen: set<nat>, k: nat)
    ensures forall j :: j in ScanHeadline(hits, seen, k) <==> k <= j < |hits| && j !in seen && hits[j]
    decreases |hits| - k
  {
    if k < |hits| {
      ScanHeadlineExact(hits, seen, k + 1);
    }
  }

  predicate Increasing(ids: seq<nat>) {
    forall a, b :: 0 <= a < b < |ids| ==> ids[a] < ids[b]
  }

  /** ... in increasing table order. */
  lemma {:induction false} ScanHeadlineSorted(hits: seq<bool>, seen: set<nat>, k: nat)
    ensures Increasing(ScanHeadline(hits, seen, k))
    decreases |hits| - k
  {
    if k < |hits| {
      var rest := ScanHeadline(hits, seen, k + 1);
      ScanHeadlineSorted(hits, seen, k + 1);
      if k !in seen && hits[k] {
        var ids := [k] + rest;
        assert ScanHeadline(hits, seen, k) == ids;
        forall a, b | 0 <= a < b < |ids| ensures ids[a] < ids[b] {
          assert ids[b] == rest[b - 1];
          assert k + 1 <= rest[b - 1];
          if a > 0 {
            assert ids[a] == rest[a - 1];
            assert rest[a - 1] < rest[b - 1];
          } else {
            assert ids[a] == k;
          }
        }
      }
    }
  }

  function Elements(ids: seq<nat>): (s: set<nat>)
    ensures forall j :: j in s <==> j in ids
  {
    set j | j in ids
  }

  /** The detected keyword indices after the headlines `hs`, in detection order. */
  function Scan(table: seq<Keyword>, hs: seq<string>): (ids: seq<nat>)
    ensures Indexes(ids, |table|)
  {
    if hs == [] then []
    else
      var prev := Scan(table, hs[..|hs| - 1]);
      var next := ScanHeadline(Hits(table, hs[|hs| - 1]), Elements(prev), 0);
      prev + next
  }

  predicate Distinct(ids: seq<nat>) {
    forall a, b :: 0 <= a < b < |ids| ==> ids[a] != ids[b]
  }

  /** A keyword is detected exactly when some headline mentions it, and never twice. */
  lemma {:induction false} ScanExact(table: seq<Keyword>, hs: seq<string>)
    ensures Distinct(Scan(table, hs))
    ensures forall j: nat :: j in Scan(table, hs) <==> j < |table| && exists h :: h in hs && Mentions(h, table[j].word)
  {
    if hs != [] {
      var init := hs[..|hs| - 1];
      var last := hs[|hs| - 1];
      ScanExact(table, init);
      var prev := Scan(table, init);
      var hits := Hits(table, last);
      var next := ScanHeadline(hits, Elements(prev), 0);
      ScanHeadlineExact(hits, Elements(prev), 0);
      ScanHeadlineSorted(hits, Elements(prev), 0);
      var ids := Scan(table, hs);
      assert ids == prev + next;
      assert hs == init + [last];
      forall a, b | 0 <= a < b < |ids|
        ensures ids[a] != ids[b]
      {
        if a >= |prev| {
          assert ids[a] == next[a - |prev|] && ids[b] == next[b - |prev|];
        } else if b >= |prev| {
          assert ids[a] in prev && ids[b] == next[b - |prev|];
          assert ids[b] in next;
        }
      }
    }
  }

  /** The largest weight among the detected keywords, 0 when there are none. */
  function MaxWeight(table: seq<Keyword>, ids: seq<nat>): (r: nat)
    requires Indexes(ids, |table|)
    ensures forall a :: 0 <= a < |ids| ==> table[ids[a]].weight <= r
  {
    if ids == [] then 0 else MaxInt(MaxWeight(table, ids[..|ids| - 1]), table[ids[|ids| - 1]].weight)
  }

  /** `MaxWeight` bounds every detected weight and is one of them. */
  lemma {:induction false} MaxWeightIsMax(table: seq<Keyword>, ids: seq<nat>)
    requires Indexes(ids, |table|)
    ensures forall a :: 0 <= a < |ids| ==> table[ids[a]].weight <= MaxWeight(table, ids)
    ensures ids == [] ==> MaxWeight(table, ids) == 0
    ensures ids != [] ==> exists a :: 0 <= a < |ids| && table[ids[a]].weight == MaxWeight(table, ids)
  {
    if ids != [] {
      var init := ids[..|ids| - 1];
      var last := |ids| - 1;
      MaxWeightIsMax(table, init);
      forall a | 0 <= a < |ids| ensures table[ids[a]].weight <= MaxWeight(table, ids) {
        if a < last {
          assert ids[a] == init[a];
        }
      }
      if table[ids[last]].weight < MaxWeight(table, ids) {
        var a :| 0 <= a < |init| && table[init[a]].weight == MaxWeight(table, init);
        assert ids[a] == init[a];
      }
    }
  }

  /** The bonus for several detections: +0.1 from three on, +0.05 for exactly two, capped at 1. */
  function Boost(base: nat, count: nat): (score: nat)
    ensures count >= 3 ==> score == MinInt(base + 10, 100)
    ensures count == 2 ==> score == MinInt(base + 5, 100)
    ensures count < 2 ==> score == base
  {
    if count >= 3 then MinInt(base + 10, 100)
    else if count >= 2 then MinInt(base + 5, 100)
    else base
  }

  /** The labels of the detected keywords, in detection order. */
  function Labels(table: seq<Keyword>, ids: seq<nat>): (r: seq<string>)
    requires Indexes(ids, |table|)
    ensures |r| == |ids|
  {
    if ids == [] then [] else Labels(table, ids[..|ids| - 1]) + [table[ids[|ids| - 1]].tag]
  }

  /** One label per detected keyword, each the label of that keyword. */
  lemma {:induction false} LabelsAt(table: seq<Keyword>, ids: seq<nat>)
    requires Indexes(ids, |table|)
    ensures |Labels(table, ids)| == |ids|
    ensures forall a :: 0 <= a < |ids| ==> Labels(table, ids)[a] == table[ids[a]].tag
  {
    if ids != [] {
      var init := ids[..|ids| - 1];
      LabelsAt(table, init);
      forall a | 0 <= a < |ids| ensures Labels(table, ids)[a] == table[ids[a]].tag {
        if a < |ids| - 1 {
          assert ids[a] == init[a];
        }
      }
    }
  }

  /** What `_analyze_headlines` returns: the score in hundredths and the labels in detection order. */
  datatype Analysis = Analysis(score: nat, labels: seq<string>)

  /** The score is the top detected weight, raised by at most 0.1 and only for several detections;
      there is one label per detection. */
  function Analyze(table: seq<Keyword>, hs: seq<string>): (r: Analysis)
    ensures var ids := Scan(table, hs);
      && |r.labels| == |ids|
      && r.score <= MaxWeight(table, ids) + 10
      && (|ids| < 2 ==> r.score == MaxWeight(table, ids))
  {
    var ids := Scan(table, hs);
    Analysis(Boost(MaxWeight(table, ids), |ids|), Labels(table, ids))
  }

  /** The score lies in [0, 1] and is 0 exactly when no headline mentions any keyword. */
  lemma AnalyzeScoreRange(table: seq<Keyword>, hs: seq<string>)
    requires WellWeighted(table)
    ensures Analyze(table, hs).score <= 100
    ensures Analyze(table, hs).score == 0 <==> forall j, h :: 0 <= j < |table| && h in hs ==> !Mentions(h, table[j].word)
  {
    var ids := Scan(table, hs);
    ScanExact(table, hs);
    MaxWeightIsMax(table, ids);
    if ids != [] {
      assert ids[0] in ids;
    }
  }

  /** The score is at least the weight of every mentioned keyword. */
  lemma AnalyzeScoreCovers(table: seq<Keyword>, hs: seq<string>)
    requires WellWeighted(table)
    ensures forall j, h :: 0 <= j < |table| && h in hs && Mentions(h, table[j].word) ==> table[j].weight <= Analyze(table, hs).score
  {
    var ids := Scan(table, hs);
    ScanExact(table, hs);
    MaxWeightIsMax(table, ids);
    var top := MaxWeight(table, ids);
    assert top <= 100 by {
      if ids != [] {
        var a :| 0 <= a < |ids| && table[ids[a]].weight == top;
      }
    }
    assert top <= Analyze(table, hs).score;
    forall j, h | 0 <= j < |table| && h in hs && Mentions(h, table[j].word)
      ensures table[j].weight <= top
    {
      assert j in ids;
      var a :| 0 <= a < |ids| && ids[a] == j;
    }
  }

  /** There is one label per distinct mentioned keyword. */
  lemma AnalyzeLabelCount(table: seq<Keyword>, hs: seq<string>)
    ensures |Analyze(table, hs).labels| == |Elements(Scan(table, hs))|
  {
    var ids := Scan(table, hs);
    ScanExact(table, hs);
    LabelsAt(table, ids);
    DistinctCard(ids);
  }

  /** A sequence without repetitions has as many elements as its set. */
  lemma {:induction false} DistinctCard(ids: seq<nat>)
    requires Distinct(ids)
    ensures |Elements(ids)| == |ids|
  {
    if ids != [] {
      var rest := ids[1..];
      assert Distinct(rest) by {
        forall a, b | 0 <= a < b < |rest| ensures rest[a] != rest[b] {
          assert rest[a] == ids[a + 1] && rest[b] == ids[b + 1];
        }
      }
      DistinctCard(rest);
      assert ids[0] !in rest by {
        forall a | 0 <= a < |rest| ensures rest[a] != ids[0] {
          assert rest[a] == ids[a + 1];
        }
      }
      assert Elements(ids) == {ids[0]} + Elements(rest) by {
        assert ids == [ids[0]] + rest;
      }
    }
  }

  /** Appending one detected keyword adds it to the seen set, raises the maximum to its weight
      and appends its label. */
  lemma DetectOne(table: seq<Keyword>, ids: seq<nat>, k: nat)
    requires Indexes(ids, |table|) && k < |table|
    ensures Indexes(ids + [k], |table|)
    ensures Elements(ids + [k]) == Elements(ids) + {k}
    ensures MaxWeight(table, ids + [k]) == MaxInt(MaxWeight(table, ids), table[k].weight)
    ensures Labels(table, ids + [k]) == Labels(table, ids) + [table[k].tag]
  {
    assert (ids + [k])[..|ids|] == ids;
  }

  /** `_analyze_headlines`: the outer loop over the headlines. */
  method AnalyzeHeadlines(table: seq<Keyword>, headlines: seq<string>) returns (score: nat, detected: seq<string>)
    ensures score == Analyze(table, headlines).score && detected == Analyze(table, headlines).labels
  {
    var maxScore := 0;
    ghost var ids: seq<nat> := [];
    detected := [];
    var seen: set<nat> := {};
    var i := 0;
    while i < |headlines|
      invariant 0 <= i <= |headlines|
      invariant ids == Scan(table, headlines[..i]) && seen == Elements(ids)
      invariant maxScore == MaxWeight(table, ids) && detected == Labels(table, ids)
    {
      ids, seen, maxScore, detected := ScanOneHeadline(table, headlines[i], ids, seen, maxScore, detected);
      assert headlines[..i + 1][..i] == headlines[..i];
      i := i + 1;
    }
    assert headlines[..i] == headlines;
    LabelsAt(table, ids);
    score := Boost(maxScore, |detected|);
  }

  /** The state of the inner loop after the keywords before `k`: `added` are the indices taken
      so far, and the scan from `k` on supplies the rest. */
  predicate ScanInv(table: seq<Keyword>, hits: seq<bool>, ids0: seq<nat>, seen0: set<nat>, added: seq<nat>,
                    k: nat, ids: seq<nat>, seen: set<nat>, maxScore: nat, detected: seq<string>)
  {
    && |hits| == |table| && k <= |table| && seen0 == Elements(ids0)
    && ids == ids0 + added && Indexes(ids, |table|)
    && (forall a :: 0 <= a < |added| ==> added[a] < k)
    && added + ScanHeadline(hits, seen0, k) == ScanHeadline(hits, seen0, 0)
    && seen == Elements(ids)
    && maxScore == MaxWeight(table, ids) && detected == Labels(table, ids)
  }

  /** Before the first keyword nothing is taken. */
  lemma ScanStart(table: seq<Keyword>, hits: seq<bool>, ids0: seq<nat>, seen0: set<nat>)
    requires |hits| == |table| && Indexes(ids0, |table|) && seen0 == Elements(ids0)
    ensures ScanInv(table, hits, ids0, seen0, [], 0, ids0, seen0, MaxWeight(table, ids0), Labels(table, ids0))
  {
    assert ids0 + [] == ids0;
    assert [] + ScanHeadline(hits, seen0, 0) == ScanHeadline(hits, seen0, 0);
  }

  /** After the last keyword the scan is complete. */
  lemma ScanEnd(table: seq<Keyword>, hits: seq<bool>, ids0: seq<nat>, seen0: set<nat>, added: seq<nat>,
                ids: seq<nat>, seen: set<nat>, maxScore: nat, detected: seq<string>)
    requires ScanInv(table, hits, ids0, seen0, added, |table|, ids, seen, maxScore, detected)
    ensures Indexes(ids, |table|) && ids == ids0 + ScanHeadline(hits, seen0, 0) && seen == Elements(ids)
    ensures maxScore == MaxWeight(table, ids) && detected == Labels(table, ids)
  {
    assert added + [] == added;
  }

  /** Taking keyword `k` keeps the loop state. */
  lemma ScanTake(table: seq<Keyword>, hits: seq<bool>, ids0: seq<nat>, seen0: set<nat>, added: seq<nat>,
                 k: nat, ids: seq<nat>, seen: set<nat>, maxScore: nat, detected: seq<string>)
    requires ScanInv(table, hits, ids0, seen0, added, k, ids, seen, maxScore, detected)
    requires k < |table| && k !in seen && hits[k]
    ensures ScanInv(table, hits, ids0, seen0, added + [k], k + 1, ids + [k], seen + {k},
                    MaxInt(maxScore, table[k].weight), detected + [table[k].tag])
  {
    var rest := ScanHeadline(hits, seen0, k + 1);
    assert k !in seen0;
    assert ScanHeadline(hits, seen0, k) == [k] + rest;
    assert (added + [k]) + rest == added + ([k] + rest);
    assert ids0 + (added + [k]) == ids + [k];
    DetectOne(table, ids, k);
  }

  /** Passing over keyword `k` keeps the loop state. */
  lemma ScanSkip(table: seq<Keyword>, hits: seq<bool>, ids0: seq<nat>, seen0: set<nat>, added: seq<nat>,
                 k: nat, ids: seq<nat>, seen: set<nat>, maxScore: nat, detected: seq<string>)
    requires ScanInv(table, hits, ids0, seen0, added, k, ids, seen, maxScore, detected)
    requires k < |table| && !(k !in seen && hits[k])
    ensures ScanInv(table, hits, ids0, seen0, added, k + 1, ids, seen, maxScore, detected)
  {
    assert k !in added;
    assert k in seen0 <==> k in seen;
    assert ScanHeadline(hits, seen0, k) == ScanHeadline(hits, seen0, k + 1);
  }

  /** One step of the inner loop: keyword `k` is taken when it is new and the headline
      mentions it. */
  method Visit(table: seq<Keyword>, headline: string, ghost hits: seq<bool>, ghost ids0: seq<nat>,
               ghost seen0: set<nat>, ghost added: seq<nat>, k: nat, ghost ids: seq<nat>, seen: set<nat>,
               maxScore: nat, detected: seq<string>)
    returns (ghost added': seq<nat>, ghost ids': seq<nat>, seen': set<nat>, maxScore': nat, detected': seq<string>)
    requires hits == Hits(table, headline) && k < |table|
    requires ScanInv(table, hits, ids0, seen0, added, k, ids, seen, maxScore, detected)
    ensures ScanInv(table, hits, ids0, seen0, added', k + 1, ids', seen', maxScore', detected')
  {
    var take := k !in seen && Found(headline, table[k].word);
    if take {
      ScanTake(table, hits, ids0, seen0, added, k, ids, seen, maxScore, detected);
      added', ids' := added + [k], ids + [k];
      seen', maxScore', detected' := seen + {k}, MaxInt(maxScore, table[k].weight), detected + [table[k].tag];
    } else {
      ScanSkip(table, hits, ids0, seen0, added, k, ids, seen, maxScore, detected);
      added', ids', seen', maxScore', detected' := added, ids, seen, maxScore, detected;
    }
  }

  /** The inner loop of `_analyze_headlines`: one headline against the keyword table, skipping
      keywords already seen. */
  method ScanOneHeadline(table: seq<Keyword>, headline: string, ghost ids0: seq<nat>, seen0: set<nat>,
                         max0: nat, labels0: seq<string>)
    returns (ghost ids: seq<nat>, seen: set<nat>, maxScore: nat, detected: seq<string>)
    requires Indexes(ids0, |table|) && seen0 == Elements(ids0)
    requires max0 == MaxWeight(table, ids0) && labels0 == Labels(table, ids0)
    ensures Indexes(ids, |table|)
    ensures ids == ids0 + ScanHeadline(Hits(table, headline), seen0, 0) && seen == Elements(ids)
    ensures maxScore == MaxWeight(table, ids) && detected == Labels(table, ids)
  {
    ids, seen, maxScore, detected := ids0, seen0, max0, labels0;
    ghost var hits := Hits(table, headline);
    ghost var added: seq<nat> := [];
    ScanStart(table, hits, ids0, seen0);
    for k := 0 to |table|
      invariant ScanInv(table, hits, ids0, seen0, added, k, ids, seen, maxScore, detected)
    {
      added, ids, seen, maxScore, detected := Visit(table, headline, hits, ids0, seen0, added, k, ids, seen, maxScore, detected);
    }
    ScanEnd(table, hits, ids0, seen0, added, ids, seen, maxScore, detected);
  }

  /** `NewsEventResult` without the raw news items. */
  datatype NewsEventResult = NewsEventResult(
    symbol: string, eventScore: nat, isEventDay: bool, detectedKeywords: seq<string>,
    headlines: seq<string>, error: Option<string>)

  /** `detect` with the fetched headlines, or the fetch error, given as input: an error leaves
      the default result with the message; otherwise the day is an event day exactly when the
      score reaches the threshold. */
  function Detect(symbol: string, fetched: Result<seq<string>>, threshold: real): (r: NewsEventResult)
    ensures r.symbol == symbol
    ensures fetched.Failure? ==> r == NewsEventResult(symbol, 0, false, [], [], Some(fetched.error))
    ensures fetched.Success? ==>
      && r.error == None && r.headlines == fetched.value
      && r.eventScore == Analyze(Table, fetched.value).score && r.detectedKeywords == Analyze(Table, fetched.value).labels
      && (r.isEventDay <==> r.eventScore as real / 100.0 >= threshold)
  {
    match fetched
    case Failure(e) => NewsEventResult(symbol, 0, false, [], [], Some(e))
    case Success(hs) =>
      var a := Analyze(Table, hs);
      NewsEventResult(symbol, a.score, a.score as real / 100.0 >= threshold, a.labels, hs, None)
  }
}
