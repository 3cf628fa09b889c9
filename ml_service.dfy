/**
 * The recommendation pipeline of `PredictionService`: top-N crop selection from the
 * classifier's probabilities, the schema-aligned yield row, the table lookups and the
 * profit arithmetic. The scalers and the two learned models are opaque functions held
 * in an immutable `Artifacts` bundle.
 */
module MlService {
  import opened Results

  type Label = string

  /** Live environmental features, keyed by feature name (`live_features`). */
  type LiveFeatures = map<string, real>

  /** The loaded artifacts: set once when the service is built and only read afterwards. */
  datatype Artifacts = Artifacts(
    cropScaler: seq<Option<real>> -> seq<real>,   // crop_recommender_scaler.transform
    cropRecommender: seq<real> -> seq<real>,      // crop_recommender.predict_proba, one row
    classes: seq<Label>,                          // crop_recommender.classes_
    yieldScaler: seq<real> -> seq<real>,          // yield_forecaster_scaler.transform
    yieldForecaster: seq<real> -> real,           // yield_forecaster.predict, one row
    yieldModelColumns: seq<string>,               // the regressor's training-time columns
    sustainabilityScores: map<Label, real>,       // label -> sustainability_score
    costOfCultivation: map<Label, real>)          // label -> cost
  {
    /** What a fitted classifier guarantees: distinct class labels and one probability per label. */
    ghost predicate Valid()
    {
      && Distinct(classes)
      && forall x :: |cropRecommender(x)| == |classes|
    }

    /** The classifier's probability row for the given live features. */
    function Probabilities(live: LiveFeatures): seq<real>
    {
      cropRecommender(cropScaler(RecommenderFeatures(live)))
    }
  }

  predicate Distinct<T(==)>(s: seq<T>)
  {
    forall i, j :: 0 <= i < j < |s| ==> s[i] != s[j]
  }

  // ---------------------------------------------------------------------------
  // Classifier input
  // ---------------------------------------------------------------------------

  /** One column of the classifier's input frame: the live key it is read from and
      the placeholder used when that key is absent (`None`: no placeholder). */
  datatype FeatureColumn = FeatureColumn(name: string, key: string, placeholder: Option<real>)

  const ClassifierColumns: seq<FeatureColumn> := [
    FeatureColumn("N", "topsoil_nitrogen", Some(100.0)),
    FeatureColumn("P", "P_placeholder", Some(50.0)),
    FeatureColumn("K", "K_placeholder", Some(50.0)),
    FeatureColumn("temperature", "avg_temp_celsius", None),
    FeatureColumn("humidity", "avg_humidity_percent", None),
    FeatureColumn("ph", "topsoil_phh2o", None),
    FeatureColumn("rainfall", "total_rainfall_mm", None)
  ]

  /** The single row handed to the classifier's scaler; `None` is a missing value. */
  function RecommenderFeatures(live: LiveFeatures): (row: seq<Option<real>>)
    ensures |row| == 7
    ensures row[0] == Some(if "topsoil_nitrogen" in live then live["topsoil_nitrogen"] else 100.0)
    ensures row[1] == Some(if "P_placeholder" in live then live["P_placeholder"] else 50.0)
    ensures row[2] == Some(if "K_placeholder" in live then live["K_placeholder"] else 50.0)
    ensures row[3].Some? <==> "avg_temp_celsius" in live
    ensures row[4].Some? <==> "avg_humidity_percent" in live
    ensures row[5].Some? <==> "topsoil_phh2o" in live
    ensures row[6].Some? <==> "total_rainfall_mm" in live
    ensures forall i :: 3 <= i < 7 && row[i].Some? ==> row[i].value == live[ClassifierColumns[i].key]
  {
    seq(|ClassifierColumns|, i requires 0 <= i < |ClassifierColumns| =>
      var c := ClassifierColumns[i];
      if c.key in live then Some(live[c.key]) else c.placeholder)
  }

  // ---------------------------------------------------------------------------
  // argsort, slice, reverse
  // ---------------------------------------------------------------------------

  predicate InRange(s: seq<nat>, m: nat)
  {
    forall k :: 0 <= k < |s| ==> s[k] < m
  }

  /** The indices in `s` list their probabilities in ascending order. */
  predicate Ascending(p: seq<real>, s: seq<nat>)
    requires InRange(s, |p|)
  {
    forall i, j :: 0 <= i < j < |s| ==> p[s[i]] <= p[s[j]]
  }

  /** Inserts index `x` into the ascending index list `s`, after every index of equal probability. */
  function InsertByProbability(p: seq<real>, x: nat, s: seq<nat>): (r: seq<nat>)
    requires x < |p| && InRange(s, |p|) && Ascending(p, s)
    ensures |r| == |s| + 1
    ensures forall y :: y in r <==> y == x || y in s
    ensures InRange(r, |p|) && Ascending(p, r)
    ensures Distinct(s) && x !in s ==> Distinct(r)
    decreases |s|
  {
    if s == [] || p[x] < p[s[0]] then [x] + s
    else
      var t := InsertByProbability(p, x, s[1..]);
      assert forall k :: 0 <= k < |t| ==> p[s[0]] <= p[t[k]] by {
        forall k | 0 <= k < |t| ensures p[s[0]] <= p[t[k]] {
          assert t[k] in t;
          if t[k] != x {
            var q :| 0 <= q < |s[1..]| && s[1..][q] == t[k];
            assert s[q + 1] == t[k];
          }
        }
      }
      assert Distinct(s) && x !in s ==> s[0] !in t && Distinct(t) by {
        if Distinct(s) && x !in s {
          assert Distinct(s[1..]);
        }
      }
      [s[0]] + t
  }

  /** `argsort` of the first `m` probabilities: those indices, ordered by ascending probability. */
  function ArgSortPrefix(p: seq<real>, m: nat): (r: seq<nat>)
    requires m <= |p|
    ensures |r| == m && InRange(r, |p|) && Ascending(p, r)
  {
    if m == 0 then [] else InsertByProbability(p, m - 1, ArgSortPrefix(p, m - 1))
  }

  /** The argsort of the first `m` probabilities is a permutation of the indices below `m`. */
  lemma {:induction false} ArgSortPrefixPermutation(p: seq<real>, m: nat)
    requires m <= |p|
    ensures Distinct(ArgSortPrefix(p, m))
    ensures forall y :: y in ArgSortPrefix(p, m) <==> 0 <= y < m
  {
    if m > 0 {
      ArgSortPrefixPermutation(p, m - 1);
    }
  }

  /** Python's `s[-n:]` for `n >= 0`: note that `-0` is `0`, so `n == 0` keeps everything. */
  function LastN<T>(s: seq<T>, n: nat): seq<T>
  {
    if n == 0 || n >= |s| then s else s[|s| - n..]
  }

  /** Python's `s[::-1]`. */
  function Reversed<T>(s: seq<T>): (r: seq<T>)
    ensures |r| == |s|
  {
    seq(|s|, i requires 0 <= i < |s| => s[|s| - 1 - i])
  }

  /** The number of labels `argsort()[0][-n:]` keeps out of `count`. */
  function SelectionSize(n: nat, count: nat): nat
  {
    if n == 0 || n >= count then count else n
  }

  /** `s[-n:][::-1]`: the last `SelectionSize(n, |s|)` elements of `s`, the last one first. */
  function LastNReversed<T>(s: seq<T>, n: nat): (r: seq<T>)
    ensures |r| == SelectionSize(n, |s|)
    ensures forall i :: 0 <= i < |r| ==> r[i] == s[|s| - 1 - i]
  {
    var last := LastN(s, n);
    assert forall j :: 0 <= j < |last| ==> last[j] == s[|s| - |last| + j];
    Reversed(last)
  }

  /** `probabilities.argsort()[0][-n:][::-1]`: `min(n, |p|)` indices (all of them when
      `n == 0`), position `i` holding position `|p| - 1 - i` of the ascending argsort. */
  function TopIndices(p: seq<real>, n: nat): (r: seq<nat>)
    ensures |r| == SelectionSize(n, |p|) && InRange(r, |p|)
    ensures forall i :: 0 <= i < |r| ==> r[i] == ArgSortPrefix(p, |p|)[|p| - 1 - i]
  {
    LastNReversed(ArgSortPrefix(p, |p|), n)
  }

  /** The selection lists distinct indices in non-increasing probability. */
  lemma TopIndicesDescending(p: seq<real>, n: nat, i: nat, j: nat)
    requires i < j < |TopIndices(p, n)|
    ensures TopIndices(p, n)[i] != TopIndices(p, n)[j]
    ensures p[TopIndices(p, n)[i]] >= p[TopIndices(p, n)[j]]
  {
    ArgSortPrefixPermutation(p, |p|);
  }

  /** The last `min(n, |p|)` indices of the ascending argsort are all selected. */
  lemma LastOfArgSortSelected(p: seq<real>, n: nat, q: nat)
    requires |p| - SelectionSize(n, |p|) <= q < |p|
    ensures ArgSortPrefix(p, |p|)[q] in TopIndices(p, n)
  {
    assert TopIndices(p, n)[|p| - 1 - q] == ArgSortPrefix(p, |p|)[q];
  }

  /** A selected index is at least as probable as any index left out. */
  lemma TopIndicesDominate(p: seq<real>, n: nat, i: nat, y: nat)
    requires i < |TopIndices(p, n)| && y < |p| && y !in TopIndices(p, n)
    ensures p[TopIndices(p, n)[i]] >= p[y]
  {
    var s := ArgSortPrefix(p, |p|);
    var k := SelectionSize(n, |p|);
    ArgSortPrefixPermutation(p, |p|);
    assert y in s;
    var q :| 0 <= q < |s| && s[q] == y;
    if q >= |p| - k {
      LastOfArgSortSelected(p, n, q);
      assert false;
    }
  }

  /** The indices in `r` list their probabilities in non-increasing order. */
  predicate Descending(p: seq<real>, r: seq<nat>)
    requires InRange(r, |p|)
  {
    forall i, j :: 0 <= i < j < |r| ==> p[r[i]] >= p[r[j]]
  }

  /** No index of `p` left out of `r` is more probable than one in `r`. */
  predicate Dominates(p: seq<real>, r: seq<nat>)
    requires InRange(r, |p|)
  {
    forall i, y :: 0 <= i < |r| && 0 <= y < |p| && y !in r ==> p[r[i]] >= p[y]
  }

  /** The selected indices: `min(n, |p|)` of them (all when `n == 0`), distinct, in
      non-increasing probability, and none less probable than any index left out.
      The order among equal probabilities is not part of the statement. */
  lemma TopIndicesSelectHighest(p: seq<real>, n: nat)
    ensures var r := TopIndices(p, n);
      |r| == SelectionSize(n, |p|) && InRange(r, |p|) && Distinct(r) && Descending(p, r) && Dominates(p, r)
  {
    var r := TopIndices(p, n);
    assert |r| == SelectionSize(n, |p|);
    assert Distinct(r) && Descending(p, r) by {
      forall i, j | 0 <= i < j < |r|
        ensures r[i] != r[j] && p[r[i]] >= p[r[j]]
      {
        TopIndicesDescending(p, n, i, j);
      }
    }
    assert Dominates(p, r) by {
      forall i, y | 0 <= i < |r| && 0 <= y < |p| && y !in r
        ensures p[r[i]] >= p[y]
      {
        TopIndicesDominate(p, n, i, y);
      }
    }
  }

  // ---------------------------------------------------------------------------
  // Top-N crop labels
  // ---------------------------------------------------------------------------

  /** Position of `x` in `s`. */
  function IndexOf(s: seq<Label>, x: Label): (i: nat)
    requires x in s
    ensures i < |s| && s[i] == x
  {
    if s[0] == x then 0 else 1 + IndexOf(s[1..], x)
  }

  lemma {:induction false} IndexOfDistinct(s: seq<Label>, i: nat)
    requires Distinct(s) && i < |s|
    ensures IndexOf(s, s[i]) == i
  {
    if i > 0 && s[0] != s[i] {
      assert Distinct(s[1..]);
      IndexOfDistinct(s[1..], i - 1);
    }
  }

  /** The probability the classifier gives `crop` for these live features. */
  function Probability(a: Artifacts, live: LiveFeatures, crop: Label): real
    requires a.Valid() && crop in a.classes
  {
    a.Probabilities(live)[IndexOf(a.classes, crop)]
  }

  /** `_get_top_recommendations(live_features, n)`: `classes_[top_n_indices]`. */
  function TopRecommendations(a: Artifacts, live: LiveFeatures, n: nat): (crops: seq<Label>)
    requires a.Valid()
    ensures |crops| == SelectionSize(n, |a.classes|)
    ensures forall i :: 0 <= i < |crops| ==> crops[i] in a.classes
  {
    var p := a.Probabilities(live);
    assert |p| == |a.classes|;
    var idx := TopIndices(p, n);
    assert |idx| == SelectionSize(n, |a.classes|) && InRange(idx, |a.classes|);
    seq(|idx|, i requires 0 <= i < |idx| => a.classes[idx[i]])
  }

  /** The selected labels are `min(n, |classes_|)` distinct class labels (all of them
      when `n == 0`), in non-increasing probability, each at least as probable as
      every label left out. */
  lemma TopRecommendationsSelectHighest(a: Artifacts, live: LiveFeatures, n: nat)
    requires a.Valid()
    ensures var crops := TopRecommendations(a, live, n);
      && |crops| == SelectionSize(n, |a.classes|)
      && (forall i :: 0 <= i < |crops| ==> crops[i] in a.classes)
      && Distinct(crops)
      && (forall i, j :: 0 <= i < j < |crops| ==>
            Probability(a, live, crops[i]) >= Probability(a, live, crops[j]))
      && (forall i, c :: 0 <= i < |crops| && c in a.classes && c !in crops ==>
            Probability(a, live, crops[i]) >= Probability(a, live, c))
  {
    var p := a.Probabilities(live);
    var idx := TopIndices(p, n);
    var crops := TopRecommendations(a, live, n);
    TopIndicesSelectHighest(p, n);
    assert |crops| == |idx|;
    forall i | 0 <= i < |crops|
      ensures crops[i] == a.classes[idx[i]] && Probability(a, live, crops[i]) == p[idx[i]]
    {
      IndexOfDistinct(a.classes, idx[i]);
    }
    assert Distinct(crops) by {
      forall i, j | 0 <= i < j < |crops| ensures crops[i] != crops[j] {
        assert idx[i] != idx[j];
      }
    }
    forall i, c | 0 <= i < |crops| && c in a.classes && c !in crops
      ensures Probability(a, live, crops[i]) >= Probability(a, live, c)
    {
      var y := IndexOf(a.classes, c);
      assert y !in idx by {
        forall j | 0 <= j < |idx| ensures idx[j] != y {
          assert crops[j] != c;
        }
      }
    }
  }

  /** `get_final_recommendations` calls the selection with its default `n=5`. */
  lemma DefaultSelectionSize(a: Artifacts, live: LiveFeatures)
    requires a.Valid()
    ensures |TopRecommendations(a, live, 5)| == if |a.classes| < 5 then |a.classes| else 5
  {
  }

  // ---------------------------------------------------------------------------
  // Yield row
  // ---------------------------------------------------------------------------

  /** The one-hot column of a crop label. */
  function LabelColumn(crop: Label): string
  {
    "label_" + crop
  }

  /** The regressor's input row for `crop`: one cell per schema column, in schema order.
      A live feature of the same name wins; otherwise the crop's one-hot column is 1 and
      every other column is 0. */
  function YieldRow(columns: seq<string>, crop: Label, live: LiveFeatures): (row: seq<real>)
    ensures |row| == |columns|
    ensures forall i :: 0 <= i < |columns| && columns[i] in live ==> row[i] == live[columns[i]]
    ensures forall i :: 0 <= i < |columns| && columns[i] !in live ==>
      row[i] == if columns[i] == LabelColumn(crop) then 1.0 else 0.0
  {
    seq(|columns|, i requires 0 <= i < |columns| =>
      if columns[i] in live then live[columns[i]]
      else if columns[i] == LabelColumn(crop) then 1.0
      else 0.0)
  }

  /** Builds the yield row cell by cell, as the data frame is filled: zero every
      column, set the crop's one-hot column when the schema has one, then copy in the
      live features whose names are columns. */
  method BuildYieldRow(columns: seq<string>, crop: Label, live: LiveFeatures) returns (row: seq<real>)
    ensures row == YieldRow(columns, crop, live)
  {
    var encoded := new real[|columns|](_ => 0.0);
    var cropColumn := LabelColumn(crop);
    if cropColumn in columns {
      for j := 0 to encoded.Length
        invariant forall k :: 0 <= k < j ==> encoded[k] == if columns[k] == cropColumn then 1.0 else 0.0
        invariant forall k :: j <= k < encoded.Length ==> encoded[k] == 0.0
      {
        if columns[j] == cropColumn {
          encoded[j] := 1.0;
        }
      }
    }
    for j := 0 to encoded.Length
      invariant forall k :: 0 <= k < j ==> encoded[k] == YieldRow(columns, crop, live)[k]
      invariant forall k :: j <= k < encoded.Length ==>
        encoded[k] == if columns[k] == cropColumn then 1.0 else 0.0
    {
      if columns[j] in live {
        encoded[j] := live[columns[j]];
      }
    }
    row := encoded[..];
  }

  // ---------------------------------------------------------------------------
  // Scoring
  // ---------------------------------------------------------------------------

  /** The market price used when the live features carry none. */
  const DefaultMarketPrice: real := 2500.0

  /** One entry of the final list (before rounding to two decimals). */
  datatype CropAdvice = CropAdvice(
    crop: string,
    predictedYield: real,
    sustainabilityScore: real,
    estimatedProfit: real)

  /** `sustainability_scores.loc[crop, ...]` raises `KeyError` for a label it lacks. */
  datatype Fault = MissingSustainabilityScore(crop: Label)

  function MarketPrice(live: LiveFeatures): (price: real)
    ensures "avg_modal_price" in live ==> price == live["avg_modal_price"]
    ensures "avg_modal_price" !in live ==> price == 2500.0
  {
    if "avg_modal_price" in live then live["avg_modal_price"] else DefaultMarketPrice
  }

  function CultivationCost(a: Artifacts, crop: Label): (cost: real)
    ensures crop in a.costOfCultivation ==> cost == a.costOfCultivation[crop]
    ensures crop !in a.costOfCultivation ==> cost == 0.0
  {
    if crop in a.costOfCultivation then a.costOfCultivation[crop] else 0.0
  }

  /** `yield_forecaster.predict(yield_scaler.transform(row))[0]`. */
  function Forecast(a: Artifacts, row: seq<real>): real
  {
    a.yieldForecaster(a.yieldScaler(row))
  }

  function PredictedYield(a: Artifacts, live: LiveFeatures, crop: Label): real
  {
    Forecast(a, YieldRow(a.yieldModelColumns, crop, live))
  }

  /** Only the schema's columns reach the regressor: two sets of live features that agree
      on every schema column give the same predicted yield, whatever else they hold. */
  lemma PredictedYieldReadsSchemaColumns(a: Artifacts, live: LiveFeatures, other: LiveFeatures, crop: Label)
    requires forall c :: c in a.yieldModelColumns ==> (c in live <==> c in other)
    requires forall c :: c in a.yieldModelColumns && c in live ==> live[c] == other[c]
    ensures PredictedYield(a, live, crop) == PredictedYield(a, other, crop)
  {
    var columns := a.yieldModelColumns;
    assert YieldRow(columns, crop, live) == YieldRow(columns, crop, other);
  }

  function Upper(c: char): char
  {
    if 'a' <= c <= 'z' then (c as int - 32) as char else c
  }

  function Lower(c: char): char
  {
    if 'A' <= c <= 'Z' then (c as int + 32) as char else c
  }

  /** `str.capitalize` (ASCII letters): the first character upper-cased, the rest lower-cased. */
  function Capitalize(s: string): (r: string)
    ensures |r| == |s|
    ensures forall i :: 0 <= i < |s| ==> Lower(r[i]) == Lower(s[i])
    ensures r != [] ==> !('a' <= r[0] <= 'z')
    ensures forall i :: 1 <= i < |r| ==> !('A' <= r[i] <= 'Z')
  {
    seq(|s|, i requires 0 <= i < |s| => if i == 0 then Upper(s[i]) else Lower(s[i]))
  }

  /** Capitalising twice is capitalising once. */
  lemma CapitalizeIdempotent(s: string)
    ensures Capitalize(Capitalize(s)) == Capitalize(s)
  {
  }

  /** `gross_revenue - cost`, with `gross_revenue = predicted_yield * market_price_per_quintal`. */
  function Profit(predictedYield: real, price: real, cost: real): real
  {
    predictedYield * price - cost
  }

  /** One loop iteration: the yield, the lookups and the profit for one crop. */
  function ScoreCrop(a: Artifacts, live: LiveFeatures, price: real, crop: Label): (r: Result<CropAdvice, Fault>)
    ensures r.Failure? <==> crop !in a.sustainabilityScores
    ensures r.Failure? ==> r.error == MissingSustainabilityScore(crop)
  {
    if crop !in a.sustainabilityScores then Failure(MissingSustainabilityScore(crop))
    else
      var predicted := PredictedYield(a, live, crop);
      Success(CropAdvice(
        Capitalize(crop),
        predicted,
        a.sustainabilityScores[crop],
        Profit(predicted, price, CultivationCost(a, crop))))
  }

  /** The loop over the selected crops: the first failure aborts with no partial list. */
  function ScoreAll(a: Artifacts, live: LiveFeatures, price: real, crops: seq<Label>): (r: Result<seq<CropAdvice>, Fault>)
    ensures r.Success? ==> |r.value| == |crops|
    decreases |crops|
  {
    if crops == [] then Success([])
    else
      match ScoreAll(a, live, price, crops[..|crops| - 1])
      case Failure(e) => Failure(e)
      case Success(prefix) =>
        match ScoreCrop(a, live, price, crops[|crops| - 1])
        case Failure(e) => Failure(e)
        case Success(c) => Success(prefix + [c])
  }

  /** `get_final_recommendations(live_features)`. */
  function FinalRecommendations(a: Artifacts, live: LiveFeatures): (r: Result<seq<CropAdvice>, Fault>)
    requires a.Valid()
    ensures r.Success? ==> |r.value| == if |a.classes| < 5 then |a.classes| else 5
  {
    ScoreAll(a, live, MarketPrice(live), TopRecommendations(a, live, 5))
  }

  /** Scoring succeeds exactly when every crop has a sustainability score; then it keeps
      the crops' order, one entry per crop; otherwise it fails on the first crop without
      a score. */
  lemma {:induction false} ScoreAllSpec(a: Artifacts, live: LiveFeatures, price: real, crops: seq<Label>)
    ensures var r := ScoreAll(a, live, price, crops);
      && (r.Success? <==> forall k :: 0 <= k < |crops| ==> crops[k] in a.sustainabilityScores)
      && (r.Success? ==> |r.value| == |crops| && forall k :: 0 <= k < |crops| ==>
            ScoreCrop(a, live, price, crops[k]) == Success(r.value[k]))
      && (r.Failure? ==>
            exists k :: && 0 <= k < |crops|
                         && crops[k] !in a.sustainabilityScores
                         && r.error == MissingSustainabilityScore(crops[k])
                         && forall j :: 0 <= j < k ==> crops[j] in a.sustainabilityScores)
    decreases |crops|
  {
    if crops == [] {
      return;
    }
    var init := crops[..|crops| - 1];
    var last := crops[|crops| - 1];
    ScoreAllSpec(a, live, price, init);
    var r0 := ScoreAll(a, live, price, init);
    var r := ScoreAll(a, live, price, crops);
    assert forall j :: 0 <= j < |init| ==> crops[j] == init[j];
    if r0.Failure? {
      assert r == r0;
      var k :| && 0 <= k < |init|
               && init[k] !in a.sustainabilityScores
               && r0.error == MissingSustainabilityScore(init[k])
               && forall j :: 0 <= j < k ==> init[j] in a.sustainabilityScores;
      assert crops[k] !in a.sustainabilityScores;
    } else if last !in a.sustainabilityScores {
      assert r == Failure(MissingSustainabilityScore(last));
    } else {
      var c := ScoreCrop(a, live, price, last);
      assert r == Success(r0.value + [c.value]);
      forall k | 0 <= k < |crops|
        ensures crops[k] in a.sustainabilityScores
        ensures ScoreCrop(a, live, price, crops[k]) == Success(r.value[k])
      {
        if k < |init| {
          assert crops[k] == init[k];
        }
      }
    }
  }

  /** The scoring loop's result after a failing prefix is that prefix's failure. */
  lemma {:induction false} ScoreAllFailedPrefix(a: Artifacts, live: LiveFeatures, price: real, crops: seq<Label>, i: nat)
    requires i <= |crops| && ScoreAll(a, live, price, crops[..i]).Failure?
    ensures ScoreAll(a, live, price, crops) == ScoreAll(a, live, price, crops[..i])
    decreases |crops| - i
  {
    if i < |crops| {
      assert crops[..i + 1][..i] == crops[..i];
      ScoreAllFailedPrefix(a, live, price, crops, i + 1);
    } else {
      assert crops[..i] == crops;
    }
  }

  /** `get_final_recommendations` fails exactly when one of the selected crops has no
      sustainability score; a missing cultivation cost is never an error. */
  lemma FinalRecommendationsFailure(a: Artifacts, live: LiveFeatures)
    requires a.Valid()
    ensures var top := TopRecommendations(a, live, 5);
      FinalRecommendations(a, live).Failure? <==>
        exists k :: 0 <= k < |top| && top[k] !in a.sustainabilityScores
  {
    ScoreAllSpec(a, live, MarketPrice(live), TopRecommendations(a, live, 5));
  }

  /** A scored crop has a sustainability score; its entry holds the capitalised name, the
      regressor's forecast on the crop's yield row, that score, and
      profit = yield * price - cost. */
  lemma ScoreCropFields(a: Artifacts, live: LiveFeatures, price: real, crop: Label, c: CropAdvice)
    requires ScoreCrop(a, live, price, crop) == Success(c)
    ensures crop in a.sustainabilityScores
    ensures c.crop == Capitalize(crop)
    ensures c.predictedYield == PredictedYield(a, live, crop)
    ensures c.sustainabilityScore == a.sustainabilityScores[crop]
    ensures c.estimatedProfit == Profit(c.predictedYield, price, CultivationCost(a, crop))
  {
  }

  /** A successful scoring list holds, for each crop in order, the capitalised name, the
      forecast yield of the crop's yield row, the crop's sustainability score and
      profit = yield * price - cost; there is no re-sort. */
  lemma ScoreAllEntries(a: Artifacts, live: LiveFeatures, price: real, crops: seq<Label>)
    ensures var r := ScoreAll(a, live, price, crops);
      r.Success? ==>
        && |r.value| == |crops|
        && forall k :: 0 <= k < |crops| ==>
             && crops[k] in a.sustainabilityScores
             && r.value[k].crop == Capitalize(crops[k])
             && r.value[k].predictedYield == PredictedYield(a, live, crops[k])
             && r.value[k].sustainabilityScore == a.sustainabilityScores[crops[k]]
             && r.value[k].estimatedProfit
                == Profit(r.value[k].predictedYield, price, CultivationCost(a, crops[k]))
  {
    var r := ScoreAll(a, live, price, crops);
    ScoreAllSpec(a, live, price, crops);
    if r.Success? {
      forall k | 0 <= k < |crops|
        ensures crops[k] in a.sustainabilityScores
        ensures r.value[k].crop == Capitalize(crops[k])
        ensures r.value[k].predictedYield == PredictedYield(a, live, crops[k])
        ensures r.value[k].sustainabilityScore == a.sustainabilityScores[crops[k]]
        ensures r.value[k].estimatedProfit
                == Profit(r.value[k].predictedYield, price, CultivationCost(a, crops[k]))
      {
        ScoreCropFields(a, live, price, crops[k], r.value[k]);
      }
    }
  }

  /** The loop of `get_final_recommendations`: scores the crops one by one, appending each
      entry to the list, and stops at the first crop without a sustainability score. */
  method ScoreCrops(a: Artifacts, live: LiveFeatures, price: real, crops: seq<Label>)
    returns (r: Result<seq<CropAdvice>, Fault>)
    ensures r == ScoreAll(a, live, price, crops)
  {
    var finalResults: seq<CropAdvice> := [];
    for i := 0 to |crops|
      invariant ScoreAll(a, live, price, crops[..i]) == Success(finalResults)
    {
      var crop := crops[i];
      var row := BuildYieldRow(a.yieldModelColumns, crop, live);
      var predicted := Forecast(a, row);
      assert crops[..i + 1][..i] == crops[..i];
      if crop !in a.sustainabilityScores {
        ScoreAllFailedPrefix(a, live, price, crops, i + 1);
        return Failure(MissingSustainabilityScore(crop));
      }
      var sustainability := a.sustainabilityScores[crop];
      var cost := CultivationCost(a, crop);
      var profit := Profit(predicted, price, cost);
      var advice := CropAdvice(Capitalize(crop), predicted, sustainability, profit);
      assert predicted == PredictedYield(a, live, crop);
      assert ScoreCrop(a, live, price, crop).value.crop == advice.crop;
      finalResults := finalResults + [advice];
    }
    assert crops[..|crops|] == crops;
    r := Success(finalResults);
  }

  /** `get_final_recommendations`: the top five crops, scored at the live market price. */
  method GetFinalRecommendations(a: Artifacts, live: LiveFeatures) returns (r: Result<seq<CropAdvice>, Fault>)
    requires a.Valid()
    ensures r == FinalRecommendations(a, live)
  {
    var topCrops := TopRecommendations(a, live, 5);
    var price := MarketPrice(live);
    r := ScoreCrops(a, live, price, topCrops);
  }
}
