/** The apiary-potential model wrapper of `backend/models/ml_model.py`. The random forest
    and the standard scaler are abstract: a regressor is a prediction function with its
    feature importances, a scaler is a transformation of the feature vector. */
module SuitabilityModel {
  import opened Wrappers

  /** A fitted regressor: its prediction on one scaled row and its `feature_importances_`. */
  datatype Regressor = Regressor(predictRaw: seq<real> -> real, featureImportances: seq<real>)

  /** A fitted scaler's `transform` on one row. */
  datatype Scaler = Scaler(transform: seq<real> -> seq<real>)

  /** The dictionary written by `_save_model` and read back by `_load_model`. */
  datatype Bundle = Bundle(model: Option<Regressor>, scaler: Scaler, featureNames: seq<string>, timestamp: string)

  /** The feature schema the model is built with. */
  const DefaultFeatureNames: seq<string> :=
    ["ndvi", "evi", "forest_pct", "shrubland_pct", "grassland_pct", "cropland_pct", "urban_pct",
     "water_pct", "elevation", "slope", "temp_avg", "rainfall_mm", "wind_speed", "water_distance_km"]

  /** `features.get(name, 0.0)`. */
  function Get(features: map<string, real>, name: string): real
  {
    if name in features then features[name] else 0.0
  }

  /** The input row: one value per feature name, in schema order, 0.0 for a missing key. */
  function OrderedFeatures(names: seq<string>, features: map<string, real>): (row: seq<real>)
    ensures |row| == |names|
    ensures forall i :: 0 <= i < |names| && names[i] in features ==> row[i] == features[names[i]]
    ensures forall i :: 0 <= i < |names| && names[i] !in features ==> row[i] == 0.0
  {
    seq(|names|, i requires 0 <= i < |names| => Get(features, names[i]))
  }

  /** `np.clip(x, 0, 100)`. */
  function Clip(x: real): (r: real)
    ensures 0.0 <= r <= 100.0
    ensures 0.0 <= x <= 100.0 ==> r == x
    ensures x < 0.0 ==> r == 0.0
    ensures x > 100.0 ==> r == 100.0
  {
    if x < 0.0 then 0.0 else if x > 100.0 then 100.0 else x
  }

  /** `dict(zip(names, values))` for equally long lists: a later duplicate name overwrites. */
  function ZipMap(names: seq<string>, values: seq<real>): (m: map<string, real>)
    requires |names| == |values|
    ensures m.Keys == set i | 0 <= i < |names| :: names[i]
  {
    if names == [] then map[]
    else ZipMap(names[..|names| - 1], values[..|values| - 1])[names[|names| - 1] := values[|values| - 1]]
  }

  /** With distinct names every name maps to the value at its own position. */
  lemma {:induction false} ZipMapDistinct(names: seq<string>, values: seq<real>, i: nat)
    requires |names| == |values| && i < |names|
    requires forall a, b :: 0 <= a < b < |names| ==> names[a] != names[b]
    ensures ZipMap(names, values)[names[i]] == values[i]
  {
    if i < |names| - 1 {
      ZipMapDistinct(names[..|names| - 1], values[..|values| - 1], i);
    }
  }

  // ---------------------------------------------------------------- factor texts

  predicate IsPrefix(t: string, s: string)
  {
    |t| <= |s| && s[..|t|] == t
  }

  /** Python's `t in s` for strings. */
  predicate Contains(s: string, t: string)
    decreases |s|
  {
    IsPrefix(t, s) || (|s| > 0 && Contains(s[1..], t))
  }

  lemma {:induction false} ContainsAt(s: string, t: string, i: nat)
    requires i + |t| <= |s| && s[i..i + |t|] == t
    ensures Contains(s, t)
    decreases i
  {
    if i > 0 {
      assert s[1..][i - 1..i - 1 + |t|] == s[i..i + |t|];
      ContainsAt(s[1..], t, i - 1);
    }
  }

  predicate IsUpper(c: char) { 'A' <= c <= 'Z' }
  predicate IsLower(c: char) { 'a' <= c <= 'z' }
  predicate IsLetter(c: char) { IsUpper(c) || IsLower(c) }

  function ToUpper(c: char): char
  {
    if IsLower(c) then (c as int - 32) as char else c
  }

  function ToLower(c: char): char
  {
    if IsUpper(c) then (c as int + 32) as char else c
  }

  /** Whether position `i` of `s` follows a letter; before the first position that is
      `afterLetter`. */
  predicate FollowsLetter(s: string, i: nat, afterLetter: bool)
    requires i < |s|
  {
    if i == 0 then afterLetter else IsLetter(s[i - 1])
  }

  /** `str.title()` on ASCII text, continuing after a letter when `afterLetter` holds: a letter
      that follows a letter is lowered, any other letter is raised. */
  function TitleFrom(s: string, afterLetter: bool): (r: string)
    ensures |r| == |s|
    ensures forall i :: 0 <= i < |s| ==>
      r[i] == (if !IsLetter(s[i]) then s[i] else if FollowsLetter(s, i, afterLetter) then ToLower(s[i]) else ToUpper(s[i]))
  {
    if s == [] then []
    else
      var c := s[0];
      [if IsLetter(c) then (if afterLetter then ToLower(c) else ToUpper(c)) else c] + TitleFrom(s[1..], IsLetter(c))
  }

  function Title(s: string): (r: string)
    ensures |r| == |s|
    ensures forall i :: 0 <= i < |s| ==>
      r[i] == (if !IsLetter(s[i]) then s[i] else if i > 0 && IsLetter(s[i - 1]) then ToLower(s[i]) else ToUpper(s[i]))
  {
    TitleFrom(s, false)
  }

  /** Title casing keeps letters letters and non-letters unchanged, so applying it twice
      changes nothing more. */
  lemma {:induction false} TitleIdempotent(s: string, afterLetter: bool)
    ensures TitleFrom(TitleFrom(s, afterLetter), afterLetter) == TitleFrom(s, afterLetter)
  {
    if s != [] {
      var t := TitleFrom(s, afterLetter);
      assert t[1..] == TitleFrom(s[1..], IsLetter(s[0]));
      assert IsLetter(t[0]) == IsLetter(s[0]);
      TitleIdempotent(s[1..], IsLetter(s[0]));
    }
  }

  /** `name.replace('_', ' ')`. */
  function Underscores(name: string): (r: string)
    ensures |r| == |name|
    ensures forall i :: 0 <= i < |r| ==> r[i] == (if name[i] == '_' then ' ' else name[i])
  {
    seq(|name|, i requires 0 <= i < |name| => if name[i] == '_' then ' ' else name[i])
  }

  const GenericSuffix: string := " tem impacto significativo"

  /** Whether one of the five fixed-sentence rules fires for a feature. */
  predicate RuleApplies(name: string, value: real)
  {
    (name == "ndvi" && value > 0.6) || (name == "water_distance_km" && value < 0.3) ||
    (name == "urban_pct" && value > 0.4) || (name == "forest_pct" && value > 0.5) ||
    Contains(name, "temp_avg")
  }

  /** The six fixed sentences of the rule table. */
  const RuleTexts: seq<string> := [
    "Alta densidade de vegetação é muito favorável",
    "Proximidade de fontes de água é positiva",
    "Alta urbanização reduz o potencial apícola",
    "Boa cobertura florestal aumenta potencial de néctar",
    "Temperatura está em faixa adequada",
    "Temperatura não está na faixa ideal"]

  /** The factor sentence for one top feature; the rules are tried in order. A fixed sentence
      is given exactly when a rule fires; otherwise the sentence is the title-cased name
      followed by the generic suffix. */
  function FactorText(name: string, value: real): (t: string)
    ensures t in RuleTexts <==> RuleApplies(name, value)
    ensures !RuleApplies(name, value) ==> t == Title(Underscores(name)) + GenericSuffix
  {
    var generic := Title(Underscores(name)) + GenericSuffix;
    assert generic[|generic| - 1] == 'o';
    assert forall k :: 0 <= k < |RuleTexts| ==> RuleTexts[k][|RuleTexts[k]| - 1] != 'o';
    if name == "ndvi" && value > 0.6 then "Alta densidade de vegetação é muito favorável"
    else if name == "water_distance_km" && value < 0.3 then "Proximidade de fontes de água é positiva"
    else if name == "urban_pct" && value > 0.4 then "Alta urbanização reduz o potencial apícola"
    else if name == "forest_pct" && value > 0.5 then "Boa cobertura florestal aumenta potencial de néctar"
    else if Contains(name, "temp_avg") then
      (if 0.4 <= value <= 0.6 then "Temperatura está em faixa adequada" else "Temperatura não está na faixa ideal")
    else generic
  }

  /** The temperature rule is a substring test: every name other than the four named rules
      that holds `temp_avg` anywhere, such as `temp_avg_summer`, gets a temperature sentence. */
  lemma TemperatureRuleIsSubstring(name: string, at: nat, value: real)
    requires at + 8 <= |name| && name[at..at + 8] == "temp_avg"
    requires name !in {"ndvi", "water_distance_km", "urban_pct", "forest_pct"}
    ensures FactorText(name, value) ==
      (if 0.4 <= value <= 0.6 then "Temperatura está em faixa adequada" else "Temperatura não está na faixa ideal")
  {
    ContainsAt(name, "temp_avg", at);
  }

  /** A named rule that does not apply falls through: `ndvi` at or below 0.6 gets the generic
      sentence built from its title-cased name. */
  lemma LowNdviIsGeneric(value: real)
    requires value <= 0.6
    ensures FactorText("ndvi", value) == "Ndvi" + GenericSuffix
  {
    assert !Contains("ndvi", "temp_avg");
    assert Underscores("ndvi") == "ndvi";
    assert TitleFrom("i", true) == "i";
    assert TitleFrom("vi", true) == "vi";
    assert TitleFrom("dvi", true) == "dvi";
    assert Title("ndvi") == "Ndvi";
  }

  /** The score bucket: 4 for >= 85, 3 for >= 70, 2 for >= 50, 1 for >= 30, else 0. */
  function RatingLevel(score: real): (k: nat)
    ensures k < 5
    ensures k == 4 <==> score >= 85.0
    ensures k == 3 <==> 70.0 <= score < 85.0
    ensures k == 2 <==> 50.0 <= score < 70.0
    ensures k == 1 <==> 30.0 <= score < 50.0
    ensures k == 0 <==> score < 30.0
  {
    if score >= 85.0 then 4 else if score >= 70.0 then 3 else if score >= 50.0 then 2 else if score >= 30.0 then 1 else 0
  }

  /** The five explanation sentences, from the lowest bucket to the highest. */
  const RatingTexts: seq<string> := [
    "Área pouco adequada para apicultura, com múltiplos fatores desfavoráveis.",
    "Área com limitações significativas para apicultura, produção pode ser abaixo da média.",
    "Área moderadamente adequada, com algumas limitações que podem ser gerenciadas.",
    "Boa área para apicultura, com condições favoráveis na maioria dos aspectos.",
    "Área excelente para apicultura, com condições ideais para alta produção de mel."]

  /** `_generate_text_explanation`: the sentence of the score's bucket; every score gets one. */
  function TextExplanation(score: real): (t: string)
    ensures t == RatingTexts[RatingLevel(score)]
    ensures t == RatingTexts[4] <==> score >= 85.0
    ensures t == RatingTexts[3] <==> 70.0 <= score < 85.0
    ensures t == RatingTexts[2] <==> 50.0 <= score < 70.0
    ensures t == RatingTexts[1] <==> 30.0 <= score < 50.0
    ensures t == RatingTexts[0] <==> score < 30.0
  {
    assert |RatingTexts[0]| == 73 && |RatingTexts[1]| == 86 && |RatingTexts[2]| == 78;
    assert |RatingTexts[3]| == 75 && |RatingTexts[4]| == 79;
    RatingTexts[RatingLevel(score)]
  }

  /** Two scores get the same sentence exactly when they fall in the same bucket. */
  lemma TextsDistinguishBuckets(s1: real, s2: real)
    ensures TextExplanation(s1) == TextExplanation(s2) <==> RatingLevel(s1) == RatingLevel(s2)
  {
    assert |RatingTexts[0]| == 73 && |RatingTexts[1]| == 86 && |RatingTexts[2]| == 78;
    assert |RatingTexts[3]| == 75 && |RatingTexts[4]| == 79;
  }

  /** A higher score never gets a worse bucket, and the bucket only changes across one of the
      thresholds 30, 50, 70 and 85. */
  lemma RatingMonotone(s1: real, s2: real)
    requires s1 <= s2
    ensures RatingLevel(s1) <= RatingLevel(s2)
    ensures RatingLevel(s2) > RatingLevel(s1) ==>
      (s1 < 30.0 <= s2) || (s1 < 50.0 <= s2) || (s1 < 70.0 <= s2) || (s1 < 85.0 <= s2)
  {
  }

  // ---------------------------------------------------------------- stable ranking

  /** A feature with its schema position, its value and its importance. */
  datatype Ranked = Ranked(pos: nat, name: string, value: real, importance: real)

  /** `sorted(..., key=importance, reverse=True)` is stable: higher importance first, and
      among equal importances the earlier schema position first. */
  predicate Before(x: Ranked, y: Ranked)
  {
    x.importance > y.importance || (x.importance == y.importance && x.pos < y.pos)
  }

  predicate SortedRanked(s: seq<Ranked>)
  {
    forall i, j :: 0 <= i < j < |s| ==> Before(s[i], s[j])
  }

  /** Insert `x` in front of the first element it goes before. */
  function Insert(x: Ranked, s: seq<Ranked>): (r: seq<Ranked>)
    ensures |r| == |s| + 1
    ensures multiset(r) == multiset(s) + multiset{x}
  {
    if s == [] then [x]
    else if Before(x, s[0]) then [x] + s
    else
      assert s == [s[0]] + s[1..];
      [s[0]] + Insert(x, s[1..])
  }

  lemma {:induction false} InsertSorted(x: Ranked, s: seq<Ranked>)
    requires SortedRanked(s)
    requires forall k :: 0 <= k < |s| ==> s[k].pos != x.pos
    ensures SortedRanked(Insert(x, s))
  {
    if s != [] && !Before(x, s[0]) {
      InsertSorted(x, s[1..]);
      var r := Insert(x, s);
      assert r == [s[0]] + Insert(x, s[1..]);
      forall j | 0 < j < |r|
        ensures Before(r[0], r[j])
      {
        assert r[j] in multiset(Insert(x, s[1..]));
        assert r[j] in multiset(s[1..]) + multiset{x};
        if r[j] != x {
          assert r[j] in s[1..];
        }
      }
    }
  }

  /** Stable descending sort by importance, as an insertion sort. */
  function SortRanked(s: seq<Ranked>): (r: seq<Ranked>)
    ensures multiset(r) == multiset(s)
  {
    if s == [] then []
    else
      assert s == s[..|s| - 1] + [s[|s| - 1]];
      Insert(s[|s| - 1], SortRanked(s[..|s| - 1]))
  }

  /** With distinct positions the result is ordered: non-increasing importance, ties in
      position order. */
  lemma {:induction false} SortRankedSorted(s: seq<Ranked>)
    requires forall a, b :: 0 <= a < b < |s| ==> s[a].pos != s[b].pos
    ensures SortedRanked(SortRanked(s))
  {
    if s != [] {
      var init := s[..|s| - 1];
      SortRankedSorted(init);
      var t := SortRanked(init);
      forall k | 0 <= k < |t|
        ensures t[k].pos != s[|s| - 1].pos
      {
        assert t[k] in multiset(init);
        var a :| 0 <= a < |init| && init[a] == t[k];
      }
      InsertSorted(s[|s| - 1], t);
    }
  }

  /** The triples of `explain_prediction`, positioned by schema order. */
  function RankedFeatures(names: seq<string>, features: map<string, real>, importances: map<string, real>): (r: seq<Ranked>)
    requires forall i :: 0 <= i < |names| ==> names[i] in importances
    ensures |r| == |names|
    ensures forall i :: 0 <= i < |r| ==>
      r[i] == Ranked(i, names[i], Get(features, names[i]), importances[names[i]])
  {
    seq(|names|, i requires 0 <= i < |names| => Ranked(i, names[i], Get(features, names[i]), importances[names[i]]))
  }

  /** One entry of `top_factors`. */
  datatype Factor = Factor(factor: string, feature: string, value: real, importance: real)

  /** The result of `explain_prediction`. */
  datatype Explanation = Explanation(score: real, explanation: string, topFactors: seq<Factor>)

  // ---------------------------------------------------------------- the model object

  class ApiaryPotentialModel {
    var model: Option<Regressor>
    var scaler: Scaler
    var featureNames: seq<string>

    /** `__init__`: load the stored bundle when one can be read, otherwise train the demo model
        (`demoModel` and `fittedScaler` stand for the fitted estimators). */
    constructor(stored: Option<Bundle>, demoModel: Regressor, fittedScaler: Scaler)
      ensures stored.Some? ==>
        model == stored.value.model && scaler == stored.value.scaler && featureNames == stored.value.featureNames
      ensures stored.None? ==>
        model == Some(demoModel) && scaler == fittedScaler && featureNames == DefaultFeatureNames
    {
      featureNames := DefaultFeatureNames;
      if stored.Some? {
        model := stored.value.model;
        scaler := stored.value.scaler;
        featureNames := stored.value.featureNames;
      } else {
        model := Some(demoModel);
        scaler := fittedScaler;
      }
    }

    /** `_save_model`: the state as a bundle stamped with `timestamp`. */
    function SaveModel(timestamp: string): (b: Bundle)
      reads this
      ensures b.model == model && b.scaler == scaler && b.featureNames == featureNames && b.timestamp == timestamp
    {
      Bundle(model, scaler, featureNames, timestamp)
    }

    /** `_load_model`: take model, scaler and feature names from the bundle; saving again with the
        bundle's timestamp gives the bundle back. */
    method LoadModel(data: Bundle)
      modifies this
      ensures model == data.model && scaler == data.scaler && featureNames == data.featureNames
      ensures SaveModel(data.timestamp) == data
    {
      model := data.model;
      scaler := data.scaler;
      featureNames := data.featureNames;
    }

    /** `predict`: fails without a model; otherwise the regressor's output on the scaled,
        schema-ordered row, clipped to [0, 100]. */
    function Predict(features: map<string, real>): (r: Result<real, string>)
      reads this
      ensures r.Err? <==> model.None?
      ensures r.Ok? ==> 0.0 <= r.value <= 100.0
      ensures r.Ok? ==>
        var raw := model.value.predictRaw(scaler.transform(OrderedFeatures(featureNames, features)));
        (0.0 <= raw <= 100.0 ==> r.value == raw) && (raw < 0.0 ==> r.value == 0.0) && (raw > 100.0 ==> r.value == 100.0)
    {
      if model.None? then Err("Modelo não treinado. Execute _train_demo_model() primeiro.")
      else Ok(Clip(model.value.predictRaw(scaler.transform(OrderedFeatures(featureNames, features)))))
    }

    /** `get_feature_importances`: fails without a model; otherwise the feature names zipped
        with the importances, stopping at the shorter list. */
    function GetFeatureImportances(): (r: Result<map<string, real>, string>)
      reads this
      ensures r.Err? <==> model.None?
      ensures r.Ok? ==> var n := Min(|featureNames| as real, |model.value.featureImportances| as real) as int;
        r.value.Keys == set i | 0 <= i < n :: featureNames[i]
    {
      if model.None? then Err("Modelo não treinado.")
      else
        var n := if |featureNames| <= |model.value.featureImportances| then |featureNames| else |model.value.featureImportances|;
        Ok(ZipMap(featureNames[..n], model.value.featureImportances[..n]))
    }

    /** For a model with distinct feature names and one importance per name, every feature name
        gets exactly its own importance. */
    lemma ImportancesPerFeature(i: nat)
      requires model.Some? && |model.value.featureImportances| == |featureNames| && i < |featureNames|
      requires forall a, b :: 0 <= a < b < |featureNames| ==> featureNames[a] != featureNames[b]
      ensures GetFeatureImportances().Ok?
      ensures featureNames[i] in GetFeatureImportances().value
      ensures GetFeatureImportances().value[featureNames[i]] == model.value.featureImportances[i]
    {
      assert featureNames[..|featureNames|] == featureNames;
      assert model.value.featureImportances[..|featureNames|] == model.value.featureImportances;
      ZipMapDistinct(featureNames, model.value.featureImportances, i);
    }

    /** `explain_prediction`: the score, its sentence, and one factor for each of the first five
        features of the stable ranking. Fails without a model, and with a key error when some
        feature name has no importance. */
    method ExplainPrediction(features: map<string, real>) returns (r: Result<Explanation, string>)
      ensures r.Err? <==> model.None? || !HasAllImportances(featureNames, GetFeatureImportances().value)
      ensures r.Ok? ==> Predict(features).Ok? && r.value.score == Predict(features).value
      ensures r.Ok? ==> r.value.explanation == TextExplanation(r.value.score)
      ensures r.Ok? ==> HasAllImportances(featureNames, GetFeatureImportances().value)
      ensures r.Ok? ==>
        var top := TopFive(featureNames, features, GetFeatureImportances().value);
        r.value.topFactors == seq(|top|, k requires 0 <= k < |top| => ToFactor(top[k]))
    {
      var score := Predict(features);
      if score.Err? {
        return Err(score.error);
      }
      var importances := GetFeatureImportances();
      if !HasAllImportances(featureNames, importances.value) {
        return Err("KeyError");
      }
      var top := TopFive(featureNames, features, importances.value);
      var topFactors := BuildFactors(top);
      r := Ok(Explanation(score.value, TextExplanation(score.value), topFactors));
    }
  }

  /** The loop over the first five ranked features: one factor per feature, in ranking order. */
  method BuildFactors(top: seq<Ranked>) returns (factors: seq<Factor>)
    ensures |factors| == |top|
    ensures forall k :: 0 <= k < |top| ==>
      factors[k] == Factor(FactorText(top[k].name, top[k].value), top[k].name, top[k].value, top[k].importance)
  {
    factors := [];
    var k := 0;
    while k < |top|
      invariant 0 <= k <= |top|
      invariant |factors| == k
      invariant forall m :: 0 <= m < k ==> factors[m] == ToFactor(top[m])
    {
      factors := factors + [ToFactor(top[k])];
      k := k + 1;
    }
  }

  /** Every schema name has an importance (otherwise the ranking raises a key error). */
  predicate HasAllImportances(names: seq<string>, importances: map<string, real>)
  {
    forall i :: 0 <= i < |names| ==> names[i] in importances
  }

  function ToFactor(x: Ranked): Factor
  {
    Factor(FactorText(x.name, x.value), x.name, x.value, x.importance)
  }

  /** `sorted_features[:5]`. */
  function TopFive(names: seq<string>, features: map<string, real>, importances: map<string, real>): (top: seq<Ranked>)
    requires HasAllImportances(names, importances)
    ensures |top| == if |names| < 5 then |names| else 5
  {
    var sorted := SortRanked(RankedFeatures(names, features, importances));
    if |sorted| < 5 then sorted else sorted[..5]
  }

  /** The ranking is the schema triples, stably sorted: a permutation in strictly `Before` order. */
  lemma RankingSorted(names: seq<string>, features: map<string, real>, importances: map<string, real>)
    requires HasAllImportances(names, importances)
    ensures var ranked := RankedFeatures(names, features, importances);
      var sorted := SortRanked(ranked);
      multiset(sorted) == multiset(ranked) && SortedRanked(sorted) && |sorted| == |names|
  {
    var ranked := RankedFeatures(names, features, importances);
    assert forall a, b :: 0 <= a < b < |ranked| ==> ranked[a].pos != ranked[b].pos;
    SortRankedSorted(ranked);
    assert |multiset(SortRanked(ranked))| == |multiset(ranked)|;
  }

  /** Each of the first five comes from the schema with its own value and importance. */
  lemma TopFiveFromSchema(names: seq<string>, features: map<string, real>, importances: map<string, real>, k: nat)
    requires HasAllImportances(names, importances)
    requires k < |TopFive(names, features, importances)|
    ensures var t := TopFive(names, features, importances)[k];
      t.name in names && t.value == Get(features, t.name) && t.importance == importances[t.name]
  {
    var ranked := RankedFeatures(names, features, importances);
    var sorted := SortRanked(ranked);
    RankingSorted(names, features, importances);
    assert TopFive(names, features, importances)[k] == sorted[k];
    assert sorted[k] in multiset(ranked);
    var a :| 0 <= a < |ranked| && ranked[a] == sorted[k];
  }

  /** Along the first five, importance never increases, and equal importances keep schema order. */
  lemma TopFiveOrdered(names: seq<string>, features: map<string, real>, importances: map<string, real>, k: nat, l: nat)
    requires HasAllImportances(names, importances)
    requires k < l < |TopFive(names, features, importances)|
    ensures var top := TopFive(names, features, importances);
      top[k].importance > top[l].importance || (top[k].importance == top[l].importance && top[k].pos < top[l].pos)
  {
    RankingSorted(names, features, importances);
  }

  /** A feature that is not among the first five is no more important than any of them. */
  lemma TopFiveDominates(names: seq<string>, features: map<string, real>, importances: map<string, real>, i: nat)
    requires HasAllImportances(names, importances)
    requires i < |names|
    ensures var top := TopFive(names, features, importances);
      (exists k :: 0 <= k < |top| && top[k].name == names[i]) ||
      (forall k :: 0 <= k < |top| ==> importances[names[i]] <= top[k].importance)
  {
    var ranked := RankedFeatures(names, features, importances);
    var sorted := SortRanked(ranked);
    var top := TopFive(names, features, importances);
    RankingSorted(names, features, importances);
    assert ranked[i] in multiset(sorted);
    var j :| 0 <= j < |sorted| && sorted[j] == ranked[i];
    if j < |top| {
      assert top[j] == sorted[j];
    } else {
      forall k | 0 <= k < |top|
        ensures importances[names[i]] <= top[k].importance
      {
        assert top[k] == sorted[k] && Before(sorted[k], sorted[j]);
      }
    }
  }
}
