/**
 * Rule-based rockfall risk scoring of the prediction service: the threshold
 * rules of `SimpleRockfallPredictor` and `SimplePredictor`, the 'high'/'low'
 * label, the HIGH/MEDIUM/LOW tiering of `PredictionService` and the selection
 * of the latest feature row of a site.
 */
module RiskRules {
  import opened Wrappers

  const Rain24hThreshold: real := 25.0
  const Rain72hThreshold: real := 50.0
  const QuakeMagnitudeThreshold: real := 3.0
  const HumidityThreshold: real := 85.0

  const Rain24hFactor: real := 0.6
  const Rain72hFactor: real := 0.8
  const QuakeFactor: real := 0.7
  const HumidityFactor: real := 0.4

  /** The risk returned when no rule fires, and the cap on any other result. */
  const Baseline: real := 0.1
  const Cap: real := 1.0

  /** The probability from which a site is labelled 'high'. */
  const HighLabelThreshold: real := 0.6

  /** The four inputs of the rules, all present. */
  datatype Features = Features(rain24hMm: real, rain72hMm: real, maxMagnitude72h: real, humidityPct: real)

  /** A `site_features` row; every measurement column is nullable. */
  datatype SiteFeature = SiteFeature(
    siteId: string,
    timestamp: int,
    rain1hMm: Option<real>,
    rain24hMm: Option<real>,
    rain72hMm: Option<real>,
    temperatureC: Option<real>,
    humidityPct: Option<real>,
    maxMagnitude72h: Option<real>)

  datatype Error = ValueError(message: string) | TypeError(message: string)

  // The rules: strict for rainfall and humidity, inclusive for magnitude.
  predicate Rain24hFires(f: Features) { f.rain24hMm > Rain24hThreshold }
  predicate Rain72hFires(f: Features) { f.rain72hMm > Rain72hThreshold }
  predicate QuakeFires(f: Features) { f.maxMagnitude72h >= QuakeMagnitudeThreshold }
  predicate HumidityFires(f: Features) { f.humidityPct > HumidityThreshold }

  predicate AnyRuleFires(f: Features) {
    Rain24hFires(f) || Rain72hFires(f) || QuakeFires(f) || HumidityFires(f)
  }

  /** The factors of the rules that fire. */
  function FiredFactors(f: Features): set<real> {
    (if Rain24hFires(f) then {Rain24hFactor} else {}) +
    (if Rain72hFires(f) then {Rain72hFactor} else {}) +
    (if QuakeFires(f) then {QuakeFactor} else {}) +
    (if HumidityFires(f) then {HumidityFactor} else {})
  }

  /** Reference definition of the risk: the rules tried from the largest
      factor down, the first that fires giving the result. */
  function Score(f: Features): real {
    if Rain72hFires(f) then Rain72hFactor
    else if QuakeFires(f) then QuakeFactor
    else if Rain24hFires(f) then Rain24hFactor
    else if HumidityFires(f) then HumidityFactor
    else Baseline
  }

  /** Python's `max` of a non-empty list. */
  function MaxOf(s: seq<real>): (m: real)
    requires |s| > 0
    ensures m in s
    ensures forall x :: x in s ==> x <= m
  {
    if |s| == 1 then s[0]
    else
      var rest := MaxOf(s[1..]);
      assert forall x :: x in s ==> x == s[0] || x in s[1..];
      if s[0] < rest then rest else s[0]
  }

  /** `SimpleRockfallPredictor.calculate_risk`: collects the factors of the
      rules that fire, then returns the baseline if there are none and
      otherwise their maximum capped at 1.0. */
  method CalculateRisk(f: Features) returns (p: real)
    ensures p == Score(f)
  {
    var factors: seq<real> := [];
    if f.rain24hMm > Rain24hThreshold {
      factors := factors + [Rain24hFactor];
    }
    if f.rain72hMm > Rain72hThreshold {
      factors := factors + [Rain72hFactor];
    }
    if f.maxMagnitude72h >= QuakeMagnitudeThreshold {
      factors := factors + [QuakeFactor];
    }
    if f.humidityPct > HumidityThreshold {
      factors := factors + [HumidityFactor];
    }
    assert forall x :: x in factors <==> x in FiredFactors(f);
    if factors == [] {
      return Baseline;
    }
    var m := MaxOf(factors);
    p := if Cap < m then Cap else m;
    LargestFiredFactor(f);
  }

  /** The risk takes one of five values, all within (0, 1]. */
  lemma ScoreValues(f: Features)
    ensures Score(f) in {Baseline, HumidityFactor, Rain24hFactor, QuakeFactor, Rain72hFactor}
    ensures 0.0 < Score(f) <= Cap
  {
  }

  /** When no rule fires the risk is the baseline, and only then. */
  lemma ScoreBaseline(f: Features)
    ensures Score(f) == Baseline <==> !AnyRuleFires(f)
  {
  }

  /** When some rule fires the risk is the largest fired factor, capped. */
  lemma LargestFiredFactor(f: Features)
    ensures AnyRuleFires(f) <==> FiredFactors(f) != {}
    ensures AnyRuleFires(f) ==> Score(f) in FiredFactors(f) && Score(f) <= Cap
    ensures forall k :: k in FiredFactors(f) ==> k <= Score(f)
  {
  }

  /** Componentwise order on the inputs. */
  predicate AtMost(f: Features, g: Features) {
    f.rain24hMm <= g.rain24hMm && f.rain72hMm <= g.rain72hMm &&
    f.maxMagnitude72h <= g.maxMagnitude72h && f.humidityPct <= g.humidityPct
  }

  /** Raising any input never lowers the risk. */
  lemma ScoreMonotone(f: Features, g: Features)
    requires AtMost(f, g)
    ensures Score(f) <= Score(g)
  {
  }

  /** The label of `predict` in both services. */
  function RiskLabel(p: real): string {
    if p >= HighLabelThreshold then "high" else "low"
  }

  /** The label is 'high' exactly from 0.6 on, and 'low' otherwise. */
  lemma RiskLabelIff(p: real)
    ensures RiskLabel(p) == "high" <==> p >= HighLabelThreshold
    ensures RiskLabel(p) == "low" <==> p < HighLabelThreshold
  {
  }

  /** Humidity alone gives only 0.4, so a site is labelled 'high' exactly
      when a rainfall or the magnitude rule fires. */
  lemma HighIffStrongRule(f: Features)
    ensures RiskLabel(Score(f)) == "high" <==> Rain24hFires(f) || Rain72hFires(f) || QuakeFires(f)
  {
  }

  /** The most recent row of a site (`order_by(timestamp.desc()).first()`);
      among rows with equal timestamps the first in table order. */
  function LatestFor(rows: seq<SiteFeature>, siteId: string): (r: Option<SiteFeature>)
    ensures r.None? <==> forall i :: 0 <= i < |rows| ==> rows[i].siteId != siteId
    ensures r.Some? ==> r.value in rows && r.value.siteId == siteId
    ensures r.Some? ==> forall i :: 0 <= i < |rows| && rows[i].siteId == siteId ==> rows[i].timestamp <= r.value.timestamp
  {
    if rows == [] then None
    else
      var rest := LatestFor(rows[1..], siteId);
      assert forall i :: 1 <= i < |rows| ==> rows[i] == rows[1..][i - 1];
      if rows[0].siteId != siteId then rest
      else if rest.Some? && rest.value.timestamp > rows[0].timestamp then rest
      else Some(rows[0])
  }

  // ----- SimpleRockfallPredictor.predict (predictor.py) -----

  datatype Prediction = Prediction(siteId: string, probability: real, riskLevel: string, featuresUsed: Features)

  /** The operator of the first rule, in the order `calculate_risk` tries
      them, whose input is None: the rainfall and humidity rules compare
      with `>`, the magnitude rule with `>=`. */
  function FirstNoneOperator(row: SiteFeature): (op: string)
    requires !AllPresent(row)
    ensures op == ">" || op == ">="
    ensures op == ">=" <==> row.rain24hMm.Some? && row.rain72hMm.Some? && row.maxMagnitude72h.None?
  {
    if row.rain24hMm.None? || row.rain72hMm.None? then ">"
    else if row.maxMagnitude72h.None? then ">="
    else ">"
  }

  /** The message of the TypeError Python raises when `op` compares None with a float. */
  function NoneComparison(op: string): string {
    if op == ">=" then "'>=' not supported between instances of 'NoneType' and 'float'"
    else "'>' not supported between instances of 'NoneType' and 'float'"
  }

  predicate AllPresent(row: SiteFeature) {
    row.rain24hMm.Some? && row.rain72hMm.Some? && row.maxMagnitude72h.Some? && row.humidityPct.Some?
  }

  /** The four rule inputs of a row whose four columns are present. */
  function PresentFeatures(row: SiteFeature): Features
    requires AllPresent(row)
  {
    Features(row.rain24hMm.value, row.rain72hMm.value, row.maxMagnitude72h.value, row.humidityPct.value)
  }

  /** `SimpleRockfallPredictor.predict`: a ValueError when the site has no
      row; a TypeError when a rule input of the latest row is NULL, since
      the rules compare without a guard; otherwise the risk of that row and
      its label. */
  function PredictSimple(siteId: string, rows: seq<SiteFeature>): (r: Result<Prediction, Error>)
    ensures r == Err(ValueError("No data available for site " + siteId)) <==>
              forall i :: 0 <= i < |rows| ==> rows[i].siteId != siteId
    ensures r.Err? && r.error.TypeError? <==> LatestFor(rows, siteId).Some? && !AllPresent(LatestFor(rows, siteId).value)
    ensures r.Err? && r.error.TypeError? ==>
              r.error.message == NoneComparison(FirstNoneOperator(LatestFor(rows, siteId).value))
    ensures r.Ok? <==> LatestFor(rows, siteId).Some? && AllPresent(LatestFor(rows, siteId).value)
    ensures r.Ok? ==> r.value.siteId == siteId &&
                       r.value.featuresUsed == PresentFeatures(LatestFor(rows, siteId).value) &&
                       r.value.probability == Score(r.value.featuresUsed) &&
                       r.value.riskLevel == RiskLabel(r.value.probability)
  {
    match LatestFor(rows, siteId)
    case None => Err(ValueError("No data available for site " + siteId))
    case Some(row) =>
      if !AllPresent(row) then Err(TypeError(NoneComparison(FirstNoneOperator(row))))
      else
        var f := PresentFeatures(row);
        Ok(Prediction(siteId, Score(f), RiskLabel(Score(f)), f))
  }

  /** A site whose only row lacks the magnitude while the rainfall inputs
      are present fails at the magnitude rule, whose operator is `>=`. */
  lemma MissingMagnitudeMessage(siteId: string, rain: real, humidity: real)
    ensures PredictSimple(siteId, [SiteFeature(siteId, 0, None, Some(rain), Some(rain), None, Some(humidity), None)]) ==
            Err(TypeError("'>=' not supported between instances of 'NoneType' and 'float'"))
  {
  }

  // ----- SimplePredictor (prediction_service/main.py) -----

  /** Python truthiness of a nullable float column: neither None nor zero. */
  predicate Truthy(x: Option<real>) {
    x.Some? && x.value != 0.0
  }

  /** The row's rule inputs with every missing value read as zero. */
  function MissingAsZero(row: SiteFeature): Features {
    Features(
      if row.rain24hMm.Some? then row.rain24hMm.value else 0.0,
      if row.rain72hMm.Some? then row.rain72hMm.value else 0.0,
      if row.maxMagnitude72h.Some? then row.maxMagnitude72h.value else 0.0,
      if row.humidityPct.Some? then row.humidityPct.value else 0.0)
  }

  /** `SimplePredictor.calculate_risk`: each rule is guarded by the
      truthiness of its column, so a NULL or zero value never fires. */
  method CalculateRiskGuarded(row: SiteFeature) returns (p: real)
    ensures p == Score(MissingAsZero(row))
  {
    var f := MissingAsZero(row);
    GuardIsTruthiness(row);
    var factors: seq<real> := [];
    if Truthy(row.rain24hMm) && row.rain24hMm.value > Rain24hThreshold {
      factors := factors + [Rain24hFactor];
    }
    if Truthy(row.rain72hMm) && row.rain72hMm.value > Rain72hThreshold {
      factors := factors + [Rain72hFactor];
    }
    if Truthy(row.maxMagnitude72h) && row.maxMagnitude72h.value >= QuakeMagnitudeThreshold {
      factors := factors + [QuakeFactor];
    }
    if Truthy(row.humidityPct) && row.humidityPct.value > HumidityThreshold {
      factors := factors + [HumidityFactor];
    }
    assert forall x :: x in factors <==> x in FiredFactors(f);
    if factors == [] {
      return Baseline;
    }
    var m := MaxOf(factors);
    p := if Cap < m then Cap else m;
    LargestFiredFactor(f);
  }

  /** A NULL or zero column never fires its rule. */
  lemma MissingNeverFires(row: SiteFeature)
    ensures !Truthy(row.rain24hMm) ==> !Rain24hFires(MissingAsZero(row))
    ensures !Truthy(row.rain72hMm) ==> !Rain72hFires(MissingAsZero(row))
    ensures !Truthy(row.maxMagnitude72h) ==> !QuakeFires(MissingAsZero(row))
    ensures !Truthy(row.humidityPct) ==> !HumidityFires(MissingAsZero(row))
  {
  }

  /** On a row without NULLs the guarded and the unguarded predictor agree. */
  lemma GuardedAgreesWhenPresent(row: SiteFeature)
    requires AllPresent(row)
    ensures Score(MissingAsZero(row)) == Score(PresentFeatures(row))
  {
  }

  /** The guarded rules differ from the unguarded ones only on NULLs and
      zeros: a rule fires under the guard iff its column is truthy and the
      unguarded comparison holds. */
  lemma GuardIsTruthiness(row: SiteFeature)
    ensures Rain24hFires(MissingAsZero(row)) <==> Truthy(row.rain24hMm) && row.rain24hMm.value > Rain24hThreshold
    ensures Rain72hFires(MissingAsZero(row)) <==> Truthy(row.rain72hMm) && row.rain72hMm.value > Rain72hThreshold
    ensures QuakeFires(MissingAsZero(row)) <==> Truthy(row.maxMagnitude72h) && row.maxMagnitude72h.value >= QuakeMagnitudeThreshold
    ensures HumidityFires(MissingAsZero(row)) <==> Truthy(row.humidityPct) && row.humidityPct.value > HumidityThreshold
  {
  }

  /** The four columns the handler echoes back as `features_used`. */
  datatype FeaturesUsed = FeaturesUsed(rain24hMm: Option<real>, rain72hMm: Option<real>, maxMagnitude72h: Option<real>, humidityPct: Option<real>)

  datatype Response =
    | NotFound(detail: string)
    | Predicted(siteId: string, probability: real, riskLevel: string, featuresUsed: FeaturesUsed)

  /** The `/predict/{site_id}` handler: 404 for an unknown site, 404 for a
      site without feature rows, otherwise the guarded risk of its latest row. */
  function HandlePredict(siteId: string, siteIds: seq<string>, rows: seq<SiteFeature>): (r: Response)
    ensures r == NotFound("Site not found") <==> siteId !in siteIds
    ensures r == NotFound("No feature data available") <==>
              siteId in siteIds && forall i :: 0 <= i < |rows| ==> rows[i].siteId != siteId
    ensures r.Predicted? <==> siteId in siteIds && LatestFor(rows, siteId).Some?
    ensures r.Predicted? ==> r.siteId == siteId
    ensures r.Predicted? ==>
              (var row := LatestFor(rows, siteId).value;
               r.probability == Score(MissingAsZero(row)) &&
               r.riskLevel == RiskLabel(r.probability) &&
               r.featuresUsed == FeaturesUsed(row.rain24hMm, row.rain72hMm, row.maxMagnitude72h, row.humidityPct))
  {
    if siteId !in siteIds then NotFound("Site not found")
    else match LatestFor(rows, siteId)
      case None => NotFound("No feature data available")
      case Some(row) =>
        var p := Score(MissingAsZero(row));
        Predicted(siteId, p, RiskLabel(p),
                  FeaturesUsed(row.rain24hMm, row.rain72hMm, row.maxMagnitude72h, row.humidityPct))
  }

  // ----- PredictionService (the model-backed path of predictor.py) -----

  /** The float columns of a row, by column name, as `getattr` sees them. */
  function Columns(row: SiteFeature): map<string, Option<real>> {
    map["rain_1h_mm" := row.rain1hMm, "rain_24h_mm" := row.rain24hMm,
        "rain_72h_mm" := row.rain72hMm, "temperature_c" := row.temperatureC,
        "humidity_pct" := row.humidityPct, "max_magnitude_72h" := row.maxMagnitude72h]
  }

  /** The comprehension of `get_latest_features`: the configured columns the
      row has, with their values. */
  function SelectColumns<V>(attributes: map<string, V>, featureColumns: seq<string>): (r: map<string, V>)
    ensures r.Keys == attributes.Keys * set c | c in featureColumns
    ensures forall c :: c in r ==> r[c] == attributes[c]
  {
    map c | c in featureColumns && c in attributes :: attributes[c]
  }

  /** `get_latest_features`: None for a site without rows. */
  function LatestFeatures(siteId: string, rows: seq<SiteFeature>, featureColumns: seq<string>): (r: Option<map<string, Option<real>>>)
    ensures r.None? <==> LatestFor(rows, siteId).None?
    ensures r.Some? ==> r.value == SelectColumns(Columns(LatestFor(rows, siteId).value), featureColumns)
  {
    match LatestFor(rows, siteId)
    case None => None
    case Some(row) => Some(SelectColumns(Columns(row), featureColumns))
  }

  /** The tier of `PredictionService.predict`. */
  function Tier(p: real, high: real, medium: real): string {
    if p >= high then "HIGH" else if p >= medium then "MEDIUM" else "LOW"
  }

  lemma TierIff(p: real, high: real, medium: real)
    ensures Tier(p, high, medium) == "HIGH" <==> p >= high
    ensures Tier(p, high, medium) == "MEDIUM" <==> medium <= p < high
    ensures Tier(p, high, medium) == "LOW" <==> p < high && p < medium
  {
  }

  datatype TieredPrediction = TieredPrediction(siteId: string, probability: real, riskLevel: string, features: map<string, Option<real>>)

  /** `PredictionService.predict` once a model is loaded; the model's
      probability is the parameter `model`. No row, or a row with none of
      the configured columns (an empty dict is falsy), is a ValueError. */
  function PredictTiered(siteId: string, rows: seq<SiteFeature>, featureColumns: seq<string>,
                         model: map<string, Option<real>> -> real, high: real, medium: real): (r: Result<TieredPrediction, Error>)
    ensures r.Err? <==> LatestFeatures(siteId, rows, featureColumns) in {None, Some(map[])}
    ensures r.Err? ==> r.error == ValueError("No features available for site " + siteId)
    ensures r.Ok? ==> r.value.features == LatestFeatures(siteId, rows, featureColumns).value &&
                       r.value.probability == model(r.value.features) &&
                       Tier(r.value.probability, high, medium) == r.value.riskLevel
  {
    match LatestFeatures(siteId, rows, featureColumns)
    case None => Err(ValueError("No features available for site " + siteId))
    case Some(features) =>
      if features == map[] then Err(ValueError("No features available for site " + siteId))
      else
        var p := model(features);
        Ok(TieredPrediction(siteId, p, Tier(p, high, medium), features))
  }
}
