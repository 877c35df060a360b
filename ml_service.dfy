/** The glue of `backend/services/ml_service.py` between the geospatial analysis and the
    apiary-potential model: the feature dictionary handed to the model and the merge of the
    model's answer with defaults and analysis details. */
module MlService {
  import opened Wrappers
  import opened GeoModels
  import opened SuitabilityModel

  /** The keys `_extract_ml_features_from_geo` produces. */
  const ServiceFeatureKeys: set<string> :=
    {"ndvi", "evi", "water_distance", "avg_slope", "elevation_range", "avg_temp", "rainfall", "wind_speed",
     "forest_pct", "crop_pct", "grassland_pct", "urban_pct", "water_pct"}

  /** Features from an analysis; missing indices and land-cover classes read as 0. */
  function ExtractMlFeatures(geo: GeospatialAnalysis): (f: map<string, real>)
    ensures f.Keys == ServiceFeatureKeys
    ensures f["water_distance"] == 1.0 - geo.waterProximityScore
    ensures f["elevation_range"] == geo.elevationRange.1 - geo.elevationRange.0
    ensures f["ndvi"] == GetOrDefault(geo.vegetationIndices, "ndvi", 0.0)
    ensures f["evi"] == GetOrDefault(geo.vegetationIndices, "evi", 0.0)
    ensures f["avg_slope"] == geo.slopeAvg
    ensures f["avg_temp"] == geo.climate.averageTemperature
    ensures f["rainfall"] == geo.climate.rainfallMmYear
    ensures f["wind_speed"] == geo.climate.windSpeedAvg
    ensures f["forest_pct"] == GetOrDefault(geo.landCover, Forest, 0.0)
    ensures f["crop_pct"] == GetOrDefault(geo.landCover, Cropland, 0.0)
    ensures f["grassland_pct"] == GetOrDefault(geo.landCover, Grassland, 0.0)
    ensures f["urban_pct"] == GetOrDefault(geo.landCover, Urban, 0.0)
    ensures f["water_pct"] == GetOrDefault(geo.landCover, Water, 0.0)
  {
    map["ndvi" := GetOrDefault(geo.vegetationIndices, "ndvi", 0.0),
        "evi" := GetOrDefault(geo.vegetationIndices, "evi", 0.0),
        "water_distance" := 1.0 - geo.waterProximityScore,
        "avg_slope" := geo.slopeAvg,
        "elevation_range" := geo.elevationRange.1 - geo.elevationRange.0,
        "avg_temp" := geo.climate.averageTemperature,
        "rainfall" := geo.climate.rainfallMmYear,
        "wind_speed" := geo.climate.windSpeedAvg,
        "forest_pct" := GetOrDefault(geo.landCover, Forest, 0.0),
        "crop_pct" := GetOrDefault(geo.landCover, Cropland, 0.0),
        "grassland_pct" := GetOrDefault(geo.landCover, Grassland, 0.0),
        "urban_pct" := GetOrDefault(geo.landCover, Urban, 0.0),
        "water_pct" := GetOrDefault(geo.landCover, Water, 0.0)]
  }

  /** A water-proximity score in [0, 1] gives a water distance in [0, 1]. */
  lemma WaterDistanceInUnitRange(geo: GeospatialAnalysis)
    requires 0.0 <= geo.waterProximityScore <= 1.0
    ensures 0.0 <= ExtractMlFeatures(geo)["water_distance"] <= 1.0
  {
  }

  /** The produced keys miss half of the model's schema: in the row the model sees,
      shrubland_pct, cropland_pct, elevation, slope, temp_avg, rainfall_mm and
      water_distance_km are 0.0 whatever the analysis says. */
  lemma SchemaMismatch(geo: GeospatialAnalysis)
    ensures var row := OrderedFeatures(DefaultFeatureNames, ExtractMlFeatures(geo));
      row[3] == 0.0 && row[5] == 0.0 && row[8] == 0.0 && row[9] == 0.0 &&
      row[10] == 0.0 && row[11] == 0.0 && row[13] == 0.0
  {
    var f := ExtractMlFeatures(geo);
    forall k | k in {3, 5, 8, 9, 10, 11, 13}
      ensures DefaultFeatureNames[k] !in f
    {
      NotProduced(DefaultFeatureNames[k]);
    }
  }

  /** The seven schema names that are not produced. */
  lemma NotProduced(name: string)
    requires name in ["shrubland_pct", "cropland_pct", "elevation", "slope", "temp_avg", "rainfall_mm", "water_distance_km"]
    ensures name !in ServiceFeatureKeys
  {
  }

  /** The other seven schema names are passed through unchanged. */
  lemma SchemaOverlap(geo: GeospatialAnalysis)
    ensures var f := ExtractMlFeatures(geo); var row := OrderedFeatures(DefaultFeatureNames, f);
      row[0] == f["ndvi"] && row[1] == f["evi"] && row[2] == f["forest_pct"] && row[4] == f["grassland_pct"] &&
      row[6] == f["urban_pct"] && row[7] == f["water_pct"] && row[12] == f["wind_speed"]
  {
  }

  /** A value of the loosely typed dictionaries exchanged with the model. */
  datatype Value = Number(x: real) | Text(s: string) | TextList(items: seq<string>) | Factors(factors: seq<Factor>)

  /** The dictionary `explain_prediction` returns. */
  function ExplanationDict(e: Explanation): (d: map<string, Value>)
    ensures d.Keys == {"score", "explanation", "top_factors"}
    ensures d["score"] == Number(e.score)
  {
    map["score" := Number(e.score), "explanation" := Text(e.explanation), "top_factors" := Factors(e.topFactors)]
  }

  /** The merged report; the timestamp is left out. */
  datatype Combined = Combined(
    suitabilityScore: Value,
    vegetationScore: Value, vegetationDetails: map<string, real>, floweringPct: real,
    waterScore: Value, sourcesCount: nat, proximityScore: real,
    climateScore: Value, avgTemp: real, rainfall: real, wind: real, seasonalRisk: real,
    terrainScore: Value, elevationRange: (real, real), slopeAvg: real, aspect: string,
    recommendations: Value,
    honeyKgPerHive: Value, hiveCapacity: Value, optimalHiveDensity: Value,
    areaSizeKm2: Option<real>)

  const DefaultRecommendation: string := "Área adequada para apicultura"

  /** Every model-provided entry is looked up with its default; the details are copied from
      the analysis (the water details as the number of sources and the proximity score). */
  function CombineResults(geo: GeospatialAnalysis, ml: map<string, Value>): (c: Combined)
    reads geo.area
    ensures c.suitabilityScore == GetOrDefault(ml, "score", Number(77.5))
    ensures c.sourcesCount == |geo.waterSources| && c.proximityScore == geo.waterProximityScore
    ensures c.seasonalRisk == geo.climate.humidityAvg && c.areaSizeKm2 == geo.area.areaKm2
  {
    Combined(
      GetOrDefault(ml, "score", Number(77.5)),
      GetOrDefault(ml, "vegetation_score", Number(65.0)), geo.vegetationIndices, geo.floweringPlantsPercentage,
      GetOrDefault(ml, "water_score", Number(70.0)), |geo.waterSources|, geo.waterProximityScore,
      GetOrDefault(ml, "climate_score", Number(80.0)),
      geo.climate.averageTemperature, geo.climate.rainfallMmYear, geo.climate.windSpeedAvg, geo.climate.humidityAvg,
      GetOrDefault(ml, "terrain_score", Number(75.0)), geo.elevationRange, geo.slopeAvg, geo.aspect,
      GetOrDefault(ml, "recommendations", TextList([DefaultRecommendation])),
      GetOrDefault(ml, "honey_production", Number(18.5)),
      GetOrDefault(ml, "hive_capacity", Number(8.0)),
      GetOrDefault(ml, "optimal_density", Number(3.2)),
      geo.area.areaKm2)
  }

  /** Fed with what `explain_prediction` returns, the merged report takes the model's score and
      the default for every other model entry. */
  lemma CombineAfterExplanation(geo: GeospatialAnalysis, e: Explanation)
    ensures var c := CombineResults(geo, ExplanationDict(e));
      c.suitabilityScore == Number(e.score) &&
      c.vegetationScore == Number(65.0) && c.waterScore == Number(70.0) &&
      c.climateScore == Number(80.0) && c.terrainScore == Number(75.0) &&
      c.recommendations == TextList([DefaultRecommendation]) &&
      c.honeyKgPerHive == Number(18.5) && c.hiveCapacity == Number(8.0) && c.optimalHiveDensity == Number(3.2)
  {
  }
}
