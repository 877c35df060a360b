/** The heuristic beekeeping scores of `backend/services/geospatial_analysis.py`: the
    centroid, the water-proximity, climate and overall scores, and `analyze_area`, which
    fills the caller's area in place before scoring the simulated data sources. */
module GeoService {
  import opened Wrappers
  import opened Grids
  import opened GeoModels

  // ---------------------------------------------------------------- area geometry

  function Latitudes(points: seq<Coordinates>): (s: seq<real>)
    ensures |s| == |points| && forall k :: 0 <= k < |s| ==> s[k] == points[k].latitude
  {
    seq(|points|, k requires 0 <= k < |points| => points[k].latitude)
  }

  function Longitudes(points: seq<Coordinates>): (s: seq<real>)
    ensures |s| == |points| && forall k :: 0 <= k < |s| ==> s[k] == points[k].longitude
  {
    seq(|points|, k requires 0 <= k < |points| => points[k].longitude)
  }

  /** The mean latitude and the mean longitude; an empty polygon divides by zero. The mean of
      valid coordinates is itself a valid `Coordinates`. */
  function Centroid(points: seq<Coordinates>): (r: Result<Coordinates, string>)
    ensures r.Err? <==> points == []
    ensures r.Ok? ==> r.value.latitude == Mean(Latitudes(points)) && r.value.longitude == Mean(Longitudes(points))
  {
    if points == [] then Result<Coordinates, string>.Err("division by zero")
    else
      var lats, lons := Latitudes(points), Longitudes(points);
      MeanBetween(lats, -90.0, 90.0);
      MeanBetween(lons, -180.0, 180.0);
      Ok(LatLon(Mean(lats), Mean(lons)))
  }

  /** The centroid lies in the bounding box of the polygon's points. */
  lemma CentroidInBoundingBox(points: seq<Coordinates>)
    requires points != []
    ensures MinOf(Latitudes(points)) <= Centroid(points).value.latitude <= MaxOf(Latitudes(points))
    ensures MinOf(Longitudes(points)) <= Centroid(points).value.longitude <= MaxOf(Longitudes(points))
  {
    MeanBetweenMinMax(Latitudes(points));
    MeanBetweenMinMax(Longitudes(points));
  }

  /** The simulated polygon size: 12.5 km² whatever the points. */
  function AreaSize(points: seq<Coordinates>): (km2: real)
    ensures km2 == 12.5
  {
    12.5
  }

  // ---------------------------------------------------------------- water proximity

  /** `ws.distance_from_center_km or 100`: a missing distance and a distance of exactly 0.0
      (which is falsy) both count as 100 km. */
  function EffectiveDistance(w: WaterSource): (d: real)
    ensures w.distanceFromCenterKm.None? || w.distanceFromCenterKm == Some(0.0) ==> d == 100.0
    ensures w.distanceFromCenterKm.Some? && w.distanceFromCenterKm != Some(0.0) ==> d == w.distanceFromCenterKm.value
  {
    match w.distanceFromCenterKm
    case None => 100.0
    case Some(km) => if km == 0.0 then 100.0 else km
  }

  function Distances(sources: seq<WaterSource>): (ds: seq<real>)
    ensures |ds| == |sources| && forall k :: 0 <= k < |ds| ==> ds[k] == EffectiveDistance(sources[k])
  {
    seq(|sources|, k requires 0 <= k < |sources| => EffectiveDistance(sources[k]))
  }

  /** Score of the nearest source: 0.2 beyond 3 km, falling linearly from 1 at 0 km to 0.2 at 3 km. */
  function ProximityFromDistance(d: real): (score: real)
    ensures d > 3.0 ==> score == 0.2
    ensures 0.0 <= d <= 3.0 ==> 0.2 <= score <= 1.0
    ensures d <= 3.0 ==> score * 3.0 == 3.0 - 0.8 * d
  {
    if d > 3.0 then 0.2 else 1.0 - (d / 3.0) * 0.8
  }

  /** A nearer source never scores lower. */
  lemma ProximityNonIncreasing(d1: real, d2: real)
    requires 0.0 <= d1 <= d2
    ensures ProximityFromDistance(d1) >= ProximityFromDistance(d2)
  {
  }

  predicate KnownNonNegative(w: WaterSource)
  {
    w.distanceFromCenterKm.Some? ==> w.distanceFromCenterKm.value >= 0.0
  }

  /** 0.0 without sources, otherwise the score of the nearest effective distance; in [0.2, 1]
      when no distance is negative. */
  function WaterProximityScore(sources: seq<WaterSource>): (score: real)
    ensures sources == [] ==> score == 0.0
    ensures sources != [] ==> score == ProximityFromDistance(MinOf(Distances(sources)))
    ensures sources != [] && (forall k :: 0 <= k < |sources| ==> KnownNonNegative(sources[k])) ==>
      0.2 <= score <= 1.0
  {
    if sources == [] then 0.0
    else
      var ds := Distances(sources);
      assert MinOf(ds) in ds;
      ProximityFromDistance(MinOf(ds))
  }

  /** A source reported at exactly 0 km is scored as if it were 100 km away. */
  lemma SourceAtZeroKmIsFar(c: Coordinates, kind: string, seasonal: bool)
    ensures WaterProximityScore([WaterSource(c, kind, seasonal, Some(0.0))]) == 0.2
  {
    assert Distances([WaterSource(c, kind, seasonal, Some(0.0))]) == [100.0];
  }

  // ---------------------------------------------------------------- climate

  /** 1 inside the bee-friendly band 12-25 °C, 0.7 outside. */
  function TemperatureScore(t: real): (s: real)
    ensures s == 1.0 <==> 12.0 <= t <= 25.0
    ensures s == 0.7 <==> !(12.0 <= t <= 25.0)
  {
    if t < 12.0 || t > 25.0 then 0.7 else 1.0
  }

  /** 1 for 500-1500 mm of rain a year, 0.8 otherwise. */
  function RainScore(mm: real): (s: real)
    ensures s == 1.0 <==> 500.0 <= mm <= 1500.0
    ensures s == 0.8 <==> !(500.0 <= mm <= 1500.0)
  {
    if mm < 500.0 || mm > 1500.0 then 0.8 else 1.0
  }

  /** Falls linearly with the average wind speed and reaches 0 at 30 km/h. */
  function WindScore(kmh: real): (s: real)
    ensures kmh >= 0.0 ==> 0.0 <= s <= 1.0
    ensures kmh >= 30.0 ==> s == 0.0
    ensures kmh <= 30.0 ==> s * 30.0 == 30.0 - kmh
  {
    1.0 - Min(1.0, kmh / 30.0)
  }

  /** The weighted climate score; for non-negative wind it lies in [0.59, 1] and reaches 1
      exactly for ideal temperature, ideal rainfall and no wind. */
  function ClimateSuitability(c: ClimateData): (score: real)
    ensures c.windSpeedAvg >= 0.0 ==> 0.59 <= score <= 1.0
    ensures c.windSpeedAvg >= 0.0 ==>
      (score == 1.0 <==> TemperatureScore(c.averageTemperature) == 1.0 && RainScore(c.rainfallMmYear) == 1.0 && c.windSpeedAvg == 0.0)
  {
    0.5 * TemperatureScore(c.averageTemperature) + 0.3 * RainScore(c.rainfallMmYear) + 0.2 * WindScore(c.windSpeedAvg)
  }

  // ---------------------------------------------------------------- overall score

  /** `min(1, ndvi / 0.7) * 100` with a missing NDVI read as 0. */
  function VegetationScore(indices: map<string, real>): (s: real)
    ensures s <= 100.0
    ensures s == 100.0 <==> GetOrDefault(indices, "ndvi", 0.0) >= 0.7
    ensures GetOrDefault(indices, "ndvi", 0.0) >= 0.0 ==> s >= 0.0
    ensures GetOrDefault(indices, "ndvi", 0.0) < 0.7 ==> s * 0.7 == GetOrDefault(indices, "ndvi", 0.0) * 100.0
  {
    Min(1.0, GetOrDefault(indices, "ndvi", 0.0) / 0.7) * 100.0
  }

  function Cover(land: map<LandCoverClass, real>, c: LandCoverClass): real
  {
    GetOrDefault(land, c, 0.0)
  }

  /** Shares of forest, shrubland, grassland and cropland weighted 0.7, 1, 0.8 and 0.5, minus
      0.8 times the urban share, in percent; for shares in [0, 1] whose total is at most 1 the
      score lies in [-80, 100]. */
  function LandScore(land: map<LandCoverClass, real>): (s: real)
    ensures (forall c :: 0.0 <= Cover(land, c) <= 1.0) &&
      Cover(land, Forest) + Cover(land, Shrubland) + Cover(land, Grassland) + Cover(land, Cropland) + Cover(land, Urban) <= 1.0
      ==> -80.0 <= s <= 100.0
  {
    (Cover(land, Forest) * 0.7 + Cover(land, Shrubland) * 1.0 + Cover(land, Grassland) * 0.8 +
     Cover(land, Cropland) * 0.5 - Cover(land, Urban) * 0.8) * 100.0
  }

  /** 100 up to 5 degrees, then 3 points less per degree, never below 0. */
  function SlopeScore(degrees: real): (s: real)
    ensures 0.0 <= s <= 100.0
    ensures s == 100.0 <==> degrees <= 5.0
    ensures s == 0.0 <==> degrees * 3.0 >= 115.0
    ensures 5.0 < degrees && degrees * 3.0 < 115.0 ==> s == 100.0 - (degrees - 5.0) * 3.0
  {
    if degrees > 5.0 then Max(0.0, 100.0 - (degrees - 5.0) * 3.0) else 100.0
  }

  /** A steeper terrain never scores higher. */
  lemma SlopeNonIncreasing(a: real, b: real)
    requires a <= b
    ensures SlopeScore(a) >= SlopeScore(b)
  {
  }

  /** The weighted sum before clamping. */
  function WeightedSuitability(veg: real, land: real, water: real, climate: real, slope: real): real
  {
    0.35 * veg + 0.15 * land + 0.20 * (water * 100.0) + 0.20 * (climate * 100.0) + 0.10 * slope
  }

  /** The weighted sum clamped to [0, 100]; the clamp changes nothing when the sum is already
      in range. */
  function OverallSuitability(indices: map<string, real>, water: real, climate: real,
                              land: map<LandCoverClass, real>, slope: real): (score: real)
    ensures 0.0 <= score <= 100.0
    ensures var raw := WeightedSuitability(VegetationScore(indices), LandScore(land), water, climate, SlopeScore(slope));
      (raw < 0.0 ==> score == 0.0) && (raw > 100.0 ==> score == 100.0) && (0.0 <= raw <= 100.0 ==> score == raw)
  {
    Min(100.0, Max(0.0, WeightedSuitability(VegetationScore(indices), LandScore(land), water, climate, SlopeScore(slope))))
  }

  /** With every component in its nominal range the weighted sum needs no clamping. */
  lemma NominalComponentsNeedNoClamp(veg: real, land: real, water: real, climate: real, slope: real)
    requires 0.0 <= veg <= 100.0 && 0.0 <= land <= 100.0 && 0.0 <= slope <= 100.0
    requires 0.0 <= water <= 1.0 && 0.0 <= climate <= 1.0
    ensures 0.0 <= WeightedSuitability(veg, land, water, climate, slope) <= 100.0
  {
  }

  // ---------------------------------------------------------------- simulated data sources

  const SimulatedIndices: map<string, real> := map["ndvi" := 0.68, "evi" := 0.72, "lai" := 3.5]

  /** A river 1.2 km and a seasonal pond 0.8 km from the centre; building their coordinates
      fails near the poles or the antimeridian. */
  function SimulatedWaterSources(center: Coordinates): (r: Result<seq<WaterSource>, string>)
    ensures r.Ok? <==> InRange(center.latitude + 0.015, center.longitude - 0.02) &&
                       InRange(center.latitude - 0.01, center.longitude + 0.01)
    ensures r.Ok? ==> |r.value| == 2 && forall k :: 0 <= k < 2 ==> KnownNonNegative(r.value[k])
  {
    var river := MakeCoordinates(center.latitude + 0.015, center.longitude - 0.02);
    if river.Err? then Err(river.error)
    else
      var pond := MakeCoordinates(center.latitude - 0.01, center.longitude + 0.01);
      if pond.Err? then Err(pond.error)
      else Ok([WaterSource(river.value, "river", false, Some(1.2)), WaterSource(pond.value, "pond", true, Some(0.8))])
  }

  const SimulatedClimate: ClimateData := ClimateData(18.5, 10.2, 31.8, 850.0, 12.3, 65.0, "worldclim")

  const SimulatedLandCover: map<LandCoverClass, real> :=
    map[Forest := 0.25, Shrubland := 0.40, Grassland := 0.20, Cropland := 0.10, Urban := 0.02, Water := 0.03, Barren := 0.00]

  const SimulatedElevation: (real, real) := (320.0, 450.0)
  const SimulatedSlope: real := 15.2
  const SimulatedAspect: string := "Sul"
  const SimulatedFloweringPercent: real := 35.0

  // ---------------------------------------------------------------- analyze_area

  /** Python truthiness of an optional size: `None` and `0.0` are both falsy. */
  predicate Truthy(x: Option<real>)
  {
    x.Some? && x.value != 0.0
  }

  /** Both optional fields are set, so a further analysis leaves them alone. */
  predicate Filled(area: Area)
    reads area
  {
    area.center.Some? && Truthy(area.areaKm2)
  }

  /** The centre `analyze_area` settles on: the given one, else the centroid. */
  function SettledCenter(center: Option<Coordinates>, points: seq<Coordinates>): (c: Option<Coordinates>)
    ensures c.None? <==> center.None? && points == []
    ensures center.Some? ==> c == center
  {
    if center.Some? then center
    else if points == [] then None
    else Some(Centroid(points).value)
  }

  /** Fills the missing centre and size of `area` in place, then scores the simulated sources.
      The centroid of an empty polygon raises before anything is written; invalid simulated
      source coordinates raise after the area has been filled. */
  method AnalyzeArea(area: Area) returns (r: Result<GeospatialAnalysis, string>)
    modifies area
    ensures area.points == old(area.points)
    ensures old(area.center).None? && old(area.points) == [] ==>
      r.Err? && area.center == old(area.center) && area.areaKm2 == old(area.areaKm2)
    ensures !(old(area.center).None? && old(area.points) == []) ==>
      Filled(area) &&
      area.center == SettledCenter(old(area.center), old(area.points)) &&
      area.areaKm2 == (if Truthy(old(area.areaKm2)) then old(area.areaKm2) else Some(AreaSize(area.points)))
    ensures old(Filled(area)) ==> area.center == old(area.center) && area.areaKm2 == old(area.areaKm2)
    ensures r.Ok? <==> area.center.Some? && SimulatedWaterSources(area.center.value).Ok?
    ensures r.Ok? ==> r.value.area == area && ScoresInDocumentedRanges(r.value)
    ensures r.Ok? ==> r.value.waterProximityScore == WaterProximityScore(r.value.waterSources) &&
                      r.value.climateSuitabilityScore == ClimateSuitability(r.value.climate) &&
                      r.value.overallBeeSuitability == OverallSuitability(r.value.vegetationIndices,
                        r.value.waterProximityScore, r.value.climateSuitabilityScore, r.value.landCover, r.value.slopeAvg)
  {
    if area.center.None? {
      var c := Centroid(area.points);
      if c.Err? {
        return Err(c.error);
      }
      area.center := Some(c.value);
    }
    if !Truthy(area.areaKm2) {
      area.areaKm2 := Some(AreaSize(area.points));
    }
    var sources := SimulatedWaterSources(area.center.value);
    if sources.Err? {
      return Err(sources.error);
    }
    var water := WaterProximityScore(sources.value);
    var climate := ClimateSuitability(SimulatedClimate);
    var overall := OverallSuitability(SimulatedIndices, water, climate, SimulatedLandCover, SimulatedSlope);
    r := Ok(GeospatialAnalysis(area, SimulatedIndices, SimulatedLandCover, sources.value, SimulatedClimate,
                               SimulatedElevation, SimulatedSlope, SimulatedAspect, SimulatedFloweringPercent,
                               water, climate, overall));
  }
}
