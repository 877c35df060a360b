/** The geospatial records of `backend/models/geospatial.py`. Pydantic field constraints
    become subset types and checked constructors; an `Area` is a class because the analysis
    service fills its optional fields in place. */
module GeoModels {
  import opened Wrappers

  predicate InRange(latitude: real, longitude: real)
  {
    -90.0 <= latitude <= 90.0 && -180.0 <= longitude <= 180.0
  }

  datatype LatLon = LatLon(latitude: real, longitude: real)

  /** A validated point: latitude in [-90, 90], longitude in [-180, 180]. */
  type Coordinates = c: LatLon | InRange(c.latitude, c.longitude) witness LatLon(0.0, 0.0)

  /** `Coordinates(latitude=..., longitude=...)`: a validation error outside the ranges. */
  function MakeCoordinates(latitude: real, longitude: real): (r: Result<Coordinates, string>)
    ensures r.Ok? <==> InRange(latitude, longitude)
    ensures r.Ok? ==> r.value.latitude == latitude && r.value.longitude == longitude
  {
    if InRange(latitude, longitude) then Ok(LatLon(latitude, longitude))
    else Result<Coordinates, string>.Err("ensure this value is within the coordinate range")
  }

  /** A polygon of points with an optional centre and an optional size in km². */
  class Area {
    var points: seq<Coordinates>
    var center: Option<Coordinates>
    var areaKm2: Option<real>

    /** `Area(points=...)`: centre and size default to `None`. */
    constructor(points: seq<Coordinates>)
      ensures this.points == points && center == None && areaKm2 == None
    {
      this.points := points;
      center := None;
      areaKm2 := None;
    }
  }

  datatype LandCoverClass = Forest | Shrubland | Grassland | Cropland | Urban | Water | Barren

  /** The enum values as they appear in the land-cover dictionaries. */
  function LandCoverName(c: LandCoverClass): (s: string)
    ensures |s| >= 5
  {
    match c
    case Forest => "forest"
    case Shrubland => "shrubland"
    case Grassland => "grassland"
    case Cropland => "cropland"
    case Urban => "urban"
    case Water => "water"
    case Barren => "barren"
  }

  const AllLandCover: seq<LandCoverClass> := [Forest, Shrubland, Grassland, Cropland, Urban, Water, Barren]

  /** The enumeration has exactly seven members, each with its own value. */
  lemma LandCoverEnumeration()
    ensures |AllLandCover| == 7
    ensures forall c: LandCoverClass :: c in AllLandCover
    ensures forall i, j :: 0 <= i < j < 7 ==> LandCoverName(AllLandCover[i]) != LandCoverName(AllLandCover[j])
  {
    forall c: LandCoverClass
      ensures c in AllLandCover
    {
      match c {
        case Forest => assert AllLandCover[0] == c;
        case Shrubland => assert AllLandCover[1] == c;
        case Grassland => assert AllLandCover[2] == c;
        case Cropland => assert AllLandCover[3] == c;
        case Urban => assert AllLandCover[4] == c;
        case Water => assert AllLandCover[5] == c;
        case Barren => assert AllLandCover[6] == c;
      }
    }
    forall i, j | 0 <= i < j < 7
      ensures LandCoverName(AllLandCover[i]) != LandCoverName(AllLandCover[j])
    {
      var a, b := LandCoverName(AllLandCover[i]), LandCoverName(AllLandCover[j]);
      assert a[0] != b[0] || a[1] != b[1] || |a| != |b|;
    }
  }

  /** A river, lake or pond with its distance from the area's centre, when known. */
  datatype WaterSource = WaterSource(coordinates: Coordinates, kind: string, seasonal: bool, distanceFromCenterKm: Option<real>)

  /** `WaterSource(coordinates=..., type=...)` with the remaining fields left at their defaults. */
  function NewWaterSource(coordinates: Coordinates, kind: string): (w: WaterSource)
    ensures w.coordinates == coordinates && w.kind == kind
    ensures !w.seasonal && w.distanceFromCenterKm.None?
  {
    WaterSource(coordinates, kind, false, None)
  }

  /** Yearly climate figures; the timestamp is left out. */
  datatype ClimateData = ClimateData(averageTemperature: real, minTemperature: real, maxTemperature: real,
                                     rainfallMmYear: real, windSpeedAvg: real, humidityAvg: real, source: string)

  /** The complete analysis of one area; the timestamp is left out. */
  datatype GeospatialAnalysis = GeospatialAnalysis(
    area: Area,
    vegetationIndices: map<string, real>,
    landCover: map<LandCoverClass, real>,
    waterSources: seq<WaterSource>,
    climate: ClimateData,
    elevationRange: (real, real),
    slopeAvg: real,
    aspect: string,
    floweringPlantsPercentage: real,
    waterProximityScore: real,
    climateSuitabilityScore: real,
    overallBeeSuitability: real)

  /** The documented ranges of the three beekeeping scores: 0-1, 0-1 and 0-100. */
  predicate ScoresInDocumentedRanges(a: GeospatialAnalysis)
  {
    0.0 <= a.waterProximityScore <= 1.0 &&
    0.0 <= a.climateSuitabilityScore <= 1.0 &&
    0.0 <= a.overallBeeSuitability <= 100.0
  }
}
