# BeeMapPRO flora and apiary-suitability core, modelled in Dafny

BeeMapPRO looks at an area of land and estimates how suitable it is for beekeeping. This
project models the numeric and indexing core of that pipeline:

- **Spectral indices** (`spectral.dfy`, module `Spectral`): per-pixel NDVI, EVI, MSAVI, the
  chlorophyll index and the SWIR/NIR ratio computed from Sentinel-2 bands.
  - The 11-column feature stack.
  - Rosemary detection, by threshold or by a per-pixel model.
  - The older detector, which returns no map when it has no model and an all-zero map
    when it has one.
  - Both copies of `flora_detection/utils.py` compute the indices and the feature stack
    with identical lines. The table cites the `backend/python` copy.
- **Patch tiling and stitching** (`tiling.dfy`, module `Tiling`): the `range(0, h - p + 1, s)`
  offset grid.
  - The distance-weighted overwrite rule that stitches patch classes back into a class map.
  - An imperative `Stitch` over an `array2`, proved against the per-pixel function
    `StitchedAt`.
- **Vegetation health** (`vegetation.dfy`, module `Vegetation`): the five NDVI buckets and
  their percentages, which always sum to 100.
- **The CNN pipeline, current version** (`geo_cnn.dfy`, module `GeoCnn`):
  - Band/index stacking with the chlorophyll index as channel 10.
  - Patch extraction, as a loop proved to equal a specification function.
  - Image prediction.
  - Health metrics over the valid NDVI values in [-1, 1].
  - A month-based flowering table.
- **The CNN pipeline, older version** (`geo_cnn_legacy.dfy`, module `GeoCnnLegacy`):
  - Stacking with the SWIR/NIR ratio as channel 10.
  - A stride derived from an overlap fraction.
  - A patch cap that still lets one patch through when the cap is below 1.
  - An all-zero prediction.
  - Health over the strictly positive NDVI values.
  - A calendar-based season lookup in which 1 January to 20 March has no season.
- **The apiary-potential regressor** (`suitability.dfy`, module `SuitabilityModel`): a class
  with the model, the scaler and the feature names as fields.
  - Save/load round-trip.
  - Prediction clipped to [0, 100].
  - Feature importances.
  - The top-five explanation, ranked by a stable descending sort.
  - The rating text.
- **Geospatial records and analysis service** (`geo_models.dfy`, `geo_service.dfy`): validated
  coordinates, and an `Area` whose centre and size are filled in place.
  - Centroid, water-proximity, climate and overall-suitability scores.
  - The simulated data the service returns.
- **The ML service glue** (`ml_service.dfy`, module `MlService`): the feature dictionary
  handed to the model, and the merge of the model's answer with defaults.
- **The flora HTTP endpoint's arithmetic** (`flora_api.dfy`, module `FloraApi`):
  - The request gate: missing input, unsupported type, and the 1000 ha limit.
  - Flora distribution and nectar potential (a loop).
  - The overall score, which is always between 41 and 87.
  - Coverage statistics from a class histogram whose counts sum to the pixel count.

Behaviours of the code that the proofs make explicit:

- A water source whose distance is `0.0` counts as 100 km away: `distance or 100` treats zero
  as missing (`GeoService.SourceAtZeroKmIsFar`).
- An `area_km2` of `0.0` is likewise replaced by the placeholder 12.5.
- The feature dictionary built by the ML service shares only 7 of its 13 keys with the
  model's 14-name schema. Shrubland, cropland, elevation, slope, temperature, rainfall and
  water distance therefore always reach the scaler as `0.0`, so the regressor sees only the
  scaler's fixed transform of zero in those columns (`MlService.SchemaMismatch`).
- In the flora endpoint the flowering information is always present, so the nectar default
  of 50 is never used. With valid health shares the clamp on the nectar sum never bites
  (`FloraApi.NectarNeedsNoClamp`).
- The older season lookup yields no season, and hence no species stages, for dates from
  1 January to 20 March (`GeoCnnLegacy.SeasonCalendar`).
- The two CNN versions disagree on the tenth channel (`GeoCnnLegacy.ChannelOrdersDiffer`).

Modelling conventions:

- Reflectances and scores are `real`.
- A Python exception is the `Err` side of a `Result`, or `None` of an `Option` where the
  code returns `None`.
- `int(x)` is `Wrappers.Trunc`.
- `dict.get(k, d)` is `Wrappers.GetOrDefault`.
- A trained network, a scikit-learn estimator or a scaler is a function parameter.
- The square root in MSAVI is a parameter constrained to be the exact root.
- The current month, the current day and the polygon's area in m² are parameters.

## Model

| member | source | states |
|---|---|---|
| Spectral.NdviPixel | backend/python/flora_detection/utils.py:32-34 | zero where nir + red ≤ 0, otherwise the value v with v·(nir + red) = nir − red |
| Spectral.NdviInUnitRange | backend/python/flora_detection/utils.py:15-35 | for non-negative reflectances NDVI lies in [-1, 1] |
| Spectral.EviPixel | backend/python/flora_detection/utils.py:56 | v times the EVI denominator equals 2.5·(nir − red) |
| Spectral.MsaviPixel | backend/python/flora_detection/utils.py:76 | MSAVI never exceeds (2·nir + 1)/2 |
| Spectral.MsaviSolvesQuadratic | backend/python/flora_detection/utils.py:76 | MSAVI is a root of m² − (2·nir + 1)·m + 2·(nir − red) = 0 |
| Spectral.CiPixel | backend/python/flora_detection/utils.py:141 | (ci + 1)·redEdge = nir |
| Spectral.RatioPixel | backend/python/flora_detection/utils.py:144 | ratio·nir = swir1 |
| Spectral.SpectralIndices | backend/python/flora_detection/utils.py:115-146 | all five index grids have the bands' shape and hold the per-pixel formulas |
| Spectral.CalculateNdvi | backend/python/flora_detection/utils.py:15-35 | the array has the input shape and every cell is NdviPixel of the two bands |
| Spectral.Stack | backend/python/flora_detection/utils.py:148-186 | one grid per requested channel, each of the bands' shape |
| Spectral.FeatureStack | backend/python/flora_detection/utils.py:165-186 | H·W rows of 11 features |
| Spectral.FeatureRowAt | backend/python/flora_detection/utils.py:165-186 | row i·W + j of the stack holds pixel (i, j)'s features in column order |
| Spectral.ChannelVector | backend/python/flora_detection/utils.py:165-186 | each flattened channel has H·W values |
| Spectral.ChannelGridShaped | backend/python/flora_detection/utils.py:165-186 | every channel grid has the bands' shape |
| Spectral.DetectByThreshold | backend/python/flora_detection/utils.py:275-287 | a cell is 1 iff the pixel passes both the NDVI and the ratio thresholds, otherwise 0 |
| Spectral.ToGrid | backend/python/flora_detection/utils.py:287 | the grid holds the array's cells |
| Spectral.Reshape | backend/python/flora_detection/utils.py:301-305 | an H·W vector becomes an H×W grid whose row-major flattening is the vector again |
| Spectral.ReshapeAt | backend/python/flora_detection/utils.py:301-305 | cell (i, j) of the reshaped grid is entry i·W + j of the vector |
| Spectral.DetectWithModel | backend/python/flora_detection/utils.py:296-305 | the prediction grid has the bands' shape |
| Spectral.ModelPredictionAt | backend/python/flora_detection/utils.py:296-305 | cell (i, j) is the model applied to pixel (i, j)'s feature row |
| Spectral.DetectRosemary | backend/python/flora_detection/utils.py:243-316 | with a model path, the model's per-pixel prediction; without one, the threshold map |
| Spectral.DetectRosemaryLegacy | python/flora_detection/utils.py:237-298 | no map iff there is no model path; otherwise an all-zero map of the NIR band's shape |
| Tiling.RangeStepElements | backend/python/flora_detection/geo_cnn.py:280-281 | element k of range(start, stop, step) is start + k·step, and all are below stop |
| Tiling.RangeStepCount | backend/python/flora_detection/geo_cnn.py:280-281 | range(0, m + 1, s) has m div s + 1 elements when m ≥ 0, else none |
| Tiling.PairsAt | backend/python/flora_detection/geo_cnn.py:280-283 | the nested loops visit (ii[a], jj[b]) at position a·\|jj\| + b |
| Tiling.PairsExtend | backend/python/flora_detection/geo_cnn.py:280-283 | one more outer iteration appends one row of pairs |
| Tiling.PairsMembers | backend/python/flora_detection/geo_cnn.py:280-283 | every visited pair comes from the two ranges |
| Tiling.GridOffsetAt | backend/python/flora_detection/geo_cnn.py:343-347 | the offset at a·nj + b is (a·s, b·s) |
| Tiling.GridOffsetCount | backend/python/flora_detection/geo_cnn.py:343-347 | the number of patches is the product of the two range counts |
| Tiling.GridOffsetsInBounds | backend/python/flora_detection/geo_cnn.py:343-347 | every patch lies entirely inside the image |
| Tiling.DefaultTiling | backend/python/flora_detection/geo_cnn.py:291 | a 128×128 image with 64-pixel patches and stride 32 gives the nine offsets |
| Tiling.WeightTest | backend/python/flora_detection/geo_cnn.py:370-371 | weight > 0.5 iff \|2di − p\| + \|2dj − p\| < p |
| Tiling.OverwriteRule | backend/python/flora_detection/geo_cnn.py:368-372 | a patch overwrites a covered pixel iff it is still 0 or the weight exceeds 0.5 |
| Tiling.UncoveredStaysZero | backend/python/flora_detection/geo_cnn.py:360-372 | a pixel no patch covers stays 0 |
| Tiling.StitchedFromClasses | backend/python/flora_detection/geo_cnn.py:363-372 | every stitched pixel is 0 or one of the patch classes |
| Tiling.StitchedInRange | backend/python/flora_detection/geo_cnn.py:357-372 | with classes in [0, n), every stitched pixel is in [0, n) |
| Tiling.Stitch | backend/python/flora_detection/geo_cnn.py:360-372 | the h×w array equals StitchedAt at every pixel |
| Tiling.StitchStep | backend/python/flora_detection/geo_cnn.py:368-372 | one more patch leaves uncovered pixels unchanged and applies the overwrite rule to covered ones |
| Tiling.StitchPatch | backend/python/flora_detection/geo_cnn.py:363-372 | one pass of the patch loop moves every pixel from n stitched patches to n + 1 |
| Tiling.StitchRow | backend/python/flora_detection/geo_cnn.py:366-372 | one row of a patch moves that image row from n stitched patches to n + 1 |
| Vegetation.HealthBucket | backend/python/flora_detection/geo_cnn.py:443-453 | each of the five buckets is selected iff the value lies in its half-open interval |
| Vegetation.BucketsPartition | backend/python/flora_detection/geo_cnn.py:443-453 | the five bucket counts sum to the number of values |
| Vegetation.BucketCountPositive | backend/python/flora_detection/geo_cnn.py:443-453 | the bucket of any present value is non-empty |
| Vegetation.PercentBounds | backend/python/flora_detection/geo_cnn.py:443-453 | a share of a total is between 0 and 100 |
| Vegetation.PercentScales | backend/python/flora_detection/geo_cnn.py:443-453 | percent·total = 100·count |
| Vegetation.PercentsAdd | backend/python/flora_detection/geo_cnn.py:443-453 | percentages of counts that partition a total sum to 100 |
| Vegetation.Shares | backend/python/flora_detection/geo_cnn.py:443-453 | each share is its bucket's percentage; all in [0, 100], summing to 100 |
| GeoCnn.BackendStack | backend/python/flora_detection/geo_cnn.py:258-273 | ten layers of the bands' shape, NDVI at index 6 and the chlorophyll index at 9 |
| GeoCnn.PatchAt | backend/python/flora_detection/geo_cnn.py:282-287 | a p×p channels-last patch whose cell (di, dj, c) is layer c at (i + di, j + dj) |
| GeoCnn.WindowPatches | backend/python/flora_detection/geo_cnn.py:280-287 | one patch per grid offset, each cut at that offset |
| GeoCnn.ExtractPatches | backend/python/flora_detection/geo_cnn.py:343-348 | the loops produce exactly the grid offsets and the window patches |
| GeoCnn.PrepareSentinelData | backend/python/flora_detection/geo_cnn.py:235-289 | fails iff the stride is 0 or no patch fits; otherwise the window patches of the stack |
| GeoCnn.PatchClasses | backend/python/flora_detection/geo_cnn.py:357 | one class per patch |
| GeoCnn.PredictImage | backend/python/flora_detection/geo_cnn.py:291-413 | fails iff no patch fits; otherwise an H×W map equal to the stitched classes, each in [0, numClasses) |
| GeoCnn.VegetationHealth | backend/python/flora_detection/geo_cnn.py:415-455 | error iff no value lies in [-1, 1]; otherwise the mean and the five category shares are those of exactly the values in [-1, 1]; -1 ≤ min ≤ mean ≤ max ≤ 1, min and max attained, shares sum to 100 |
| GeoCnn.MeanValid | backend/python/flora_detection/geo_cnn.py:496-501 | no mean iff no valid value; otherwise the mean of exactly the values in [-1, 1], so it lies in [-1, 1] |
| GeoCnn.StageTableConsistent | backend/python/flora_detection/geo_cnn.py:504-559 | a stage is Dormant iff its flowering percent is 0, and percents lie in [0, 80] |
| GeoCnn.EstimateFloweringStage | backend/python/flora_detection/geo_cnn.py:457-570 | the season is determined by the month as written; all three species get a table stage |
| GeoCnn.OnlyRosemaryReadsNdvi | backend/python/flora_detection/geo_cnn.py:504-559 | heather's and eucalyptus's stages do not depend on NDVI |
| GeoCnn.RosemaryFollowsNdvi | backend/python/flora_detection/geo_cnn.py:503-508 | in April rosemary is at peak (80 %) iff mean NDVI exceeds 0.5, otherwise early (40 %) |
| GeoCnn.September | backend/python/flora_detection/geo_cnn.py:482-559 | September is autumn, with rosemary dormant (0 %) and heather at peak (80 %) |
| GeoCnnLegacy.ChannelOrdersDiffer | python/flora_detection/geo_cnn.py:199-210 | the two stacks agree on nine channels and differ in the tenth |
| GeoCnnLegacy.LegacyStack | python/flora_detection/geo_cnn.py:199-210 | ten layers of the bands' shape with the SWIR/NIR ratio at index 9 |
| GeoCnnLegacy.PatchCFAt | python/flora_detection/geo_cnn.py:225-226 | a channels-first patch whose cell (c, dy, dx) is layer c at (y + dy, x + dx) |
| GeoCnnLegacy.AllPatches | python/flora_detection/geo_cnn.py:222-232 | one patch per grid offset |
| GeoCnnLegacy.AllPatchesAt | python/flora_detection/geo_cnn.py:222-226 | patch a·nx + b is cut at (a·s, b·s) |
| GeoCnnLegacy.Stride | python/flora_detection/geo_cnn.py:216 | patch size × (1 − overlap) truncated toward zero; 32 for the defaults 64 and 0.5 |
| GeoCnnLegacy.CappedCount | python/flora_detection/geo_cnn.py:222-232 | the loops keep min(cap, total) patches, but one when the cap is below 1 and there is a patch |
| GeoCnnLegacy.CollectPatches | python/flora_detection/geo_cnn.py:222-232 | the kept patches are the first CappedCount of all patches |
| GeoCnnLegacy.PrepareSentinelData | python/flora_detection/geo_cnn.py:170-237 | fails iff the stride is 0; otherwise the capped prefix of the patches |
| GeoCnnLegacy.PredictImage | python/flora_detection/geo_cnn.py:327-418 | an H×W map that is 0 everywhere |
| GeoCnnLegacy.VegetationHealth | python/flora_detection/geo_cnn.py:460-494 | none iff no value is positive; otherwise the shares and the mean are those of exactly the positive values (each share divides by the positive count); shares sum to 100; the mean is positive |
| GeoCnnLegacy.AboveOneIsExceptional | python/flora_detection/geo_cnn.py:483-489 | a value above 1 is counted, as exceptional |
| GeoCnnLegacy.CurrentSeason | python/flora_detection/geo_cnn.py:529-537 | the loop finds the same season as the calendar |
| GeoCnnLegacy.SeasonCalendar | python/flora_detection/geo_cnn.py:521-537 | each season iff the date lies in its range; no season iff the date is on or before 20 March |
| GeoCnnLegacy.SpeciesStages | python/flora_detection/geo_cnn.py:563-582 | empty without a season; otherwise all three species with the table stage and its percent |
| GeoCnnLegacy.EstimateFloweringStage | python/flora_detection/geo_cnn.py:497-584 | the season of the date and its species stages |
| SuitabilityModel.OrderedFeatures | backend/models/ml_model.py:150 | one value per name, the feature's value when present and 0.0 otherwise |
| SuitabilityModel.Clip | backend/models/ml_model.py:159 | in [0, 100], the identity inside, 0 below and 100 above |
| SuitabilityModel.ZipMapDistinct | backend/models/ml_model.py:167 | with distinct names, each name maps to its own importance |
| SuitabilityModel.ApiaryPotentialModel.constructor | backend/models/ml_model.py:27-47 | a stored bundle is loaded; otherwise the demo model with the 14 default names |
| SuitabilityModel.ApiaryPotentialModel.SaveModel | backend/models/ml_model.py:110-122 | the bundle holds the model, the scaler, the names and the timestamp |
| SuitabilityModel.ApiaryPotentialModel.LoadModel | backend/models/ml_model.py:124-133 | the fields become the bundle's, so saving again gives the bundle back |
| SuitabilityModel.ApiaryPotentialModel.Predict | backend/models/ml_model.py:135-159 | an error iff no model; otherwise the clipped regressor output on the scaled ordered row |
| SuitabilityModel.ApiaryPotentialModel.GetFeatureImportances | backend/models/ml_model.py:161-167 | an error iff no model; otherwise names zipped with importances, truncated to the shorter |
| SuitabilityModel.ApiaryPotentialModel.ImportancesPerFeature | backend/models/ml_model.py:161-167 | with matching lengths each feature name maps to its own importance |
| SuitabilityModel.ApiaryPotentialModel.ExplainPrediction | backend/models/ml_model.py:169-217 | an error iff no model or a name lacks an importance; otherwise the predicted score, its text and the top-five factors |
| SuitabilityModel.Insert | backend/models/ml_model.py:183-188 | insertion keeps the multiset plus the new element |
| SuitabilityModel.InsertSorted | backend/models/ml_model.py:183-188 | insertion keeps the descending, position-stable order |
| SuitabilityModel.SortRanked | backend/models/ml_model.py:183-188 | the sort is a permutation |
| SuitabilityModel.SortRankedSorted | backend/models/ml_model.py:183-188 | the sort is descending by importance and stable on ties |
| SuitabilityModel.RankedFeatures | backend/models/ml_model.py:183-186 | one entry per name, with its value (default 0.0) and importance |
| SuitabilityModel.TopFive | backend/models/ml_model.py:191 | min(5, number of names) entries |
| SuitabilityModel.BuildFactors | backend/models/ml_model.py:191-211 | one factor per ranked feature, in order, with its rule text, name, value and importance |
| SuitabilityModel.RankingSorted | backend/models/ml_model.py:183-188 | the ranking is a sorted permutation of the features |
| SuitabilityModel.TopFiveFromSchema | backend/models/ml_model.py:191-211 | every factor is a schema name with its value and importance |
| SuitabilityModel.TopFiveOrdered | backend/models/ml_model.py:183-191 | factors come in non-increasing importance |
| SuitabilityModel.TopFiveDominates | backend/models/ml_model.py:183-191 | any feature left out ranks no higher than every listed factor |
| SuitabilityModel.TitleFrom | backend/models/ml_model.py:204 | each letter is lowered when it follows a letter and raised otherwise; other characters and the length are kept |
| SuitabilityModel.Title | backend/models/ml_model.py:204 | each letter is raised at the start of the text or after a non-letter and lowered after a letter; other characters and the length are kept |
| SuitabilityModel.TitleIdempotent | backend/models/ml_model.py:204 | title-casing twice equals title-casing once |
| SuitabilityModel.Underscores | backend/models/ml_model.py:204 | underscores become spaces and nothing else changes |
| SuitabilityModel.TemperatureRuleIsSubstring | backend/models/ml_model.py:201-202 | every name other than ndvi, water_distance_km, urban_pct and forest_pct that contains temp_avg anywhere gets a temperature sentence, adequate iff the value is in [0.4, 0.6] |
| SuitabilityModel.FactorText | backend/models/ml_model.py:193-204 | one of the six fixed sentences iff the ndvi, water, urban or forest rule or the temp_avg substring rule fires; otherwise the title-cased name with underscores as spaces, followed by " tem impacto significativo" |
| SuitabilityModel.LowNdviIsGeneric | backend/models/ml_model.py:193-204 | NDVI at most 0.6 falls through to the generic text |
| SuitabilityModel.RatingLevel | backend/models/ml_model.py:219-230 | level 4 iff score ≥ 85, 3 iff 70 ≤ score < 85, 2 iff 50 ≤ score < 70, 1 iff 30 ≤ score < 50, 0 iff score < 30 |
| SuitabilityModel.TextExplanation | backend/models/ml_model.py:219-230 | the sentence of the score's level: the "excelente" sentence iff score ≥ 85, the "Boa área" sentence iff 70 ≤ score < 85, the "moderadamente" one iff 50 ≤ score < 70, the "limitações significativas" one iff 30 ≤ score < 50, the "pouco adequada" one iff score < 30 |
| SuitabilityModel.TextsDistinguishBuckets | backend/models/ml_model.py:219-230 | two scores get the same text iff they are at the same level |
| SuitabilityModel.RatingMonotone | backend/models/ml_model.py:219-230 | a higher score never gets a lower level |
| GeoModels.MakeCoordinates | backend/models/geospatial.py:6-8 | valid iff latitude is in [-90, 90] and longitude in [-180, 180]; values are kept |
| GeoModels.Area.constructor | backend/models/geospatial.py:10-14 | the points are stored; centre and size start unset |
| GeoModels.LandCoverEnumeration | backend/models/geospatial.py:33-40 | seven classes, each listed, with distinct values |
| GeoModels.NewWaterSource | backend/models/geospatial.py:42-46 | not seasonal and no distance by default |
| GeoService.Centroid | backend/services/geospatial_analysis.py:21-28 | an error iff there are no points; otherwise the mean latitude and longitude |
| GeoService.CentroidInBoundingBox | backend/services/geospatial_analysis.py:21-28 | the centroid lies in the points' bounding box |
| GeoService.AreaSize | backend/services/geospatial_analysis.py:30-37 | the placeholder size of 12.5 km² |
| GeoService.EffectiveDistance | backend/services/geospatial_analysis.py:176 | a missing or zero distance counts as 100 km |
| GeoService.ProximityFromDistance | backend/services/geospatial_analysis.py:178-181 | 0.2 beyond 3 km; otherwise 1 − 0.8·d/3, within [0.2, 1] for d ≥ 0 |
| GeoService.ProximityNonIncreasing | backend/services/geospatial_analysis.py:178-181 | a nearer source never scores lower |
| GeoService.WaterProximityScore | backend/services/geospatial_analysis.py:170-181 | 0 without sources; otherwise the score of the nearest effective distance, in [0.2, 1] |
| GeoService.SourceAtZeroKmIsFar | backend/services/geospatial_analysis.py:176 | a single source at 0.0 km scores 0.2 |
| GeoService.TemperatureScore | backend/services/geospatial_analysis.py:186-188 | 1 iff 12 ≤ t ≤ 25, otherwise 0.7 |
| GeoService.RainScore | backend/services/geospatial_analysis.py:194-196 | 1 iff 500 ≤ mm ≤ 1500, otherwise 0.8 |
| GeoService.WindScore | backend/services/geospatial_analysis.py:191 | 1 − wind/30 floored at 0, in [0, 1] |
| GeoService.ClimateSuitability | backend/services/geospatial_analysis.py:183-199 | in [0.59, 1]; 1 iff temperature and rain are ideal and there is no wind |
| GeoService.VegetationScore | backend/services/geospatial_analysis.py:211 | at most 100, equal to 100 iff NDVI ≥ 0.7, and NDVI / 0.7 · 100 below 0.7; a missing NDVI counts as 0 |
| GeoService.LandScore | backend/services/geospatial_analysis.py:214-220 | with shares in [0, 1] summing to at most 1, within [-80, 100] |
| GeoService.SlopeScore | backend/services/geospatial_analysis.py:223 | in [0, 100]; 100 iff slope ≤ 5°; 0 iff slope ≥ 115/3 ≈ 38.33°; 100 − 3·(slope − 5) in between |
| GeoService.SlopeNonIncreasing | backend/services/geospatial_analysis.py:223 | a steeper slope never scores higher |
| GeoService.OverallSuitability | backend/services/geospatial_analysis.py:201-234 | in [0, 100]: 0 when the weighted sum is negative, 100 when it exceeds 100, the weighted sum otherwise |
| GeoService.NominalComponentsNeedNoClamp | backend/services/geospatial_analysis.py:226-234 | components in their nominal ranges give a weighted sum already in [0, 100] |
| GeoService.SimulatedWaterSources | backend/services/geospatial_analysis.py:51-77 | valid iff both shifted points are valid coordinates; two sources at 1.2 and 0.8 km |
| GeoService.SettledCenter | backend/services/geospatial_analysis.py:123-125 | unset iff there was no centre and no points; an existing centre is kept |
| GeoService.AnalyzeArea | backend/services/geospatial_analysis.py:118-168 | fills the missing centre and size in place, idempotently; on success all three scores are in their documented ranges and equal the score functions |
| MlService.ExtractMlFeatures | backend/services/ml_service.py:65-84 | exactly the 13 keys; ndvi and evi from the indices and the five land-cover shares (forest, cropland, grassland, urban, water), each 0 when missing; water distance = 1 − proximity; elevation range = max − min; slope, temperature, rainfall and wind copied from the analysis |
| MlService.WaterDistanceInUnitRange | backend/services/ml_service.py:72 | a proximity in [0, 1] gives a water distance in [0, 1] |
| MlService.SchemaMismatch | backend/services/ml_service.py:65-84 | seven of the model's fourteen inputs are always 0.0 |
| MlService.NotProduced | backend/services/ml_service.py:68-83 | the seven missing schema names are not produced |
| MlService.SchemaOverlap | backend/services/ml_service.py:65-84 | the other seven schema inputs pass through |
| MlService.ExplanationDict | backend/models/ml_model.py:213-217 | the three keys of an explanation, with its score |
| MlService.CombineResults | backend/services/ml_service.py:86-153 | the model's score or 77.5, the counts and proximity from the analysis, humidity as seasonal risk, and the area size |
| MlService.CombineAfterExplanation | backend/services/ml_service.py:92-106 | after an explanation, the score is the model's and every other model entry takes its default |
| FloraApi.GateRequest | backend/python/flora_detection/api.py:194-229 | 400 (missing input) iff type or coordinates are missing; 400 (unsupported type) iff the type is not polygon/rectangle; 500 iff measuring the polygon fails; 400 (too large) iff the area exceeds 1000 ha; proceed with the hectares otherwise |
| FloraApi.Distribute | backend/python/flora_detection/api.py:287-292 | the three species and the rest sum to 100; with valid shares the rest is at least 20 |
| FloraApi.BeekeepingSuitability | backend/python/flora_detection/api.py:296 | NDVI·100 clamped to [30, 95]: 30 below 30, 95 above 95, NDVI·100 in between |
| FloraApi.Clamp100 | backend/python/flora_detection/api.py:305 | 0 below 0, 100 above 100, the value itself in between |
| FloraApi.NectarPotential | backend/python/flora_detection/api.py:301-305 | the loop's sum of flowering percent × share / 100, clamped to [0, 100] |
| FloraApi.NectarSumBounds | backend/python/flora_detection/api.py:302-304 | with percents in [0, 80] the sum lies between 0 and 0.8 × the shares |
| FloraApi.OverallScore | backend/python/flora_detection/api.py:310-313 | the truncated weighted score is between 41 and 87 for sub-scores in range |
| FloraApi.ScoreArea | backend/python/flora_detection/api.py:287-313 | every sub-score as defined, and an overall score in [41, 87] |
| FloraApi.FloweringPercentsBounded | backend/python/flora_detection/geo_cnn.py:504-559 | all flowering percents lie in [0, 80] |
| FloraApi.NectarNeedsNoClamp | backend/python/flora_detection/api.py:301-305 | with valid shares and percents the raw sum lies in [0, 64], so the clamp is the identity |
| FloraApi.OccurrencesPositive | backend/python/flora_detection/api.py:128-129 | a class occurs iff it is present |
| FloraApi.Histogram | backend/python/flora_detection/api.py:128-129 | keys are exactly the present classes, each mapped to its count |
| FloraApi.Classes | backend/python/flora_detection/api.py:128 | the distinct present classes |
| FloraApi.HistogramTotal | backend/python/flora_detection/api.py:128-132 | the counts sum to the pixel count |
| FloraApi.HistogramLookup | backend/python/flora_detection/api.py:133 | looking up a class with default 0 gives its count |
| FloraApi.PixelStats | backend/python/flora_detection/api.py:126-134 | coverage in [0, 100] is the percentage of class-1 pixels; the distribution is the histogram |
| FloraApi.Coverage | backend/python/flora_detection/api.py:126-137 | no detection gives 0 and an empty distribution; otherwise the pixel statistics |

## Left out

- Network training and inference (TensorFlow/Keras) and the scikit-learn fit: the trained
  model is a function parameter.
- Pickle files, rasterio/GeoTIFF reading and writing, matplotlib plots, the Flask request
  and JSON glue, logging and the report writer: I/O only.
- The square root in MSAVI is supplied as an exact root; median and standard deviation in
  the reports are not modelled.
- `calculate_area_in_m2` (shapely projection) is the parameter `areaM2`; `fetch_sentinel_image`
  is not part of this model.
- Random placeholder values in `ml_service.py` (lines 56-61), timestamps and date parsing:
  the month and day are inputs.
- The formatting of the report's message text is not modelled.
- NaN and infinite reflectances are not modelled: bands are real numbers.
- Spectral.EviPixel: requires a non-zero denominator; numpy's inf/nan result for a zero
  denominator is not modelled.
- Spectral.CiPixel: requires a non-zero red-edge value, for the same reason.
- Spectral.RatioPixel: requires a non-zero NIR value, for the same reason.
- Spectral.SpectralIndices: requires the three denominators to be non-zero at every pixel.
- Spectral.DetectRosemary, GeoCnn.PrepareSentinelData, GeoCnn.PredictImage,
  GeoCnnLegacy.PrepareSentinelData and GeoCnnLegacy.PredictImage: inherit the same requirement
  (`Computable`), because they compute the spectral indices.
- GeoCnn.PrepareSentinelData and GeoCnn.PredictImage: require a non-negative stride; every
  call site passes 32, and a negative stride is not modelled.
- Spectral.MsaviPixel: requires the caller to supply the exact square root.
- GeoCnnLegacy.PrepareSentinelData: requires a non-negative stride; an overlap above 1
  (negative stride) is not modelled.
- GeoCnn.PredictImage: requires a positive patch size, as does Tiling.Stitch.
- GeoCnnLegacy.PredictImage: the older prediction with no patch at all (an empty network
  call) is not modelled; the result is the all-zero map.
- SuitabilityModel.Title: title case is modelled for ASCII letters only.
- GeoService.AreaSize: the service returns a constant placeholder, and so does the model.
