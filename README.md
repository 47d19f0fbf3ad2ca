# Mexican destination climate finder — a Dafny model

This project models the core of a climate-planning application for five Mexican weather stations:
Veracruz, Ciudad de México, Cancún, Monterrey and Tijuana. The model covers:

- **The station stores.** Each loads per-station, per-variable monthly series, converts units,
  drops missing values and pre-groups the values by calendar month. A query resolves a coordinate
  to the nearest station and returns that month's values for every year. There are two stores:
  the optimised one and the legacy one.
- **Four analyzers.** They turn those yearly series into daily rain chances and amounts, wind
  classes and risk, relative humidity and comfort, and cloud cover and sky condition.
- **Two destination finders.** They score every station against a named climate condition, made
  of `less`/`greater`/`between` constraints on variables, then filter by a minimum score and rank
  the stations. One is the enhanced finder, with a seasonal bonus and a per-destination analysis.
  The other is the strict finder, which reports missing data and rejects unknown conditions.
- **The dashboard's classifiers**, which map temperature, precipitation and probabilities to
  labels and colours.

Every source file the model relies on has a module:

| Module | What it holds |
|---|---|
| `Stations` | The station table and nearest-station scan |
| `StationStore`, `LegacyStore` | The two stores; classes over `map` fields |
| `Series`, `Order`, `Numerics` | numpy's `mean`, `sum` of a mask, `percentile`, `median`, `std`, `min`, `max`, and Python's `round(x, 1)` |
| `Probability` | `calculate_probability` and `get_statistics` |
| `Bands` | The `if/elif` threshold ladder shared by every classifier |
| `Precipitation`, `Wind`, `Humidity`, `Cloudiness` | The analyzers |
| `Conditions`, `Evaluation`, `Ranking` | The condition tables, per-station scoring and the stable descending sort |
| `FinderEnhanced`, `FinderStrict` | The two finders |
| `Metricas` | The classifiers of the dashboard |

Methods that loop over stations, variables or months are `method`s with loop invariants, and each
is proved equal to a specification function. The properties the source promises are proved about
those functions. Examples:

- ranked results are sorted, are a permutation of the qualifying stations, and keep station order
  on ties;
- a station is listed if and only if its score reaches the minimum;
- the month buckets partition the loaded values;
- every classifier is monotone in its input;
- the percentiles are ordered;
- shares stay within [0, 100].

## Model

| member | source | states |
|---|---|---|
| Stations.DaysIn | data/precipitation_analyzer.py:57-60 | the days of a month of a non-leap year, between 28 and 31 |
| Stations.SqDist | data/csv_processor_optimized.py:120 | the squared planar distance to a station is never negative |
| Stations.SqDistances | data/csv_processor_optimized.py:119-120 | one distance per station, in station order |
| Stations.ScanMin | data/csv_processor_optimized.py:116-125 | the scan that keeps a candidate only when it is strictly closer picks an index of the sequence |
| Stations.ScanMinIsFirstMin | data/csv_processor_optimized.py:116-125 | that scan returns the first index of a minimum distance: nothing before it is at most as close, nothing after it is closer |
| Stations.FirstMinUnique | data/csv_processor_optimized.py:116-125 | the first minimum is unique, so the scan's result is fully determined |
| Stations.SameOrderSameScan | data/csv_processor.py:94-102 | two distance sequences that order the stations alike give the same scan result |
| Stations.NearestIndex | data/csv_processor_optimized.py:114-125 | the nearest station of a non-empty table is one of its stations |
| Stations.StationResolvesToItself | config/settings.py:36-87 | a query at a station's own coordinates resolves to that station, for each of the five stations |
| StationStore.Convert | data/csv_processor_optimized.py:64-69 | unit conversion keeps one row per row |
| StationStore.DropMissing | data/csv_processor_optimized.py:77-78 | dropping missing values never adds rows |
| StationStore.MonthValues | data/csv_processor_optimized.py:80-84 | a month bucket has at most as many values as there are readings |
| StationStore.StationTables | data/csv_processor_optimized.py:47-90 | a station's tables hold exactly the visited variables whose file is present |
| StationStore.StationTablesSnoc | data/csv_processor_optimized.py:47-54 | visiting one more variable adds its buckets when its file exists and changes nothing otherwise |
| StationStore.Store.constructor | data/csv_processor_optimized.py:16-26 | a fresh store knows the five stations and holds no data |
| StationStore.Store.LoadAll | data/csv_processor_optimized.py:37-112 | after loading, the data is the specification `Loaded` of the previous data, and the result is true if and only if the store holds some station |
| StationStore.Store.LoadStation | data/csv_processor_optimized.py:44-90 | a station is reset and then given the buckets of each of its present files, and no other station changes |
| StationStore.Store.BucketByMonth | data/csv_processor_optimized.py:80-84 | the twelve-month loop builds exactly the map from each month 1..12 to that month's values in order |
| StationStore.Store.FindNearestCity | data/csv_processor_optimized.py:114-125 | with no stations the result is (None, infinity); otherwise it is the key of the first nearest station and its squared distance |
| StationStore.Store.GetHistoricalData | data/csv_processor_optimized.py:127-140 | the query returns (None, None) for an unloaded station and (None, name) for a missing variable; otherwise the month's bucket, or None for a month outside 1..12, with the station's name |
| StationStore.LoadedStation | data/csv_processor_optimized.py:44-90 | after loading, every listed station holds the tables built from its own files |
| StationStore.LoadedOthers | data/csv_processor_optimized.py:44-45 | loading leaves the entries of unlisted keys as they were |
| StationStore.LoadReportsSuccess | data/csv_processor_optimized.py:112 | loading any non-empty station list reports success |
| StationStore.TablesOfVariable | data/csv_processor_optimized.py:87-90 | a present file's variable maps to the buckets of its own rows |
| StationStore.ConvertIdentity | data/csv_processor_optimized.py:64-71 | temperature, precipitation and humidity load unchanged |
| StationStore.ConvertThenDrop | data/csv_processor_optimized.py:64-78 | the stored values are the raw present values times the variable's factor (3.6 for wind, 100 for cloud cover) |
| StationStore.MonthBucketsPartition | data/csv_processor_optimized.py:80-84 | the twelve buckets together hold exactly the loaded values, as a multiset, and each bucket is that month's values |
| StationStore.NameOfStation | data/csv_processor_optimized.py:135-138 | a station's key looks up its own name |
| StationStore.QueryAtStation | data/csv_processor_optimized.py:127-140 | after loading the five stations, a query at a station's coordinates returns the month values of that station's own converted, cleaned file, or None when the file or the month is missing |
| LegacyStore.Distances | data/csv_processor.py:94-98 | one Euclidean distance per station |
| LegacyStore.EuclideanPicksSameStation | data/csv_processor.py:89-104 | taking square roots does not change which station the scan picks |
| LegacyStore.MonthRows | data/csv_processor.py:131-132 | filtering by month never adds rows |
| LegacyStore.FilterThenDrop | data/csv_processor.py:131-146 | filtering by month and then dropping NaN gives the same values as dropping first and bucketing |
| LegacyStore.DropMissingAppend | data/csv_processor.py:145-146 | dropping missing values distributes over concatenation |
| LegacyStore.MonthValuesAppend | data/csv_processor.py:131-132 | a month's values distribute over concatenation |
| LegacyStore.Store.constructor | data/csv_processor.py:14-42 | the legacy store knows the five stations and the given tables |
| LegacyStore.Store.FindNearestCity | data/csv_processor.py:89-104 | with no stations the result is (None, infinity); otherwise it is the first station with the least Euclidean distance, and that distance |
| LegacyStore.Store.GetHistoricalData | data/csv_processor.py:106-148 | the query returns (None, None) for an unloaded station and (None, name) for a missing variable, an empty month or an unsupported variable; otherwise the month's non-missing values |
| LegacyStore.LegacyAgreesWithBuckets | data/csv_processor.py:131-146 | for temperature and precipitation, the legacy query's values equal the optimised store's month bucket |
| Probability.Indicators | data/csv_processor_optimized.py:147-150 | the boolean mask has one 0/1 entry per value |
| Probability.SumOfIndicators | data/csv_processor_optimized.py:147-150 | the mask's sum is the number of values passing the test |
| Probability.CalculateProbability | data/csv_processor_optimized.py:142-150 | the probability lies in [0, 1] and is 0 for missing or empty values |
| Probability.CalculateProbabilityLegacy | data/csv_processor.py:150-160 | the legacy count-over-length lies in [0, 1] and is 0 for missing or empty values |
| Probability.ProbabilityIsShare | data/csv_processor.py:150-160 | both stores' probability is the share of values strictly above (`greater`) or strictly below (any other mode) the threshold, so the two agree |
| Probability.ThresholdNeverCounts | data/csv_processor_optimized.py:147-150 | values equal to the threshold never count, in either mode |
| Probability.GetStatistics | data/csv_processor_optimized.py:152-164 | None exactly for missing or empty values; otherwise min <= mean <= max, min <= median <= max, std >= 0, and count is the number of values |
| Probability.StatisticsExtremesOccur | data/csv_processor_optimized.py:152-164 | the reported min and max are values of the series |
| Series.Count | data/wind_analyzer.py:73-76 | a count of passing values is at most the length |
| Series.Filter | data/precipitation_analyzer.py:90 | a boolean-mask selection keeps exactly the passing values, as a sub-multiset |
| Series.Fraction | data/cloudiness_analyzer.py:46-48 | `np.mean` of a mask lies in [0, 1], is 0 exactly when nothing passes and 1 exactly when everything does |
| Series.CountAll | data/cloudiness_analyzer.py:46 | a mask every value passes counts every value |
| Series.CountNone | data/cloudiness_analyzer.py:48 | a mask no value passes counts nothing |
| Series.CountBelowAtLeast | data/cloudiness_analyzer.py:46-48 | `< a` and `>= a` split the values |
| Series.CountBelowSplit | data/cloudiness_analyzer.py:46-47 | the values below b are those below a plus those in [a, b) |
| Series.CountAtLeastSplit | data/wind_analyzer.py:73-74 | the values at least a are those in [a, b) plus those at least b |
| Series.Min | data/wind_analyzer.py:63 | `np.min` is at most every value |
| Series.Max | data/wind_analyzer.py:62 | `np.max` is at least every value |
| Series.MinMaxAreMembers | data/wind_analyzer.py:62-63 | `np.min` and `np.max` are values of the series |
| Series.MinMaxOfMember | data/wind_analyzer.py:62-63 | every value lies between `np.min` and `np.max` |
| Series.Mean | data/wind_analyzer.py:61 | `np.mean` lies between the minimum and the maximum |
| Series.MeanWithin | data/humidity_analyzer.py:92 | the mean of values within [lo, hi] is within [lo, hi] |
| Series.MeanOfConstant | data/destination_finder.py:165-168 | the mean of a constant series is that constant |
| Numerics.RoundHalfEven | data/wind_analyzer.py:86 | the nearest integer, with ties going to the even one |
| Numerics.Round1 | data/wind_analyzer.py:86-108 | `round(x, 1)` is within 0.05 of x |
| Numerics.Round1Monotone | data/wind_analyzer.py:86-108 | `round(x, 1)` preserves order |
| Numerics.Round1OfTenths | data/destination_finder_enhanced.py:221-223 | a multiple of 0.1 rounds to itself |
| Numerics.RoundHalfEvenMonotone | data/wind_analyzer.py:86-108 | rounding to the nearest integer preserves order |
| Numerics.Round1Percent | data/wind_analyzer.py:97-100 | a percentage in [0, 100] stays in [0, 100] after rounding |
| Numerics.Round1Within | data/wind_analyzer.py:86-108 | rounding to one decimal never leaves an interval whose ends are multiples of 0.1 |
| Numerics.Percent | data/wind_analyzer.py:97-100 | `round(p * 100, 1)` of a share lies in [0, 100] |
| Numerics.Clip | data/humidity_analyzer.py:59 | `np.clip` lands in [lo, hi] and leaves values already inside unchanged |
| Order.InsertAsc | data/wind_analyzer.py:67-70 | inserting into a sorted series keeps it sorted and adds exactly the new value |
| Order.SortAsc | data/wind_analyzer.py:67-70 | numpy's sort is ascending and a permutation of the input |
| Order.SortedMember | data/wind_analyzer.py:67-70 | every sorted element lies between the minimum and the maximum |
| Order.Interpolate | data/wind_analyzer.py:67-70 | linear interpolation stays between its two end points |
| Order.VirtualIndex | data/wind_analyzer.py:67-70 | the 'linear' method's virtual index (n-1)p/100 lies within the sorted series |
| Order.FloorIndex | data/wind_analyzer.py:67-70 | the integer part of the virtual index is a valid index |
| Order.AtVirtualIndex | data/wind_analyzer.py:67-70 | interpolating at the virtual index stays between the first and the last sorted values |
| Order.Percentile | data/wind_analyzer.py:67-70 | `np.percentile` lies between the minimum and the maximum |
| Order.PercentileMonotone | data/wind_analyzer.py:67-70 | a higher percentile is never smaller |
| Order.Median | data/wind_analyzer.py:67 | `np.median` (the 50th percentile) lies between the minimum and the maximum |
| Order.RoundedSummary | data/humidity_analyzer.py:92-94 | the rounded minimum <= rounded mean <= rounded maximum |
| Order.RoundedQuartiles | data/humidity_analyzer.py:97-99 | the rounded 25th, 75th and 90th percentiles are ordered and lie within the rounded extremes |
| Order.Deviations | data/wind_analyzer.py:64 | the squared deviations are never negative |
| Order.Variance | data/wind_analyzer.py:64 | the population variance is never negative |
| Order.Std | data/wind_analyzer.py:64 | `np.std` is never negative |
| Ranking.InsertDesc | data/destination_finder_enhanced.py:240 | inserting behind every result of greater or equal score keeps the list sorted and adds exactly the new result |
| Ranking.SortDesc | data/destination_finder_enhanced.py:240 | `sort(key=..., reverse=True)` gives a list sorted by non-increasing key that is a permutation of its input |
| Ranking.SortDescStable | data/destination_finder.py:175 | the sort keeps the original order among results of equal key |
| Bands.BandIndex | components/metricas.py:4-15 | an `if x < c0 ... elif ...` ladder picks one of len(cuts) + 1 bands |
| Bands.BandIndexMonotone | components/metricas.py:4-39 | a larger input never lands in a lower band |
| Bands.BandIndexExact | components/metricas.py:4-39 | with ascending cuts, band k is taken exactly when cuts[k-1] <= x < cuts[k] |
| Metricas.TemperatureCategory | components/metricas.py:4-15 | the label and colour of the band of the temperature under cuts 10, 18, 25, 30 |
| Metricas.PrecipitationCategory | components/metricas.py:17-28 | the band under cuts 10, 50, 100, 200 mm |
| Metricas.RiskLevel | components/metricas.py:30-39 | the band under cuts 0.1, 0.3, 0.6 |
| Metricas.RiskLevelMonotone | components/metricas.py:30-39 | a higher probability never gives a lower risk level |
| Metricas.ProbabilityColor | components/metricas.py:131-136 | green below 0.4, yellow below 0.7, red from 0.7 |
| Precipitation.ExpectedRainyDays | data/precipitation_analyzer.py:33-54 | the typical number of rainy days lies between 1 and 18 and is 10 for a station the table lacks |
| Precipitation.CategorizeIntensity | data/precipitation_analyzer.py:174-194 | the intensity label of the band under cuts 2, 5, 15, 30 mm/day |
| Precipitation.IntensityMonotone | data/precipitation_analyzer.py:174-194 | more mm per day never gives a lighter label |
| Precipitation.DailyProbability | data/precipitation_analyzer.py:116-117 | the daily chance lies in [0, rainy days / days in month] and never exceeds the monthly chance |
| Precipitation.DailyAmounts | data/precipitation_analyzer.py:123-144 | 0 <= low <= average <= high; all zero without a rainy month; otherwise the average is the mean rainy total over the rainy days |
| Precipitation.RoundAmounts | data/precipitation_analyzer.py:157-158 | rounding keeps the daily amounts ordered and non-negative |
| Precipitation.Summarize | data/precipitation_analyzer.py:95-172 | years analysed and years with more than 5 mm; the monthly chance is their rounded percentage; the daily chance is the rounded percentage of the climatological rainy-day share times that monthly chance; the amount per rainy day and its range are the rounded mean of the >5 mm months over the expected rainy days, one spread either side; the intensity is the label of that unrounded amount's band; the climatology entries; min <= mean <= max |
| Precipitation.AnalyzeMonthlyData | data/precipitation_analyzer.py:85-93 | None exactly when no value is non-negative; otherwise exactly the summary of the non-negative values |
| Precipitation.DailyWithinClimatology | data/precipitation_analyzer.py:116-117 | the daily chance never exceeds the climatological share of rainy days |
| Precipitation.NoSignificantRain | data/precipitation_analyzer.py:140-144 | with no month above 5 mm: zero amounts, zero range, "Llovizna ligera", no significant years |
| Precipitation.CancunOctober | data/precipitation_analyzer.py:123-149 | two Octobers of 100 and 140 mm in Cancún give 10 mm per rainy day, "Lluvia moderada" |
| Precipitation.CancunOctoberFilters | data/precipitation_analyzer.py:86-93 | the two Octobers pass the non-negative filter unchanged |
| Precipitation.CancunOctoberAmount | data/precipitation_analyzer.py:123-149 | the summary of those two Octobers reports 10 mm per rainy day and "Lluvia moderada" |
| Precipitation.RainyDayAmountExample | data/precipitation_analyzer.py:127-131 | 100 and 140 mm over 12 rainy days give 10 mm per rainy day |
| Precipitation.CancunOctoberCounts | data/precipitation_analyzer.py:99-108 | the same input: 2 of 2 years significant, 100 % monthly chance, 12 rainy days of 31 |
| Precipitation.RainForecastMessage | data/precipitation_analyzer.py:196-243 | no analysis gives the no-data text; otherwise the message tier is the band of the daily chance under 10, 30, 60, and it carries that chance and the month name |
| Precipitation.IntegrateWithProcessor | data/precipitation_analyzer.py:249-292 | no values gives no report; values with a day missing from 2024 is an error; with values and a valid day the result is a report exactly when the nearest station's analysis of those values exists, and then it carries that analysis, the store's station name and the analysis's message |
| Wind.CategorizeWind | data/wind_analyzer.py:111-122 | the wind label of the band under cuts 10, 20, 40, 60 km/h |
| Wind.CategorizeWindMonotone | data/wind_analyzer.py:111-122 | a faster wind never gets a calmer label |
| Wind.GetRiskLevel | data/wind_analyzer.py:124-133 | the risk depends on the 90th percentile only, banded at 20, 40, 60 |
| Wind.WindClassesPartition | data/wind_analyzer.py:73-76 | strong, moderate, light and calm years partition the series |
| Wind.RoundedPercentiles | data/wind_analyzer.py:67-70 | the rounded 50th, 75th, 90th and 95th percentiles are ordered within the rounded extremes |
| Wind.RoundedStd | data/wind_analyzer.py:108 | the variability is never negative |
| Wind.Summarize | data/wind_analyzer.py:61-109 | extremes bound the mean and the ordered percentiles; the strong, moderate, light and calm shares are the rounded percentages of their classes, each in [0, 100]; the category is banded by the mean and the risk by the 90th percentile |
| Wind.AnalyzeMonthlyData | data/wind_analyzer.py:51-58 | None exactly when no value is non-negative; otherwise exactly the summary of the non-negative speeds |
| Wind.CalmShares | data/wind_analyzer.py:73-76 | speeds all below 10 km/h give a 100 % calm share and a 0 % strong share |
| Wind.CalmMean | data/wind_analyzer.py:79 | speeds all below 10 km/h have a mean in the lowest speed class |
| Wind.CalmP90 | data/wind_analyzer.py:82 | speeds all below 10 km/h have a 90th percentile in the lowest risk band |
| Wind.CalmMonth | data/wind_analyzer.py:61-109 | a month always below 10 km/h is 100 % calm, 0 % strong, "Calmo", risk "Muy bajo" |
| Wind.GetWindForecastMessage | data/wind_analyzer.py:135-177 | no analysis gives the no-data text; otherwise the tier is the band of the average under 10, 20, 40, carrying the average and the month name |
| Wind.IntegrateWindWithProcessor | data/wind_analyzer.py:180-217 | no values gives no report; an invalid 2024 day is an error; with values and a valid day the result is a report exactly when the analysis of those values exists, and then it carries that analysis, the station name and its message |
| Humidity.SaturationPressure | data/humidity_analyzer.py:53 | the saturation pressure 611·exp(17.27T/(T+237.3)) is positive |
| Humidity.RelativeHumidity | data/humidity_analyzer.py:50-59 | the clipped relative humidity lies in [0, 100] |
| Humidity.DryAir | data/humidity_analyzer.py:50-59 | air with no moisture has 0 % relative humidity |
| Humidity.MoreMoistureMoreHumid | data/humidity_analyzer.py:50-59 | at a fixed temperature, more specific humidity never lowers relative humidity |
| Humidity.VapourPressureMonotone | data/humidity_analyzer.py:50 | the vapour pressure grows with specific humidity |
| Humidity.WarmerAirLessHumid | data/humidity_analyzer.py:50-59 | at a fixed moisture, warmer air never has higher relative humidity |
| Humidity.RelativeHumidities | data/humidity_analyzer.py:43-61 | one value in [0, 100] per year |
| Humidity.SpecificToRelativeHumidity | data/humidity_analyzer.py:18-61 | None exactly when the two series differ in length; otherwise the per-year conversion |
| Humidity.CategorizeHumidity | data/humidity_analyzer.py:117-128 | the label of the band under cuts 30, 50, 70, 85 % |
| Humidity.GetComfortLevel | data/humidity_analyzer.py:130-137 | "Ideal" exactly on [40, 60], "Confortable" exactly on [30, 40) or (60, 70], "Incómodo" otherwise |
| Humidity.IdealIsDryOrComfortable | data/humidity_analyzer.py:117-137 | an ideal comfort level is labelled "Seco" or "Confortable" |
| Humidity.Summarize | data/humidity_analyzer.py:92-115 | 0 <= min <= mean <= max <= 100; ordered percentiles; the category and comfort of the mean |
| Humidity.AnalyzeMonthlyData | data/humidity_analyzer.py:63-115 | None exactly when either series is missing or empty or their lengths differ; otherwise the summary of the converted series |
| Humidity.GetHumidityMessage | data/humidity_analyzer.py:139-158 | no analysis gives the no-data text; otherwise the tier is the band of the average under 30, 50, 70, 85 |
| Humidity.IntegrateHumidityWithProcessor | data/humidity_analyzer.py:161-187 | a missing humidity or temperature series gives no report; an invalid 2024 day is an error; with both series and a valid day the result is a report exactly when the analysis of the two series exists, and then it carries that analysis, the humidity query's station name and its message |
| Cloudiness.CategorizeCloudiness | data/cloudiness_analyzer.py:69-78 | the label of the band under cuts 25, 50, 75 % |
| Cloudiness.GetSkyCondition | data/cloudiness_analyzer.py:80-89 | the sky condition of the same band |
| Cloudiness.SkyConditionMonotone | data/cloudiness_analyzer.py:80-89 | more cloud never gives a better sky |
| Cloudiness.SkyClassesPartition | data/cloudiness_analyzer.py:46-48 | clear, partly cloudy and overcast years partition the series |
| Cloudiness.Summarize | data/cloudiness_analyzer.py:36-67 | extremes bound the mean and the ordered percentiles; the clear, partly cloudy and overcast shares are the rounded percentages of their classes, each in [0, 100]; the category and sky condition of the mean |
| Cloudiness.AnalyzeMonthlyData | data/cloudiness_analyzer.py:29-30 | None exactly for missing or empty values |
| Cloudiness.ClearMonth | data/cloudiness_analyzer.py:36-67 | a month always below 25 % is 100 % clear, 0 % overcast, "Cielo despejado", "Excelente" |
| Cloudiness.GetCloudinessMessage | data/cloudiness_analyzer.py:91-108 | no analysis gives the no-data text; otherwise the tier is the band of the average under 25, 50, 75 |
| Cloudiness.IntegrateCloudinessWithProcessor | data/cloudiness_analyzer.py:111-131 | no values gives no report; an invalid 2024 day is an error; with values and a valid day the result is a report exactly when the analysis of those values exists, and then it carries that analysis, the station name and its message |
| Conditions.OpTest | data/destination_finder_enhanced.py:197-213 | `less` is strictly below max, `greater` strictly above min, `between` inclusive on both ends |
| Conditions.GetConditionInfo | data/destination_finder_enhanced.py:244-246 | the condition under a known key, None otherwise |
| Conditions.GetRecommendedMonths | data/destination_finder_enhanced.py:252-256 | a known condition's months, empty for an unknown key; all are calendar months |
| Evaluation.VariableProbability | data/destination_finder_enhanced.py:194-213 | a constraint's share is the scale times the fraction of years passing it, and lies in [0, scale] with scale 100 (1 for `less`/`greater` in the strict finder) |
| Evaluation.Entry | data/destination_finder_enhanced.py:179-216 | a constraint contributes one entry exactly when its series exists and is non-empty, with a share in [0, 100] |
| Evaluation.ResolveUpTo | data/destination_finder_enhanced.py:177-216 | at most one entry per constraint, shares in [0, 100], and no entry at all exactly when no constraint resolves |
| Evaluation.ResolveAll | data/destination_finder_enhanced.py:177-216 | the same for the whole condition |
| Evaluation.Shares | data/destination_finder_enhanced.py:216 | the list of shares, one per resolved constraint, in order |
| Evaluation.ProbabilityMap | data/destination_finder_enhanced.py:215 | the probability map has exactly the resolved variables as keys, each with a value in [0, 100] |
| Evaluation.AverageMap | data/destination_finder_enhanced.py:191 | the average map has exactly the resolved variables as keys |
| Evaluation.MeanShare | data/destination_finder_enhanced.py:220-223 | the rounded mean share lies in [0, 100], between the rounded least and greatest share, and is 0 with no shares |
| Evaluation.ResolveStep | data/destination_finder_enhanced.py:179-188 | one more constraint adds an entry exactly when its fetched series is non-empty, and is missing otherwise |
| Evaluation.AppendStep | data/destination_finder_enhanced.py:191-216 | one more entry appends its share and updates both maps at its variable |
| Evaluation.Lookup | data/destination_finder_enhanced.py:179-185 | the fetched series is the store's bucket for the station's coordinates |
| Evaluation.Visit | data/destination_finder_enhanced.py:177-216 | one iteration of the constraint loop keeps the loop state in step with the specification |
| Evaluation.EvaluateConstraints | data/destination_finder.py:126-159 | the loop's shares and both maps are those of the resolved constraints, and `missing` holds exactly when some constraint has no values |
| FinderEnhanced.WithBonus | data/destination_finder_enhanced.py:226-233 | in season the score is multiplied by 1.15 and capped at 100; out of season it is unchanged |
| FinderEnhanced.CityScore | data/destination_finder_enhanced.py:164-233 | a station's result carries its key and name and a score in [0, 100]; there is no bonus flag exactly when no constraint resolves, and then the score is 0; the flag says whether the month is in season; otherwise the score is the mean share with the seasonal bonus applied, so it equals the mean share out of season |
| FinderEnhanced.Scores | data/destination_finder_enhanced.py:164 | one result per station, in station order |
| Ranking.KeepAtLeast | data/destination_finder_enhanced.py:236-237 | every kept result reaches the minimum; both finders filter with it |
| Ranking.KeepAtLeastMembers | data/destination_finder.py:171-172 | a result is kept exactly when it is scored and reaches the minimum |
| FinderEnhanced.Kept | data/destination_finder_enhanced.py:235-237 | the filtered scores, in station order, all reach the minimum |
| FinderEnhanced.FindDestinationsSpec | data/destination_finder_enhanced.py:135-242 | an unknown condition gives an empty list; results are in non-increasing score order |
| FinderEnhanced.KeptMembers | data/destination_finder_enhanced.py:164-237 | the kept results are exactly the station scores that reach the minimum |
| FinderEnhanced.FindDestinationsSound | data/destination_finder_enhanced.py:135-242 | every listed result belongs to a known condition, is some station's score, and lies between the minimum and 100 |
| FinderEnhanced.FindDestinationsComplete | data/destination_finder_enhanced.py:135-242 | every station scoring at least the minimum is listed |
| FinderEnhanced.FindDestinationsRanked | data/destination_finder_enhanced.py:240 | the list is sorted, is a permutation of the kept results, and keeps station order among equal scores |
| FinderEnhanced.NoDataStation | data/destination_finder_enhanced.py:171-237 | a station with no data has no bonus flag and is listed exactly when the minimum is at most 0 |
| FinderEnhanced.Recommendation | data/destination_finder_enhanced.py:330-337 | the recommendation of the score's band under 30, 50, 70 |
| FinderEnhanced.RecommendationMonotone | data/destination_finder_enhanced.py:330-337 | a higher score never gets a weaker recommendation |
| FinderEnhanced.StationByKey | data/destination_finder_enhanced.py:270-276 | the station with that key exactly when one exists |
| FinderEnhanced.Detail | data/destination_finder_enhanced.py:300-322 | the rounded min <= average <= max; the probability is the rounded percentage share, in [0, 100]; the detail carries its condition |
| FinderEnhanced.DetailsUpTo | data/destination_finder_enhanced.py:292-322 | every reported variable's details are ordered and its probability is in [0, 100] |
| FinderEnhanced.DetailsUpToKeys | data/destination_finder_enhanced.py:292-322 | a variable is reported exactly when some constraint on it has a non-empty bucket |
| FinderEnhanced.DetailsUpToLast | data/destination_finder_enhanced.py:316-322 | each reported variable carries the rounded statistics and percentage share of the last constraint on it with a non-empty bucket |
| FinderEnhanced.AnalyzeSpec | data/destination_finder_enhanced.py:258-339 | None exactly for an unknown station or condition; otherwise the names, the details of every constraint with values, the rounded mean share as score in [0, 100], and the recommendation band (empty when nothing resolved) |
| FinderEnhanced.AnalysisAgreesWithFinder | data/destination_finder_enhanced.py:220-233 | the analysis score is at most the finder's score, and equal to it out of season |
| FinderEnhanced.VariableAsWritten | data/destination_finder_enhanced.py:297-322 | as written, a variable fails exactly on an empty series; a missing one is skipped; otherwise its detail |
| FinderEnhanced.AnalyzeSpecificDestinationAsWritten | data/destination_finder_enhanced.py:258-339 | as written, the analysis fails exactly when a known station and condition meet an empty bucket; otherwise it agrees with the corrected analysis |
| FinderEnhanced.EmptyBucketFails | data/destination_finder_enhanced.py:297-317 | with an empty temperature file for Veracruz, the analysis as written fails where the corrected one succeeds |
| FinderEnhanced.DestinationFinderEnhanced.constructor | data/destination_finder_enhanced.py:128-133 | the finder keeps its store |
| FinderEnhanced.DestinationFinderEnhanced.EvaluateCity | data/destination_finder_enhanced.py:164-233 | the per-station loop computes the station's specified score |
| FinderEnhanced.DestinationFinderEnhanced.FindDestinations | data/destination_finder_enhanced.py:135-242 | the station loop, filter and sort compute `FindDestinationsSpec` |
| FinderEnhanced.DestinationFinderEnhanced.VisitDetail | data/destination_finder_enhanced.py:292-324 | one iteration of the analysis loop keeps scores and details in step with the specification |
| FinderEnhanced.DestinationFinderEnhanced.AnalyzeSpecificDestination | data/destination_finder_enhanced.py:258-339 | the analysis loop computes `AnalyzeSpec` |
| FinderStrict.CityScoreAs | data/destination_finder.py:113-168 | a station's result carries its key and name and a score in [0, 100]; it meets the conditions exactly when every constraint has values; the score is the rounded mean of the shares of the constraints with values, and 0 when none has values |
| FinderStrict.Scores | data/destination_finder.py:110 | one result per station, in station order |
| FinderStrict.FindAs | data/destination_finder.py:87-177 | an unknown condition is an error with the source's message; otherwise the results are in non-increasing score order |
| FinderStrict.FindDestinationsAsWritten | data/destination_finder.py:87-177 | as written: an error exactly for an unknown condition, otherwise at most one result per station in non-increasing score order |
| FinderStrict.FindDestinationsSpec | data/destination_finder.py:87-177 | with every share in percent: an error exactly for an unknown condition, otherwise at most one result per station in non-increasing score order |
| FinderStrict.FindExactly | data/destination_finder.py:110-175 | a result is listed exactly when it is a station's score at or above the minimum; the list is a permutation of the kept results and stable on ties |
| FinderStrict.FractionSharesAtMostOne | data/destination_finder.py:144-153 | as written, a `less`/`greater` share is a fraction, at most 1 |
| FinderStrict.FractionScaleListsNothing | data/destination_finder.py:87-177 | as written, a condition without `between` lists no station at any minimum above 1, the default of 10 included |
| FinderStrict.FractionOnlyConditions | data/destination_finder.py:17-78 | five of the six strict conditions have no `between` constraint |
| FinderStrict.FullMatchEntry | data/destination_finder.py:144-159 | a constraint met in every year contributes the full scale |
| FinderStrict.FullMatchShares | data/destination_finder.py:126-162 | when every constraint contributes one entry of the same share, the loop records that share once per constraint |
| FinderStrict.FullMatchScore | data/destination_finder.py:144-168 | a station meeting every `less`/`greater` constraint in every year scores 1.0 as written and 100.0 in percent |
| FinderStrict.PercentScaleListsFullMatch | data/destination_finder.py:87-177 | with shares in percent, such a station is listed at every minimum up to 100 |
| FinderStrict.DestinationFinder.constructor | data/destination_finder.py:80-85 | the finder keeps its store |
| FinderStrict.DestinationFinder.EvaluateCity | data/destination_finder.py:113-168 | the per-station loop computes the station's score in percent |
| FinderStrict.DestinationFinder.FindDestinations | data/destination_finder.py:87-177 | the error check, station loop, filter and sort compute `FindDestinationsSpec` |

## Left out

- Reading the CSV files is left out: pandas parsing, `skiprows`, the timestamp column and file existence. Each present file arrives as a sequence of (month, value-or-missing) rows, and a file that is absent or fails to parse is missing from the input map. The `df` frame each variable also keeps, console output and the year range are not modelled.
- Floating point is left out. Values are exact reals, so there are no NaN, no infinities and no binary rounding artefacts. `round(x, 1)` is round-half-even on the exact value.
- `sqrt` and `exp` come from numpy and are not part of this model. They are a `MathLib` parameter whose soundness (`sqrt` non-negative and increasing, `exp` positive) is all the proofs use.
- Humidity.RelativeHumidity: requires a temperature other than -237.3 °C and a specific humidity other than -0.622. At those points the source divides by zero and numpy yields inf or nan.
- Humidity.RelativeHumidities: requires every pair to avoid those two points, for the same reason.
- Humidity.SpecificToRelativeHumidity: requires every pair to avoid those two points, for the same reason.
- Humidity.AnalyzeMonthlyData: requires every pair to avoid those two points when both series are present, for the same reason.
- Humidity.IntegrateHumidityWithProcessor: reports a pair at one of those two points as an error, where numpy would carry inf or nan into the report.
- The `pressure` parameter of `specific_to_relative_humidity` is fixed at 101325 Pa, the value every caller uses. The unused constant `Rv` is left out.
- `strftime('%B')` is left out: the month name is a parameter. Message wording is left out too: a message is its tier and the numbers it quotes.
- `datetime(2024, month, day)` in the integration functions is modelled as `ValidDate2024`, and an invalid date is a `Failure`. The target date enters the finders only through its month and day.
- The `day` argument of the queries and the `city_key`/`month` arguments that the wind, humidity and cloud analyzers accept and ignore are taken as any string and any integer and not used, as in the source.
- Precipitation.AnalyzeMonthlyData: takes the month as 1..12, so the `KeyError` that `self.days_in_month[month]` (data/precipitation_analyzer.py:108) raises for any other month is not modelled; the integration never reaches it, because the store's `.get(month)` has already given no values for such a month.
- `list.sort(key=..., reverse=True)` is modelled by its result, a stable descending insertion sort (`Ranking.SortDesc`). The in-place mutation of the list is not modelled.
- `get_all_conditions` returns the condition table, which is the constants `EnhancedConditions` and `StrictConditions`. Of the `CIUDADES_NASA` entries, only key, name and coordinates are modelled. `city_info`, icons and colours are left out.
- `VariableDetail.condition` holds the constraint's operator and bounds, not the source's whole condition dictionary.
- The legacy store's `load_all_csvs` is not modelled. Its constructor takes the loaded tables directly.
- The Streamlit `render_*` functions of components/metricas.py are not modelled. They are display code.
- `integrate_destination_finder` and `integrate_destination_finder_enhanced` only call the constructors.

## Findings

| source | as written | input that shows it | evidently intended | confidence | as-written member | corrected member |
|---|---|---|---|---|---|---|
| data/destination_finder_enhanced.py:297-317 | only `values is None` is skipped; an empty array reaches `get_statistics`, which returns None, and `stats['mean']` raises TypeError | a station whose temperature file has no January rows, queried for "nevado" in January | skip an empty series the way `find_destinations` does (`len(values) == 0`) | not executed | FinderEnhanced.AnalyzeSpecificDestinationAsWritten, FinderEnhanced.EmptyBucketFails | FinderEnhanced.AnalyzeSpec, FinderEnhanced.DestinationFinderEnhanced.AnalyzeSpecificDestination |
| data/destination_finder.py:144-153 | `less`/`greater` shares are left as fractions (not multiplied by 100), while `between` and `min_probability` are percentages | condition "lluvioso" with the default `min_probability=10`: every station scores at most 1.0, so nothing is listed | multiply by 100 as the enhanced finder does (lines 197-207 of data/destination_finder_enhanced.py) | not executed | FinderStrict.FindDestinationsAsWritten, FinderStrict.FractionScaleListsNothing | FinderStrict.FindDestinationsSpec, FinderStrict.PercentScaleListsFullMatch |
