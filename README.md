# Agri-advisor backend: a verified model of the recommendation core

This project models in Dafny the three parts of the agri-advisor FastAPI backend that carry
decision logic, and proves what they promise.

- **`PredictionService`** (`MlService`, `ml_service.dfy`):
  - the top-N crop selection from the classifier's probability row (`argsort`, last `n`,
    reversed);
  - the classifier's input row with its N/P/K placeholders;
  - the yield model's one-hot row, built cell by cell;
  - the sustainability and cost lookups;
  - the profit arithmetic.

  The two scalers, the classifier and the regressor are opaque functions held in an
  immutable `Artifacts` value. The loaded artifacts are only read after start-up.
- **The SoilGrids response decoder of `fetch_soil_data`** (`SoilGrids`, `data_ingestion.dfy`).
  - The decoded JSON document is the input. Every Python exception raised while walking it
    ends the call with `None`, as the `except Exception` clause does.
  - Layer names are mapped back through `SOIL_PROPERTIES`.
  - pH and organic carbon are divided by ten; textures are kept as they are.
  - A result exists only when all five properties were stored.
- **The recommendation endpoints** (`RecommendationsApi`, `recommendations.dfy`):
  - the 404/403 guard order of `generate_recommendation`, its rain rule and its
    three-way advice text;
  - the ownership checks of `save_recommendation` and `get_recommendation_history`.

  The farms and recommendations tables are fields of a `RecommendationStore` object.
  Saving appends to the recommendations table in place.

Shared pieces:
- `results.dfy` holds `Option`/`Result`.
- `pyjson.dfy` holds the decoded-JSON datatype and Python's truthiness and `dict.get`.

The code that updates values step by step is modelled by methods, each proved equal to a
specification function:
- the scoring loop, `ScoreCrops` (called by `GetFinalRecommendations`);
- the cell-by-cell fill of the yield row, `BuildYieldRow`;
- the layer loop, `FetchSoilData`;
- the text built by `+=` appends, `GenerateRecommendation`;
- the history query over the stored table, `RecommendationHistory`.

The properties are lemmas about those functions.

Where the docstring and the code disagree, the model follows the code.
`get_final_recommendations` calls its result "final ranked recommendations"
(app/services/ml_service.py:51), yet nothing sorts the list. It keeps the order of the
classifier's top five, and so does the model: `ScoreAllEntries` pins entry `k` to the
`k`-th selected crop.

## Model

| member | source | states |
|---|---|---|
| MlService.RecommenderFeatures | app/services/ml_service.py:27-35 | The classifier row has seven columns in the order N, P, K, temperature, humidity, ph, rainfall. N, P and K fall back to 100, 50 and 50 when `topsoil_nitrogen`, `P_placeholder` or `K_placeholder` is absent. The other four hold the live value when present and are missing otherwise. |
| MlService.InsertByProbability | app/services/ml_service.py:44 | Inserting an index into an ascending argsort keeps it ascending. It adds exactly that index and keeps the indices distinct. |
| MlService.ArgSortPrefix | app/services/ml_service.py:44 | `argsort` of a probability row lists as many indices as the row has entries, each in range, in ascending probability. |
| MlService.ArgSortPrefixPermutation | app/services/ml_service.py:44 | That list is a permutation: its indices are distinct and are exactly `0 .. len-1`. |
| MlService.LastNReversed | app/services/ml_service.py:44 | `s[-n:][::-1]` keeps `min(n, len)` elements, or all of them when `n == 0` since `-0 == 0`. Its position `i` is position `len-1-i` of `s`. |
| MlService.TopIndices | app/services/ml_service.py:44 | The selected indices number `min(n, len)` (all of them for `n == 0`) and are in range. Position `i` of the selection is position `len-1-i` of the ascending argsort. |
| MlService.LastOfArgSortSelected | app/services/ml_service.py:44 | Every index among the last `min(n, len)` of the argsort is selected. |
| MlService.TopIndicesDescending | app/services/ml_service.py:44 | Two positions of the selection hold different indices, the earlier one with probability no lower than the later one. |
| MlService.TopIndicesDominate | app/services/ml_service.py:44 | A selected index is at least as probable as every index left out. |
| MlService.TopIndicesSelectHighest | app/services/ml_service.py:44 | The selected indices number `min(n, len)`. They are in range, distinct and in non-increasing probability, and none is less probable than an index left out. |
| MlService.IndexOfDistinct | app/services/ml_service.py:45 | With distinct `classes_`, a label's position is the index it was read from, so a label's probability is well defined. |
| MlService.TopRecommendations | app/services/ml_service.py:22-47 | The selection has `min(n, len(classes_))` labels, all of them members of `classes_`. |
| MlService.TopRecommendationsSelectHighest | app/services/ml_service.py:22-47 | `_get_top_recommendations` returns `min(n, len(classes_))` labels (all of them for `n == 0`). They are distinct members of `classes_`, in non-increasing probability, and each is at least as probable as every label left out. The order among equal probabilities is left open. |
| MlService.DefaultSelectionSize | app/services/ml_service.py:53 | Called with the default `n=5`, the selection has `min(5, len(classes_))` labels. |
| MlService.YieldRow | app/services/ml_service.py:61-70 | The yield row has one cell per schema column, in schema order. A column named by a live feature holds the live value, so a live `label_<crop>` overrides the one-hot 1. Otherwise `label_<crop>` is 1 and every other column is 0. A schema without that column is not an error. |
| MlService.BuildYieldRow | app/services/ml_service.py:61-70 | Zero-filling the row, setting the one-hot column, then copying the live features cell by cell gives exactly `YieldRow`. |
| MlService.Capitalize | app/services/ml_service.py:85 | The capitalised name has the label's length and differs from it only in letter case. Its first character is not lower-case and no later character is upper-case. |
| MlService.CapitalizeIdempotent | app/services/ml_service.py:85 | Capitalising an already capitalised name changes nothing. |
| MlService.MarketPrice | app/services/ml_service.py:57 | The price is `avg_modal_price` when the live features have it, and 2500 otherwise. |
| MlService.CultivationCost | app/services/ml_service.py:78 | The cost is the table's entry for the crop, and 0 for a crop missing from the table. |
| MlService.PredictedYieldReadsSchemaColumns | app/services/ml_service.py:68-74 | Only the schema's columns reach the regressor: live features that agree on every schema column give the same predicted yield. |
| MlService.ScoreCrop | app/services/ml_service.py:61-89 | One crop fails exactly when it has no sustainability score, and then with that crop named. |
| MlService.ScoreAll | app/services/ml_service.py:59-91 | A successful loop has one entry per crop. |
| MlService.ScoreAllSpec | app/services/ml_service.py:59-91 | The scoring loop succeeds exactly when every crop has a sustainability score, and then gives one entry per crop in crop order. Otherwise it fails with the first crop that lacks a score and returns no partial list. |
| MlService.ScoreAllFailedPrefix | app/services/ml_service.py:77 | Once a prefix of the crops has failed, the whole loop's result is that failure. |
| MlService.ScoreAllEntries | app/services/ml_service.py:57-89 | On success, entry `k` belongs to the `k`-th crop. It has the capitalised name, the yield the regressor forecasts from that crop's yield row, that crop's sustainability score, and profit = predicted yield × price − cost, where a crop missing from the cost table costs 0. There is no re-sort by profit. |
| MlService.FinalRecommendationsFailure | app/services/ml_service.py:77-78 | `get_final_recommendations` fails exactly when one of the selected crops has no sustainability score. A missing cultivation cost never fails. |
| MlService.FinalRecommendations | app/services/ml_service.py:49-91 | A successful final list has `min(5, len(classes_))` entries. |
| MlService.ScoreCropFields | app/services/ml_service.py:77-89 | A crop that scores has a sustainability score. Its entry holds the capitalised name, the yield forecast from the crop's yield row, that score, and profit = predicted yield × price − cost. |
| MlService.ScoreCrops | app/services/ml_service.py:59-91 | The loop, which builds the yield row, predicts, looks up, computes profit and appends, computes exactly `ScoreAll`. It stops at the first crop without a sustainability score. |
| MlService.GetFinalRecommendations | app/services/ml_service.py:49-91 | Scoring the top five crops at price `avg_modal_price`, or 2500 when absent, computes exactly `FinalRecommendations`. |
| SoilGrids.ReverseLookup | app/services/data_ingestion.py:37 | The `next(...)` lookup finds a key exactly when some table entry's SoilGrids name equals the layer name, and the key it returns is that entry's. |
| SoilGrids.LocalKeyMapsBack | app/services/data_ingestion.py:35-39 | `phh2o` maps to ph, `soc` to organic_carbon, and sand, silt and clay to themselves. Every other name, or a missing name, maps to nothing, so that layer is ignored. |
| SoilGrids.LayerMean | app/services/data_ingestion.py:41 | A layer without `depths` yields no value, and an empty `depths` list raises IndexError. When the first depth has a `values` object, the result is its `mean`, or no value when the mean is missing or null. A value that is found is never null. |
| SoilGrids.StoredValue | app/services/data_ingestion.py:46-51 | sand, silt and clay are stored unchanged. pH and organic carbon are stored as value/10, so stored × 10 is the original, and a non-numeric value raises. |
| SoilGrids.FirstElement | app/services/data_ingestion.py:41 | `[0]` succeeds exactly on a non-empty list or string, and on a list gives its first element. An empty list raises IndexError. |
| SoilGrids.ParseLayer | app/services/data_ingestion.py:34-51 | A layer stores only under one of the five keys, namely the key its name maps back to. A layer whose name maps to no key is skipped. |
| SoilGrids.ParseLayerOutcome | app/services/data_ingestion.py:34-51 | A layer that is not an object raises AttributeError. A stored value is the layer's mean converted by `StoredValue`. A missing or null mean is skipped. A layer whose name maps to a key raises whatever reading its mean raises. |
| SoilGrids.KnownLayerStores | app/services/data_ingestion.py:39-51 | A layer whose name maps to a key and whose mean is present stores that mean converted for the key, or raises what the conversion raises. |
| SoilGrids.WellFormedLayerStores | app/services/data_ingestion.py:34-51 | A layer in SoilGrids' shape, one depth with a numeric mean `x`, stores `x` under a texture key and `x / 10` under ph or organic_carbon. |
| SoilGrids.ParseLayers | app/services/data_ingestion.py:33-51 | The keys of `parsed_data` are always among ph, organic_carbon, sand, silt, clay. |
| SoilGrids.RawLayers | app/services/data_ingestion.py:31 | A response that is not an object raises. An object without `properties` gives no layers. A `properties` object whose `layers` is a list gives exactly that list to the loop. |
| SoilGrids.ParseSoilResponse | app/services/data_ingestion.py:31-53 | A result has exactly the keys ph, organic_carbon, sand, silt, clay. |
| SoilGrids.SoilResultKeys | app/services/data_ingestion.py:53 | A result exists exactly when no exception escaped and all five keys were stored. It then has exactly the keys ph, organic_carbon, sand, silt, clay. |
| SoilGrids.NoRaiseParses | app/services/data_ingestion.py:33-51 | When no layer raises, the loop runs to its end and yields `parsed_data`. |
| SoilGrids.StoredKeyKept | app/services/data_ingestion.py:49-51 | A key some layer stored is still in `parsed_data` at the end. A later layer may overwrite the value but never removes the key. |
| SoilGrids.CompleteResponseGivesResult | app/services/data_ingestion.py:31-53 | A response whose layers all read without an exception and together store all five properties decodes to a result, the `parsed_data` the loop built. |
| SoilGrids.RaisingLayerAborts | app/services/data_ingestion.py:41-60 | A layer that raises anywhere in the list, such as one with an empty `depths` list, makes the result `None`. |
| SoilGrids.EmptyDepthsGivesNone | app/services/data_ingestion.py:41-60 | A layer with an empty `depths` list makes the result `None` when its name maps to a key, and is skipped otherwise. |
| SoilGrids.LaterLayerWins | app/services/data_ingestion.py:49-51 | When several layers store the same key, the last of them gives the stored value. |
| SoilGrids.StoredKeysHaveLayers | app/services/data_ingestion.py:33-51 | Every stored key and value comes from some layer of the response. |
| SoilGrids.MissingPropertyGivesNone | app/services/data_ingestion.py:41-53 | When no layer stores some property (missing layer, unknown name, missing mean), the result is `None`. |
| SoilGrids.MissingSectionGivesNone | app/services/data_ingestion.py:31-53 | A response without `properties`, or whose `properties` has no `layers`, gives `None`. |
| SoilGrids.PhLayerExample | app/services/data_ingestion.py:44-51 | A pH layer reporting 72 stores 7.2. |
| SoilGrids.SandLayerExample | app/services/data_ingestion.py:47-49 | A sand layer reporting 450 stores 450. |
| SoilGrids.FetchSoilData | app/services/data_ingestion.py:31-60 | The loop that fills `parsed_data` in place, returning `None` on any exception, computes exactly `ParseSoilResponse`. |
| RecommendationsApi.PopExceeds | app/api/recommendations.py:46 | A day that is not an object raises AttributeError. A `pop` stored as null raises TypeError, because `None > 0.6` fails. |
| RecommendationsApi.AnyRain | app/api/recommendations.py:46 | `any` is true only when some day has `pop` above 0.6. |
| RecommendationsApi.RainComing | app/api/recommendations.py:46 | Rain is coming only when one of the first three days has `pop` above 0.6. |
| RecommendationsApi.HasDaily | app/api/recommendations.py:44 | No forecast means no `daily`. A usable `daily` is a truthy entry of a forecast object. |
| RecommendationsApi.WeatherAdvice | app/api/recommendations.py:44-52 | The advice, when no exception is raised, is one of the three sentences. |
| RecommendationsApi.Recommend | app/api/recommendations.py:19-54 | A text is generated only for an existing farm owned by the user that has soil data. |
| RecommendationsApi.PopExceedsSpec | app/api/recommendations.py:46 | A day without `pop` counts as 0, so it is not rainy. A numeric `pop` is rainy exactly when it is strictly above 0.6. |
| RecommendationsApi.AnyRainSpec | app/api/recommendations.py:46 | `any` is true exactly when some day is rainy and every earlier day was read without error. It is false exactly when every day was read and none is rainy. |
| RecommendationsApi.LaterDaysIgnored | app/api/recommendations.py:46 | Days after the third never change whether rain is coming. |
| RecommendationsApi.FirstRainyDay | app/api/recommendations.py:46 | When all days read without error, a rainy day has a first rainy day at or before it. |
| RecommendationsApi.RainRule | app/api/recommendations.py:44-50 | With a non-empty `daily` list of well-formed days, the advice is the rain sentence exactly when one of the first three days has `pop` above 0.6. Otherwise it is the no-rain sentence. |
| RecommendationsApi.NoWeatherAdvice | app/api/recommendations.py:44-52 | With no forecast, an empty forecast, or a missing or empty `daily`, the advice is "Could not fetch weather data.". |
| RecommendationsApi.RecommendGuards | app/api/recommendations.py:19-30 | The guards run in order: missing farm gives 404, another user's farm gives 403, missing soil data gives 404. Each error arises exactly in its case. A request passing them fails only if reading the forecast raises. |
| RecommendationsApi.RecommendationText | app/api/recommendations.py:41-52 | A generated text is "Analysis for {name}:\n- Soil pH is {ph}. " followed by exactly one of the three advice sentences. |
| RecommendationsApi.OwnedRecommendations | app/api/recommendations.py:83-88 | Every recommendation in the history is on a stored farm owned by the user. |
| RecommendationsApi.OwnedRecommendationsSpec | app/api/recommendations.py:83-88 | The history query returns exactly the stored recommendations whose farm exists and is owned by the user, never more rows than the table. |
| RecommendationsApi.SavedAppearsInHistory | app/api/recommendations.py:66-88 | A recommendation saved on a farm appears, last, in its owner's history. |
| RecommendationsApi.RecommendationStore.FarmById | app/api/recommendations.py:62 | The farm query finds a farm exactly when the id is stored, and it is the farm with that id. |
| RecommendationsApi.RecommendationStore.GenerateRecommendation | app/api/recommendations.py:14-54 | The guards, then the text built by appending, compute exactly `Recommend` on the queried farm. |
| RecommendationsApi.RecommendationStore.SaveRecommendation | app/api/recommendations.py:56-70 | Saving succeeds exactly when the farm exists and belongs to the user. Otherwise it answers 403 "Farm not accessible" and stores nothing. On success one row is appended with a fresh id. Store invariants are kept: increasing ids, and every recommendation on a stored farm. |
| RecommendationsApi.RecommendationStore.RecommendationHistory | app/api/recommendations.py:73-89 | The history answers 403 "Not authorized" unless the caller asks for their own id. Otherwise it returns exactly `OwnedRecommendations` of the table. |

## Left out

- The scalers, the classifier and the regressor: joblib loading and sklearn numerics are
  opaque functions of their inputs. The model only assumes distinct class labels and one
  probability per label.
- Rounding of yield, score and profit to two decimals, and floating-point arithmetic in
  general: the model computes over exact reals. That includes the comparison `pop > 0.6`.
- The module-level service singleton and the printing of load and error messages.
- `MlService.TopRecommendations`: fixes one order among equal probabilities, that of a
  stable insertion argsort. Its contracts state only what holds for every order, because
  numpy's default `argsort` is not stable.
- `MlService.TopRecommendations`: the classifier and its scaler are assumed never to raise.
  The source hands that scaler a missing value when `avg_temp_celsius`,
  `avg_humidity_percent`, `topsoil_phh2o` or `total_rainfall_mm` is absent
  (app/services/ml_service.py:31-34). What sklearn then does is not modelled.
- `MlService.PredictedYield`: the regressor and its scaler are assumed never to raise.
- `MlService.MarketPrice`: live feature values are numbers (`LiveFeatures` maps names to
  reals). A live `avg_modal_price` of `None` would make the profit line raise TypeError
  (app/services/ml_service.py:81); that case is not modelled.
- `MlService.Capitalize`: models `str.capitalize` for ASCII letters only. Other characters
  are left unchanged.
- The `n` argument of `_get_top_recommendations` is a natural number. Negative `n` is never
  passed by the code.
- The HTTP requests of `fetch_soil_data` and `fetch_weather_forecast`: URLs, timeouts,
  status checks and the API key. The soil decoder takes the decoded response. The advice
  takes the forecast the fetch returned (`None` or a document). An exception escaping
  that fetch is not modelled.
- `SoilGrids.RawLayers`: iterating a non-empty dictionary or string of layers is modelled
  as an immediate `AttributeError`. That is what its first element causes; the order of
  dictionary keys is not represented.
- `RecommendationsApi.WeatherAdvice`: slicing a dictionary-valued `daily` raises TypeError
  before Python 3.12 and KeyError from 3.12 on. The model raises TypeError.
- The text form of the pH value in the advice: `SoilRecord.ph` is the already formatted
  string.
- Database sessions, commits and refreshes. Tables are a map and a sequence. The
  history is returned in table order, although the query has no ORDER BY.
  `created_at` is the `now` argument of `SaveRecommendation`.
- Authentication (`get_current_user`, app/api/auth.py), the farm CRUD routes, the chatbot
  echo, the market-data job, configuration and the ORM/Pydantic declarations. Only their
  field lists inform the datatypes.
