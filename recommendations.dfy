/**
 * The recommendation endpoints: the guards and the advice text of
 * `generate_recommendation`, and the ownership checks of `save_recommendation` and
 * `get_recommendation_history`. The database is a store of farms and saved
 * recommendations; the weather forecast is the decoded document the fetch returned.
 */
module RecommendationsApi {
  import opened Results
  import opened PyJson

  /** The soil row of a farm; `ph` is kept as the text the f-string prints. */
  datatype SoilRecord = SoilRecord(ph: string, organicCarbon: real, sand: real, silt: real, clay: real)

  /** A row of the farms table with its (optional) soil row. */
  datatype Farm = Farm(
    id: int,
    name: string,
    latitude: real,
    longitude: real,
    ownerId: int,
    soilData: Option<SoilRecord>)

  /** A row of the recommendations table. */
  datatype Recommendation = Recommendation(id: int, farmId: int, recommendationText: string, createdAt: int)

  /** How a request fails: an `HTTPException`, or an uncaught Python exception (HTTP 500). */
  datatype Fault = HttpError(status: int, detail: string) | Internal(error: PyException)

  const FarmNotFound := "Farm not found"
  const FarmNotAuthorized := "Not authorized to access this farm"
  const SoilNotFound := "Soil data not found for this farm. Cannot generate recommendation."
  const FarmNotAccessible := "Farm not accessible"
  const HistoryNotAuthorized := "Not authorized"

  const RainExpected := "Rain is expected in the next 3 days. Consider delaying irrigation."
  const NoRainExpected := "No significant rain expected soon. Monitor soil moisture."
  const NoWeather := "Could not fetch weather data."

  /** The probability-of-precipitation threshold, 0.6. */
  const RainThreshold: real := 0.6

  /** `day.get("pop", 0) > 0.6` for one daily forecast entry. */
  function PopExceeds(day: Json): (r: Result<bool, PyException>)
    ensures !day.JObj? ==> r == Failure(AttributeError)
    ensures day.JObj? && "pop" in day.fields && day.fields["pop"] == JNull ==> r == Failure(TypeError)
  {
    if !day.JObj? then Failure(AttributeError)
    else
      match GetOr(day.fields, "pop", JNum(0.0))
      case JNum(x) => Success(x > RainThreshold)
      case JBool(b) => Success(b)  // True compares as 1 and False as 0
      case _ => Failure(TypeError)
  }

  /** `any(...)` over the days: stops at the first day above the threshold. */
  function AnyRain(days: seq<Json>): (r: Result<bool, PyException>)
    ensures r == Success(true) ==> exists i :: 0 <= i < |days| && PopExceeds(days[i]) == Success(true)
  {
    if days == [] then Success(false)
    else
      match PopExceeds(days[0])
      case Failure(e) => Failure(e)
      case Success(true) => Success(true)
      case Success(false) =>
        var rest := AnyRain(days[1..]);
        assert rest == Success(true) ==> exists i :: 1 <= i < |days| && PopExceeds(days[i]) == Success(true) by {
          if rest == Success(true) {
            var k :| 0 <= k < |days[1..]| && PopExceeds(days[1..][k]) == Success(true);
            assert PopExceeds(days[k + 1]) == Success(true);
          }
        }
        rest
  }

  /** `rain_coming` for a `daily` list: only its first three entries are looked at. */
  function RainComing(daily: seq<Json>): (r: Result<bool, PyException>)
    ensures r == Success(true) ==> exists i :: 0 <= i < |daily| && i < 3 && PopExceeds(daily[i]) == Success(true)
  {
    AnyRain(daily[..if |daily| < 3 then |daily| else 3])
  }

  /** Whether the forecast has a usable `daily` entry:
      `weather_data and weather_data.get("daily")`. */
  function HasDaily(weather: Option<Json>): (r: Result<bool, PyException>)
    ensures weather.None? ==> r == Success(false)
    ensures r == Success(true) ==>
      && weather.Some? && weather.value.JObj? && "daily" in weather.value.fields
      && Truthy(weather.value.fields["daily"])
  {
    if weather.None? || !Truthy(weather.value) then Success(false)
    else if !weather.value.JObj? then Failure(AttributeError)
    else
      var daily := Get(weather.value.fields, "daily");
      Success(daily.Some? && Truthy(daily.value))
  }

  /** The advice sentence for a forecast, or the exception computing it raises. */
  function WeatherAdvice(weather: Option<Json>): (r: Result<string, PyException>)
    ensures r.Success? ==> r.value == RainExpected || r.value == NoRainExpected || r.value == NoWeather
  {
    match HasDaily(weather)
    case Failure(e) => Failure(e)
    case Success(false) => Success(NoWeather)
    case Success(true) =>
      match weather.value.fields["daily"]
      case JArr(days) =>
        (match RainComing(days)
         case Failure(e) => Failure(e)
         case Success(rain) => Success(if rain then RainExpected else NoRainExpected))
      // A sliced string iterates as one-character strings, which have no `.get`.
      case JStr(_) => Failure(AttributeError)
      // A number or `True` cannot be subscripted (TypeError). Slicing a dictionary raises
      // TypeError before Python 3.12 and KeyError from 3.12 on; the model follows the former.
      case _ => Failure(TypeError)
  }

  /** The first line and the pH sentence of every generated text. */
  function Header(farm: Farm, soil: SoilRecord): string
  {
    "Analysis for " + farm.name + ":\n" + "- Soil pH is " + soil.ph + ". "
  }

  /** `generate_recommendation` for the farm the query found, the current user and the
      forecast `fetch_weather_forecast` returned. */
  function Recommend(farm: Option<Farm>, userId: int, weather: Option<Json>): (r: Result<string, Fault>)
    ensures r.Success? ==> farm.Some? && farm.value.ownerId == userId && farm.value.soilData.Some?
  {
    if farm.None? then Failure(HttpError(404, FarmNotFound))
    else if farm.value.ownerId != userId then Failure(HttpError(403, FarmNotAuthorized))
    else if farm.value.soilData.None? then Failure(HttpError(404, SoilNotFound))
    else
      match WeatherAdvice(weather)
      case Failure(e) => Failure(Internal(e))
      case Success(advice) => Success(Header(farm.value, farm.value.soilData.value) + advice)
  }

  /** A missing `pop` counts as 0; a numeric `pop` is compared strictly with 0.6. */
  lemma PopExceedsSpec(day: Json)
    requires day.JObj?
    ensures "pop" !in day.fields ==> PopExceeds(day) == Success(false)
    ensures "pop" in day.fields && day.fields["pop"].JNum? ==>
      PopExceeds(day) == Success(day.fields["pop"].n > 0.6)
  {
  }

  /** `any` is true exactly when some day is above the threshold and every earlier day was
      read without an exception; it is false exactly when every day was read and none is
      above the threshold. */
  lemma {:induction false} AnyRainSpec(days: seq<Json>)
    ensures AnyRain(days) == Success(true) <==>
      exists i :: && 0 <= i < |days|
                  && PopExceeds(days[i]) == Success(true)
                  && forall j :: 0 <= j < i ==> PopExceeds(days[j]) == Success(false)
    ensures AnyRain(days) == Success(false) <==>
      forall i :: 0 <= i < |days| ==> PopExceeds(days[i]) == Success(false)
  {
    if days != [] {
      var rest := days[1..];
      AnyRainSpec(rest);
      assert forall i :: 1 <= i < |days| ==> days[i] == rest[i - 1];
      if PopExceeds(days[0]) == Success(false) {
        if AnyRain(rest) == Success(true) {
          var i :| && 0 <= i < |rest|
                   && PopExceeds(rest[i]) == Success(true)
                   && forall j :: 0 <= j < i ==> PopExceeds(rest[j]) == Success(false);
          assert forall j :: 0 <= j < i + 1 ==> PopExceeds(days[j]) == Success(false) by {
            forall j | 0 <= j < i + 1
              ensures PopExceeds(days[j]) == Success(false)
            {
              if j > 0 {
                assert days[j] == rest[j - 1];
              }
            }
          }
          assert PopExceeds(days[i + 1]) == Success(true);
        }
        if exists i :: && 0 <= i < |days|
                       && PopExceeds(days[i]) == Success(true)
                       && forall j :: 0 <= j < i ==> PopExceeds(days[j]) == Success(false) {
          var i :| && 0 <= i < |days|
                   && PopExceeds(days[i]) == Success(true)
                   && forall j :: 0 <= j < i ==> PopExceeds(days[j]) == Success(false);
          assert i > 0;
          assert PopExceeds(rest[i - 1]) == Success(true);
        }
      }
    }
  }

  /** Days after the third never change the advice. */
  lemma LaterDaysIgnored(days: seq<Json>, extra: seq<Json>)
    requires |days| >= 3
    ensures RainComing(days + extra) == RainComing(days)
  {
    assert (days + extra)[..3] == days[..3];
  }

  /** The number a well-formed day's `pop` stands for; a missing `pop` is 0. */
  function Pop(day: Json): real
    requires day.JObj?
    requires "pop" !in day.fields || day.fields["pop"].JNum?
  {
    if "pop" in day.fields then day.fields["pop"].n else 0.0
  }

  /** A forecast entry whose `pop` is a number or absent. */
  predicate WellFormedDay(day: Json)
  {
    day.JObj? && ("pop" !in day.fields || day.fields["pop"].JNum?)
  }

  /** The rain rule: with a non-empty `daily` list whose first three entries are well
      formed, the advice says rain is expected exactly when one of those three entries has
      `pop` above 0.6, and otherwise says no rain is expected. */
  lemma RainRule(weather: Json, days: seq<Json>)
    requires weather.JObj? && "daily" in weather.fields && weather.fields["daily"] == JArr(days)
    requires days != []
    requires forall i :: 0 <= i < |days| && i < 3 ==> WellFormedDay(days[i])
    ensures WeatherAdvice(Some(weather))
      == Success(if exists i :: 0 <= i < |days| && i < 3 && WellFormedDay(days[i]) && Pop(days[i]) > RainThreshold
                 then RainExpected else NoRainExpected)
  {
    var first := days[..if |days| < 3 then |days| else 3];
    assert HasDaily(Some(weather)) == Success(true);
    assert WeatherAdvice(Some(weather)) ==
      match AnyRain(first)
      case Failure(e) => Failure(e)
      case Success(rain) => Success(if rain then RainExpected else NoRainExpected);
    AnyRainSpec(first);
    forall i | 0 <= i < |first|
      ensures PopExceeds(first[i]) == Success(Pop(days[i]) > RainThreshold)
    {
      assert first[i] == days[i];
    }
    if exists i :: 0 <= i < |days| && i < 3 && WellFormedDay(days[i]) && Pop(days[i]) > RainThreshold {
      var i :| 0 <= i < |days| && i < 3 && WellFormedDay(days[i]) && Pop(days[i]) > RainThreshold;
      var k := FirstRainyDay(first, i);
      assert AnyRain(first) == Success(true);
    } else {
      assert AnyRain(first) == Success(false);
    }
  }

  /** Some day no later than `i` is the first one above the threshold. */
  lemma {:induction false} FirstRainyDay(days: seq<Json>, i: nat) returns (k: nat)
    requires i < |days| && PopExceeds(days[i]) == Success(true)
    requires forall j :: 0 <= j < |days| ==> PopExceeds(days[j]).Success?
    ensures k <= i && PopExceeds(days[k]) == Success(true)
    ensures forall j :: 0 <= j < k ==> PopExceeds(days[j]) == Success(false)
    decreases i
  {
    if exists j :: 0 <= j < i && PopExceeds(days[j]) == Success(true) {
      var j :| 0 <= j < i && PopExceeds(days[j]) == Success(true);
      k := FirstRainyDay(days, j);
    } else {
      k := i;
    }
  }

  /** Without a forecast, with an empty or falsy forecast, or with a forecast object whose
      `daily` is missing or empty, the advice is "Could not fetch weather data.". */
  lemma NoWeatherAdvice(weather: Option<Json>)
    requires || weather.None?
             || !Truthy(weather.value)
             || (weather.value.JObj?
                 && ("daily" !in weather.value.fields || !Truthy(weather.value.fields["daily"])))
    ensures WeatherAdvice(weather) == Success(NoWeather)
  {
  }

  /** The guards run in the order farm missing (404), farm of another user (403), soil
      missing (404); a request passing all three fails only when reading the forecast
      raises. */
  lemma RecommendGuards(farm: Option<Farm>, userId: int, weather: Option<Json>)
    ensures var r := Recommend(farm, userId, weather);
      && (r == Failure(HttpError(404, FarmNotFound)) <==> farm.None?)
      && (r == Failure(HttpError(403, FarmNotAuthorized)) <==>
            farm.Some? && farm.value.ownerId != userId)
      && (r == Failure(HttpError(404, SoilNotFound)) <==>
            farm.Some? && farm.value.ownerId == userId && farm.value.soilData.None?)
      && (r.Success? <==>
            && farm.Some? && farm.value.ownerId == userId && farm.value.soilData.Some?
            && WeatherAdvice(weather).Success?)
  {
  }

  /** A generated text is the header naming the farm and its pH followed by exactly one of
      the three advice sentences. */
  lemma RecommendationText(farm: Option<Farm>, userId: int, weather: Option<Json>)
    requires Recommend(farm, userId, weather).Success?
    ensures var text := Recommend(farm, userId, weather).value;
      && farm.Some? && farm.value.soilData.Some?
      && exists advice :: && advice in {RainExpected, NoRainExpected, NoWeather}
                          && text == "Analysis for " + farm.value.name + ":\n- Soil pH is "
                                     + farm.value.soilData.value.ph + ". " + advice
  {
    var advice := WeatherAdvice(weather).value;
    assert advice in {RainExpected, NoRainExpected, NoWeather};
    assert "Analysis for " + farm.value.name + ":\n" + "- Soil pH is "
      == "Analysis for " + farm.value.name + ":\n- Soil pH is ";
  }

  /** The recommendations of `recs` whose farm exists and is owned by `userId`, in table
      order: the query joining recommendations to farms and filtering on the owner. */
  function OwnedRecommendations(recs: seq<Recommendation>, farms: map<int, Farm>, userId: int): (r: seq<Recommendation>)
    ensures forall k :: 0 <= k < |r| ==> r[k].farmId in farms && farms[r[k].farmId].ownerId == userId
  {
    if recs == [] then []
    else
      var rest := OwnedRecommendations(recs[..|recs| - 1], farms, userId);
      var rec := recs[|recs| - 1];
      if rec.farmId in farms && farms[rec.farmId].ownerId == userId then rest + [rec] else rest
  }

  /** The history holds exactly the recommendations on farms the user owns, never more
      rows than the table. */
  lemma {:induction false} OwnedRecommendationsSpec(recs: seq<Recommendation>, farms: map<int, Farm>, userId: int)
    ensures |OwnedRecommendations(recs, farms, userId)| <= |recs|
    ensures forall rec :: rec in OwnedRecommendations(recs, farms, userId) <==>
      rec in recs && rec.farmId in farms && farms[rec.farmId].ownerId == userId
    decreases |recs|
  {
    if recs != [] {
      var init := recs[..|recs| - 1];
      OwnedRecommendationsSpec(init, farms, userId);
      assert recs == init + [recs[|recs| - 1]];
    }
  }

  /** A recommendation saved on an owned farm appears last in the owner's history. */
  lemma SavedAppearsInHistory(recs: seq<Recommendation>, farms: map<int, Farm>, rec: Recommendation)
    requires rec.farmId in farms
    ensures OwnedRecommendations(recs + [rec], farms, farms[rec.farmId].ownerId)
      == OwnedRecommendations(recs, farms, farms[rec.farmId].ownerId) + [rec]
  {
    assert (recs + [rec])[..|recs|] == recs;
  }

  /** The farms and recommendations tables, as the endpoints see them. */
  class RecommendationStore {
    /** The farms table, by primary key. */
    var farms: map<int, Farm>
    /** The recommendations table, in insertion order. */
    var recommendations: seq<Recommendation>
    /** The next primary key the recommendations table hands out. */
    var nextId: int

    /** Farms are stored under their own id; recommendation ids increase, stay below
        `nextId`, and every recommendation refers to a stored farm. */
    ghost predicate Valid()
      reads this
    {
      && (forall id :: id in farms ==> farms[id].id == id)
      && (forall i, j :: 0 <= i < j < |recommendations| ==> recommendations[i].id < recommendations[j].id)
      && (forall i :: 0 <= i < |recommendations| ==> recommendations[i].id < nextId)
      && (forall i :: 0 <= i < |recommendations| ==> recommendations[i].farmId in farms)
    }

    constructor(farms: map<int, Farm>)
      requires forall id :: id in farms ==> farms[id].id == id
      ensures Valid()
      ensures this.farms == farms && recommendations == [] && nextId == 1
    {
      this.farms := farms;
      recommendations := [];
      nextId := 1;
    }

    /** `db.query(models.Farm).filter(models.Farm.id == farm_id).first()`. */
    function FarmById(farmId: int): (farm: Option<Farm>)
      reads this
      requires Valid()
      ensures farm.Some? <==> farmId in farms
      ensures farm.Some? ==> farm.value.id == farmId
    {
      if farmId in farms then Some(farms[farmId]) else None
    }

    /** `generate_recommendation`: the guards, then the text built by appending. */
    method GenerateRecommendation(farmId: int, userId: int, weather: Option<Json>)
      returns (r: Result<string, Fault>)
      requires Valid()
      ensures r == Recommend(FarmById(farmId), userId, weather)
    {
      var farm := FarmById(farmId);
      if farm.None? {
        return Failure(HttpError(404, FarmNotFound));
      }
      if farm.value.ownerId != userId {
        return Failure(HttpError(403, FarmNotAuthorized));
      }
      var soil := farm.value.soilData;
      if soil.None? {
        return Failure(HttpError(404, SoilNotFound));
      }
      var text := "Analysis for " + farm.value.name + ":\n";
      text := text + "- Soil pH is " + soil.value.ph + ". ";
      var hasDaily := HasDaily(weather);
      if hasDaily.Failure? {
        return Failure(Internal(hasDaily.error));
      }
      if hasDaily.value {
        var daily := weather.value.fields["daily"];
        if daily.JStr? {
          return Failure(Internal(AttributeError));
        } else if !daily.JArr? {
          return Failure(Internal(TypeError));
        }
        var rain := RainComing(daily.items);
        if rain.Failure? {
          return Failure(Internal(rain.error));
        }
        if rain.value {
          text := text + RainExpected;
        } else {
          text := text + NoRainExpected;
        }
      } else {
        text := text + NoWeather;
      }
      r := Success(text);
    }

    /** `save_recommendation`: refuses a missing farm or another user's farm with 403 and
        stores nothing; otherwise appends a row with a fresh id and the time `now`. */
    method SaveRecommendation(userId: int, farmId: int, text: string, now: int)
      returns (r: Result<Recommendation, Fault>)
      requires Valid()
      modifies this
      ensures Valid()
      ensures farms == old(farms)
      ensures r.Success? <==> farmId in farms && farms[farmId].ownerId == userId
      ensures r.Failure? ==>
        && r.error == HttpError(403, FarmNotAccessible)
        && recommendations == old(recommendations) && nextId == old(nextId)
      ensures r.Success? ==>
        && r.value == Recommendation(old(nextId), farmId, text, now)
        && recommendations == old(recommendations) + [r.value]
        && nextId == old(nextId) + 1
    {
      var farm := FarmById(farmId);
      if farm.None? || farm.value.ownerId != userId {
        return Failure(HttpError(403, FarmNotAccessible));
      }
      var rec := Recommendation(nextId, farmId, text, now);
      recommendations := recommendations + [rec];
      nextId := nextId + 1;
      r := Success(rec);
    }

    /** `get_recommendation_history`: 403 unless the caller asks for their own history;
        otherwise the recommendations on the farms they own. */
    method RecommendationHistory(currentUserId: int, userId: int)
      returns (r: Result<seq<Recommendation>, Fault>)
      requires Valid()
      ensures currentUserId != userId ==> r == Failure(HttpError(403, HistoryNotAuthorized))
      ensures currentUserId == userId ==> r == Success(OwnedRecommendations(recommendations, farms, userId))
    {
      if currentUserId != userId {
        return Failure(HttpError(403, HistoryNotAuthorized));
      }
      var result: seq<Recommendation> := [];
      for i := 0 to |recommendations|
        invariant result == OwnedRecommendations(recommendations[..i], farms, userId)
      {
        var rec := recommendations[i];
        assert recommendations[..i + 1][..i] == recommendations[..i];
        if rec.farmId in farms && farms[rec.farmId].ownerId == userId {
          result := result + [rec];
        }
      }
      assert recommendations[..|recommendations|] == recommendations;
      r := Success(result);
    }
  }
}
