/**
 * The decision rules of the weather agent (backend/agents/weather/agent.py):
 * the stub current sample, the stub forecast with its hour numbering, and the
 * favourability test.
 */
module WeatherAgent {
  import opened Wrappers
  import opened AppConstants
  import opened RainbowModels
  import RainbowAgent

  /** The calendar date every stub sample carries. */
  const StubDate: string := "2025-06-07"

  /**
   * analyze_rainbow_conditions: rain of at least 0.1 mm/h and at most 70% cloud cover.
   * An absent precipitation reads as 0 and an absent cloud cover as 100.
   */
  function AnalyzeRainbowConditions(weatherData: WeatherCondition): (favorable: bool)
    ensures favorable <==>
      && weatherData.precipitation.Some? && weatherData.precipitation.value >= MinPrecipitationRate
      && weatherData.cloudCover.Some? && weatherData.cloudCover.value <= MaxCloudCover
  {
    weatherData.precipitation.GetOr(0.0) >= MinPrecipitationRate
    && weatherData.cloudCover.GetOr(100.0) <= MaxCloudCover
  }

  /** get_current_weather: a fixed sample at noon, whatever the coordinates. */
  function GetCurrentWeather(latitude: real, longitude: real): (weather: WeatherCondition)
    ensures AnalyzeRainbowConditions(weather)
    ensures weather.timestamp == Some(Timestamp(StubDate, 12, 0))
  {
    StubSample(Timestamp(StubDate, 12, 0))
  }

  /** The stub reading ignores the coordinates. */
  lemma CurrentWeatherIgnoresCoordinates(lat1: real, lon1: real, lat2: real, lon2: real)
    ensures GetCurrentWeather(lat1, lon1) == GetCurrentWeather(lat2, lon2)
  {
  }

  /** The stub sample's readings, stamped with `at`. */
  function StubSample(at: Timestamp): WeatherCondition {
    WeatherCondition(Some(20.0), Some(75.0), Some(0.2), Some(40.0), Some(10.0), Some(180.0), Some(at), None)
  }

  /** The hour written into forecast sample `i`: `12 + i`, wrapped once past 24. */
  function ForecastHour(i: int): (hour: int)
    ensures 0 <= i < 36 ==> 0 <= hour < 24 && hour == (12 + i) % 24
    ensures i >= 36 ==> hour >= 24
  {
    if 12 + i < 24 then 12 + i else 12 + i - 24
  }

  /**
   * get_weather_forecast: `hours` copies of the stub sample (none for a negative
   * count), sample `i` stamped with hour ForecastHour(i) of the same date.
   */
  function GetWeatherForecast(latitude: real, longitude: real, hours: int): (forecast: seq<WeatherCondition>)
    ensures |forecast| == if hours > 0 then hours else 0
    ensures forall i :: 0 <= i < |forecast| ==>
      forecast[i].timestamp == Some(Timestamp(StubDate, ForecastHour(i), 0))
    ensures forall i :: 0 <= i < |forecast| ==>
      forecast[i].(timestamp := None) == GetCurrentWeather(latitude, longitude).(timestamp := None)
    ensures forall i :: 0 <= i < |forecast| ==> AnalyzeRainbowConditions(forecast[i])
  {
    seq(if hours > 0 then hours else 0, i => StubSample(Timestamp(StubDate, ForecastHour(i), 0)))
  }

  /** Any two forecast samples agree on every reading; only their timestamps differ. */
  lemma ForecastSamplesAgree(latitude: real, longitude: real, hours: int, i: int, j: int)
    requires 0 <= i < hours && 0 <= j < hours
    ensures var forecast := GetWeatherForecast(latitude, longitude, hours);
      forecast[i].(timestamp := None) == forecast[j].(timestamp := None)
      && (i != j && i < 24 && j < 24 ==> forecast[i].timestamp != forecast[j].timestamp)
  {
  }

  /**
   * The forecast is not in time order: the date never advances, so sample 12 is
   * stamped midnight of the day whose noon sample 0 is, and sample 36 hour 24.
   */
  lemma ForecastOutOfOrder(latitude: real, longitude: real, hours: int)
    requires hours > 12
    ensures var forecast := GetWeatherForecast(latitude, longitude, hours);
      && forecast[12].timestamp.value.date == forecast[0].timestamp.value.date
      && forecast[12].timestamp.value.hour == 0 < forecast[0].timestamp.value.hour
      && (hours > 36 ==> forecast[36].timestamp.value.hour == 24)
  {
  }

  /** Both thresholds are inclusive. */
  lemma ThresholdsInclusive(weatherData: WeatherCondition)
    requires weatherData.precipitation == Some(0.1) && weatherData.cloudCover == Some(70.0)
    ensures AnalyzeRainbowConditions(weatherData)
  {
  }

  /** An absent precipitation or cloud cover is never favourable. */
  lemma MissingFieldNeverFavorable(weatherData: WeatherCondition)
    requires weatherData.precipitation.None? || weatherData.cloudCover.None?
    ensures !AnalyzeRainbowConditions(weatherData)
  {
  }

  /** A favourable sample stays favourable with more rain and less cloud. */
  lemma FavorableMonotone(weatherData: WeatherCondition, precipitation: real, cloudCover: real)
    requires AnalyzeRainbowConditions(weatherData)
    requires precipitation >= weatherData.precipitation.GetOr(0.0)
    requires cloudCover <= weatherData.cloudCover.GetOr(100.0)
    ensures AnalyzeRainbowConditions(weatherData.(precipitation := Some(precipitation), cloudCover := Some(cloudCover)))
  {
  }

  /**
   * A favourable sample under a sun strictly between -10 and 50 degrees always gets
   * a positive rainbow probability, whatever its (possibly negative) cloud cover.
   */
  lemma FavorableWithUsableSunScores(weatherData: WeatherCondition, sunPosition: SunPosition)
    requires AnalyzeRainbowConditions(weatherData)
    requires -10.0 < sunPosition.elevation.GetOr(0.0) < 50.0
    ensures RainbowAgent.CalculateRainbowProbability(weatherData, sunPosition) > 0.0
  {
    var p, c := weatherData.precipitation.value, weatherData.cloudCover.value;
    var elevation := sunPosition.elevation.GetOr(0.0);
    var a := RainbowAgent.PrecipitationFactor(p);
    var b := RainbowAgent.ClearSkyFactor(c);
    var e := RainbowAgent.ElevationFactor(elevation);
    assert a > 0.0 && b > 0.0 && e > 0.0;
    var m := a * b * e;
    RainbowAgent.ProductSign(a, b, e, m);
    assert RainbowAgent.RawScore(p, c, elevation) == RainbowAgent.PeakProbability * m;
  }
}
