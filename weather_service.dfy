/**
 * The weather service (backend/services/weather_service.py): a registry of named
 * weather providers, updated in place, and placeholder readings.
 */
module WeatherServices {
  import opened Wrappers
  import opened RainbowModels
  import WeatherAgent
  import RainbowAgent

  /** The reading the service returns until a real provider is wired in. */
  const Placeholder: WeatherCondition :=
    WeatherCondition(Some(0.0), Some(0.0), Some(0.0), Some(0.0), Some(0.0), Some(0.0), None, Some("placeholder"))

  /** A provider's configuration is an opaque value of type `Config`. */
  class WeatherService<Config> {
    var weatherProviders: map<string, Config>

    /** A new service knows no provider. */
    constructor ()
      ensures weatherProviders == map[]
    {
      weatherProviders := map[];
    }

    /**
     * register_weather_provider: binds `providerName` to `providerConfig`, replacing
     * any earlier binding of that name, leaves every other name alone, and reports success.
     */
    method RegisterWeatherProvider(providerName: string, providerConfig: Config) returns (success: bool)
      modifies this
      ensures success
      ensures weatherProviders == old(weatherProviders)[providerName := providerConfig]
      ensures weatherProviders.Keys == old(weatherProviders).Keys + {providerName}
      ensures weatherProviders[providerName] == providerConfig
      ensures forall name :: name in old(weatherProviders) && name != providerName ==>
        weatherProviders[name] == old(weatherProviders)[name]
    {
      weatherProviders := weatherProviders[providerName := providerConfig];
      success := true;
    }

    /**
     * get_current_weather: the all-zero placeholder, whatever the location and the
     * provider asked for; it is never favourable and never scores.
     */
    function GetCurrentWeather(location: Location, provider: Option<string>): (weather: WeatherCondition)
      ensures weather.status == Some("placeholder")
      ensures !WeatherAgent.AnalyzeRainbowConditions(weather)
      ensures forall sunPosition :: RainbowAgent.CalculateRainbowProbability(weather, sunPosition) == 0.0
    {
      Placeholder
    }

    /** get_weather_forecast: `hours` current readings, none for a negative count. */
    function GetWeatherForecast(location: Location, hours: int): (forecast: seq<WeatherCondition>)
      ensures |forecast| == if hours > 0 then hours else 0
      ensures forall i :: 0 <= i < |forecast| ==> forecast[i] == GetCurrentWeather(location, None)
      ensures forall i :: 0 <= i < |forecast| ==> !WeatherAgent.AnalyzeRainbowConditions(forecast[i])
    {
      seq(if hours > 0 then hours else 0, _ => GetCurrentWeather(location, None))
    }
  }

  /** The placeholder reading ignores the location and the provider asked for. */
  lemma CurrentWeatherIgnoresArguments<Config>(
    service: WeatherService<Config>, l1: Location, l2: Location, p1: Option<string>, p2: Option<string>)
    ensures service.GetCurrentWeather(l1, p1) == service.GetCurrentWeather(l2, p2)
  {
  }
}
