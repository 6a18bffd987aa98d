/**
 * The records exchanged between the agents (shared/models/rainbow.py).
 * The agents receive these as dictionaries and read them with `.get(key, default)`,
 * so every field some agent reads that way is an `Option`: `None` is an absent key.
 */
module RainbowModels {
  import opened Wrappers

  /** An instant written as "<date>T<hour>:<minute>:00Z"; the hour is kept as a number. */
  datatype Timestamp = Timestamp(date: string, hour: int, minute: int)

  datatype Location = Location(
    latitude: Option<real>,
    longitude: Option<real>,
    altitude: Option<real>,
    name: Option<string>)

  /** Azimuth in degrees from north, elevation in degrees above the horizon. */
  datatype SunPosition = SunPosition(
    azimuth: Option<real>,
    elevation: Option<real>,
    timestamp: Option<Timestamp>)

  /**
   * One weather sample: degrees Celsius, percent humidity, mm/h of rain, percent
   * cloud cover, km/h and degrees of wind. The weather service's placeholder also
   * carries a `status` key, which no dataclass field holds.
   */
  datatype WeatherCondition = WeatherCondition(
    temperature: Option<real>,
    humidity: Option<real>,
    precipitation: Option<real>,
    cloudCover: Option<real>,
    windSpeed: Option<real>,
    windDirection: Option<real>,
    timestamp: Option<Timestamp>,
    status: Option<string>)

  datatype RainbowPrediction = RainbowPrediction(
    location: Location,
    probability: Option<real>,
    predictedTimeStart: Timestamp,
    predictedTimeEnd: Timestamp,
    viewingLocations: seq<Location>,
    sunPosition: SunPosition,
    weatherCondition: WeatherCondition,
    rainbowType: string,
    intensity: real,
    arcCoordinates: Option<seq<Location>>)

  datatype UserPreferences = UserPreferences(
    minProbability: Option<real>,
    maxDistanceKm: Option<real>,
    notificationEnabled: Option<bool>,
    favoriteLocations: Option<seq<Location>>,
    notificationLeadTimeMinutes: Option<int>)

  /** The field defaults of the `UserPreferences` dataclass; its favourite list defaults to None. */
  function UserPreferencesDefaults(): UserPreferences {
    UserPreferences(Some(0.5), Some(10.0), Some(true), None, Some(30))
  }
}
