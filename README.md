# Rainbow Finder decision rules in Dafny

Rainbow Finder predicts when and where a rainbow can be seen and tells interested
users. Its backend is a set of LLM "agents" whose tools are small Python lambdas,
plus a weather service. This project models the rules inside those tools and the
service:

- the **rainbow probability score**: a clamped product of a rain factor, a clear-sky
  factor and a sun-elevation factor;
- the **viewing-location rule**: two fixed offsets from the centre;
- the **weather favourability test** against the thresholds 0.1 mm/h and 70% cloud
  cover, and the stub current reading and forecast of the weather agent;
- the **notification decision** (switch on and probability at or above the user's floor)
  and the scheduling receipt;
- the **preference filter** over a list of predictions, and the stored preferences;
- the **weather service**: a provider registry updated in place, and placeholder readings.

Every tool reads its dictionary arguments with `.get(key, default)`. The records of
`shared/models/rainbow.py` are datatypes, and every field that some tool reads with
`.get` is an `Option` (`None` is an absent key); each rule applies the source's default
for an absent field. The other fields of `RainbowPrediction` (its location, time window,
viewing points, sun position, weather sample, rainbow type and intensity) are plain
fields. Numbers are exact `real`s. The constants of `shared/constants/app_constants.py`
are `const`s in module `AppConstants`.

Files, one module each: `wrappers.dfy` (Option), `app_constants.dfy`,
`rainbow_models.dfy` (the records), `rainbow_agent.dfy`, `weather_agent.dfy`,
`notification_agent.dfy`, `user_agent.dfy`, `weather_service.dfy`.

The pure tools are functions with lemmas about them. The service's registry is a
`map` field of class `WeatherServices.WeatherService`, and registering is a method
that `modifies` it.

The intended behaviour of the system and its code differ in several places. The
model follows the code:

- Intended: the elevation factor's "zero or negative contributions [are] clamped to 0".
  The code clamps none of the three factors on its own. It clamps only the final
  product to [0, 1], and that clamp does hold for every input (`Score`). Two negative
  factors can therefore multiply to a positive score: rain of -1 mm/h under 200% cloud
  at a 20 degree sun scores 0.8 (`OutOfRangeInputsCanScore`).
- Intended: rain of 0.5 mm/h, 20% cloud and a 20 degree sun should "land in the
  upper-middle band (e.g. >0.5)". The code gives 0.32 (`WorkedExample`).
- Intended: "less cloud is strictly better". In the code, with rain >= 0 and cloud in
  [0, 100], this holds only while the rain and the elevation factor are positive
  (`CloudStrictlyWorse`). Under the same range, without rain or with the sun at or
  beyond -10 or 50 degrees the score is 0 whatever the cloud (`PositiveIff`). So in
  that range the score is in general only non-increasing in cloud cover
  (`AntitoneInCloudCover`).
- Intended: "no shared mutable state". The weather service keeps a mutable dictionary of
  providers on the service object, and so does the model.
- Intended: rainbows need a sun at "≤ ~42°" elevation. The code's elevation factor is
  positive up to 50 degrees, and `MAX_SUN_ELEVATION` (42) is imported by the rainbow
  agent but never used (`PositiveIff`).
- Intended: a forecast is "an ordered sequence of samples spanning future instants
  (chronological order is significant)". The weather agent's stub forecast keeps one
  date and wraps only the hour. Sample 12 is therefore stamped midnight of the same day
  as sample 0's noon, earlier than sample 0, and sample 36 is stamped hour 24
  (`ForecastOutOfOrder`).

## Model

| member | source | states |
|---|---|---|
| `RainbowAgent.Clamp01` | rainbow-finder/backend/agents/rainbow/agent.py:72-84 | the clamp lands in [0, 1], is the identity inside it, and sends values below 0 to 0 and above 1 to 1 |
| `RainbowAgent.Score` | rainbow-finder/backend/agents/rainbow/agent.py:72-84 | for every real rain rate, cloud cover and elevation the probability lies in [0, 1] |
| `RainbowAgent.CalculateRainbowProbability` | rainbow-finder/backend/agents/rainbow/agent.py:71-86 | the probability read from a weather and a sun record lies in [0, 1]; a record without precipitation scores 0 |
| `RainbowAgent.NoRainNoRainbow` | rainbow-finder/backend/agents/rainbow/agent.py:79 | zero rain gives probability exactly 0, whatever the cloud cover and the elevation |
| `RainbowAgent.Saturation` | rainbow-finder/backend/agents/rainbow/agent.py:79 | any rain rate of at least 1.0 mm/h scores the same as exactly 1.0 mm/h |
| `RainbowAgent.ElevationSymmetry` | rainbow-finder/backend/agents/rainbow/agent.py:81 | elevations 20+d and 20-d give the same probability |
| `RainbowAgent.PositiveIff` | rainbow-finder/backend/agents/rainbow/agent.py:79-81 | with rain >= 0 and cloud in [0, 100], the probability is positive iff rain > 0, cloud < 100 and -10 < elevation < 50 |
| `RainbowAgent.ZeroOutsideElevationBand` | rainbow-finder/backend/agents/rainbow/agent.py:80-81 | with rain >= 0 and cloud in [0, 100], elevation >= 50 or <= -10, or cloud 100, gives probability 0 |
| `RainbowAgent.AtMostPeak` | rainbow-finder/backend/agents/rainbow/agent.py:79-81 | with rain >= 0 and cloud in [0, 100], the probability is at most 0.8 |
| `RainbowAgent.PeakIff` | rainbow-finder/backend/agents/rainbow/agent.py:79-81 | with rain >= 0 and cloud in [0, 100], the probability is exactly 0.8 iff rain >= 1.0, cloud 0 and elevation 20 |
| `RainbowAgent.MonotoneInPrecipitation` | rainbow-finder/backend/agents/rainbow/agent.py:79 | with rain >= 0 and cloud in [0, 100], more rain never lowers the probability |
| `RainbowAgent.AntitoneInCloudCover` | rainbow-finder/backend/agents/rainbow/agent.py:80 | with rain >= 0 and cloud in [0, 100], more cloud never raises the probability |
| `RainbowAgent.CloudStrictlyWorse` | rainbow-finder/backend/agents/rainbow/agent.py:79-81 | with rain > 0, cloud in [0, 100] and elevation strictly between -10 and 50, more cloud strictly lowers the probability |
| `RainbowAgent.WorkedExample` | rainbow-finder/backend/agents/rainbow/agent.py:79-81 | rain 0.5, cloud 20, elevation 20 scores 0.32 |
| `RainbowAgent.OutOfRangeInputsCanScore` | rainbow-finder/backend/agents/rainbow/agent.py:72-84 | only the product is clamped: rain -1 under cloud 200 at elevation 20 scores 0.8 |
| `RainbowAgent.MissingFieldsReadAsZero` | rainbow-finder/backend/agents/rainbow/agent.py:79-81 | an absent cloud cover and an absent elevation score as 0 each |
| `RainbowAgent.DetermineViewingLocations` | rainbow-finder/backend/agents/rainbow/agent.py:109-123 | exactly two distinct points: the first 0.01 north and 0.01 east of the centre, the second 0.01 south and 0.02 east; absent coordinates read as 0 |
| `RainbowAgent.ViewingLocationsIgnoreSunAndRadius` | rainbow-finder/backend/agents/rainbow/agent.py:109-123 | the points do not depend on the sun position or the radius |
| `WeatherAgent.AnalyzeRainbowConditions` | rainbow-finder/backend/agents/weather/agent.py:114-120 | favourable iff a precipitation is present and >= 0.1 and a cloud cover is present and <= 70 |
| `WeatherAgent.ThresholdsInclusive` | rainbow-finder/backend/agents/weather/agent.py:116-117 | precipitation exactly 0.1 with cloud exactly 70 is favourable |
| `WeatherAgent.MissingFieldNeverFavorable` | rainbow-finder/backend/agents/weather/agent.py:116-117 | an absent precipitation (read as 0) or an absent cloud cover (read as 100) is never favourable |
| `WeatherAgent.FavorableMonotone` | rainbow-finder/backend/agents/weather/agent.py:115-118 | a favourable sample stays favourable with more rain and less cloud |
| `WeatherAgent.FavorableWithUsableSunScores` | rainbow-finder/backend/agents/weather/agent.py:114-120 | a favourable sample under a sun strictly between -10 and 50 degrees has a positive rainbow probability |
| `WeatherAgent.GetCurrentWeather` | rainbow-finder/backend/agents/weather/agent.py:60-68 | the stub reading is favourable and stamped at noon |
| `WeatherAgent.CurrentWeatherIgnoresCoordinates` | rainbow-finder/backend/agents/weather/agent.py:60-68 | the stub reading does not depend on the coordinates |
| `WeatherAgent.ForecastHour` | rainbow-finder/backend/agents/weather/agent.py:99 | for sample i < 36 the hour is (12 + i) mod 24, in 0..23; from i = 36 on it is 24 or more |
| `WeatherAgent.ForecastOutOfOrder` | rainbow-finder/backend/agents/weather/agent.py:91-101 | with more than 12 samples, sample 12 has sample 0's date and hour 0, earlier than sample 0's noon; with more than 36, sample 36 is stamped hour 24 |
| `WeatherAgent.GetWeatherForecast` | rainbow-finder/backend/agents/weather/agent.py:91-101 | max(hours, 0) samples, each the current stub reading except for its timestamp, sample i at hour ForecastHour(i), all favourable |
| `WeatherAgent.ForecastSamplesAgree` | rainbow-finder/backend/agents/weather/agent.py:91-101 | two samples differ only in timestamp, and within the first 24 distinct samples have distinct timestamps |
| `NotificationAgent.ShouldNotify` | rainbow-finder/backend/agents/notification/agent.py:78-84 | notifies iff the switch is not off (absent counts as on) and the probability (absent: 0) is at least the floor (absent: 0.5) |
| `NotificationAgent.DisabledNeverNotifies` | rainbow-finder/backend/agents/notification/agent.py:80 | with notifications off, no prediction notifies |
| `NotificationAgent.EnabledIffFloor` | rainbow-finder/backend/agents/notification/agent.py:81 | with notifications on, a prediction notifies iff its probability is at least the floor, the boundary included |
| `NotificationAgent.MissingProbabilityNeverNotifies` | rainbow-finder/backend/agents/notification/agent.py:81 | a prediction without a probability never notifies under the default floor |
| `NotificationAgent.MonotoneInProbability` | rainbow-finder/backend/agents/notification/agent.py:81 | raising the probability never turns a notification off |
| `NotificationAgent.AntitoneInFloor` | rainbow-finder/backend/agents/notification/agent.py:81 | raising the floor never turns a notification on |
| `NotificationAgent.ScheduleNotification` | rainbow-finder/backend/agents/notification/agent.py:176-180 | the receipt has status "scheduled" and echoes the requested time |
| `NotificationAgent.ScheduleIgnoresOtherArguments` | rainbow-finder/backend/agents/notification/agent.py:176-180 | the receipt depends on the requested time alone |
| `UserAgent.GetUserPreferences` | rainbow-finder/backend/agents/user/agent.py:60-72 | apart from the favourite list, the stored preferences equal the dataclass defaults (0.5, 10.0 km, on, 30 min); the list is Downtown Seattle |
| `UserAgent.StoredPreferencesFloor` | rainbow-finder/backend/agents/user/agent.py:60-72 | under the stored preferences both the filter and the notification decision reduce to probability >= 0.5 |
| `UserAgent.FilterPredictionsByPreferences` | rainbow-finder/backend/agents/user/agent.py:155-158 | the result is a subsequence of the input holding exactly the predictions at or above the floor, each as many times as in the input |
| `UserAgent.FilterKeepsQualifying` | rainbow-finder/backend/agents/user/agent.py:156 | a list whose every prediction meets the floor passes unchanged |
| `UserAgent.FilterIdempotent` | rainbow-finder/backend/agents/user/agent.py:156 | filtering the filtered list again returns it unchanged |
| `UserAgent.FilterDependsOnlyOnFloor` | rainbow-finder/backend/agents/user/agent.py:156-157 | two preference records with the same floor filter alike; the distance limit is ignored |
| `UserAgent.KeptPredictionsNotify` | rainbow-finder/backend/agents/user/agent.py:156 | with notifications not off, every kept prediction is one the notification agent would send |
| `WeatherServices.WeatherService.constructor` | rainbow-finder/backend/services/weather_service.py:14-18 | a new service has an empty provider registry |
| `WeatherServices.WeatherService.RegisterWeatherProvider` | rainbow-finder/backend/services/weather_service.py:20-32 | returns true; the registry maps the name to the new config, overwriting an earlier one, and every other entry is unchanged |
| `WeatherServices.WeatherService.GetCurrentWeather` | rainbow-finder/backend/services/weather_service.py:34-54 | the placeholder reading is never favourable and scores 0 under every sun |
| `WeatherServices.CurrentWeatherIgnoresArguments` | rainbow-finder/backend/services/weather_service.py:34-54 | the placeholder does not depend on the location or the provider asked for |
| `WeatherServices.WeatherService.GetWeatherForecast` | rainbow-finder/backend/services/weather_service.py:56-68 | max(hours, 0) readings, each the current placeholder, none favourable |

## Left out

- The coordinator agent (`backend/agents/coordinator/agent.py`): LLM orchestration and a status string, with no rule to model.
- The agent framework wiring (`LlmAgent`, `Tool`, `OutputSchema`, `Parameter`) and the instruction prompts: foreign-library configuration.
- Default argument values: those the agent framework fills in for omitted tool parameters (24 forecast hours, a 5.0 km radius, the "push" channel), and the weather service's own Python defaults (`provider=None` in `get_current_weather`, `hours=24` in `get_weather_forecast`). Every argument is explicit in the model; an omitted provider is `None`.
- The dataclass defaults of `RainbowPrediction` (`rainbow_type="primary"`, `intensity=0.0`): no modelled rule builds a prediction, so every prediction in the model carries both fields explicitly.
- The `explanation` and `reason` strings of the tool results: constant text. Only the decision fields are modelled, except the scheduling receipt, which is modelled whole.
- `send_push_notification`, `send_email_notification` and `get_notification_history`: delivery stubs returning canned records.
- `update_user_preferences`, `get_user_location` and `add_favorite_location`: stubs returning canned records that depend on no rule.
- `predict_rainbow_timing` (`backend/agents/rainbow/agent.py:141-155`): two hard-coded windows that do not depend on its inputs.
- The sun, location and rainbow services (`backend/services/sun_service.py`, `location_service.py`, `rainbow_service.py`). Every method is a placeholder. The distance, solar-position and arc computations their comments describe are not written. One of them reads the clock.
- Python truthiness: `notification_enabled` is a boolean here. A non-boolean value, and `and` returning its left operand, are not modelled.
- IEEE floating point: rounding, NaN and infinities. The model computes with exact reals.
- Timestamp text: the forecast writes its hour without zero padding. The model keeps the hour as an integer and the date as a string.
- The contents of a provider configuration: an opaque type parameter of the service class.
- The service's logger and every logging call.
