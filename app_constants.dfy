/** Constants shared by the frontend and the backend (shared/constants/app_constants.py). */
module AppConstants {

  // API endpoints
  const ApiBaseUrl: string := "/api/v1"
  const RainbowPredictionEndpoint: string := ApiBaseUrl + "/predictions"
  const WeatherEndpoint: string := ApiBaseUrl + "/weather"
  const UserPreferencesEndpoint: string := ApiBaseUrl + "/user/preferences"
  const LocationsEndpoint: string := ApiBaseUrl + "/locations"

  // Rainbow types
  const RainbowTypePrimary: string := "primary"
  const RainbowTypeSecondary: string := "secondary"
  const RainbowTypeSupernumerary: string := "supernumerary"
  const RainbowTypeFogbow: string := "fogbow"
  const RainbowTypeMoonbow: string := "moonbow"

  // Rainbow physics, in degrees
  const RainbowAnglePrimary: real := 42.0
  const RainbowAngleSecondary: real := 51.0
  const WaterRefractiveIndex: real := 1.33

  // Weather thresholds: mm/h of rain and percent of cloud cover
  const MinPrecipitationRate: real := 0.1
  const MaxCloudCover: real := 70.0
  const MinSunElevation: real := 0.0
  const MaxSunElevation: real := 42.0

  // Notification settings
  const DefaultMinProbability: real := 0.5
  const DefaultNotificationRadiusKm: real := 10.0
  const DefaultNotificationLeadTimeMinutes: int := 30

  // Update intervals, in minutes
  const PredictionUpdateIntervalMinutes: int := 5
  const WeatherUpdateIntervalMinutes: int := 15
}
