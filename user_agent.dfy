/**
 * The decision rules of the user agent (backend/agents/user/agent.py): the stored
 * preferences and the filter of predictions by the user's probability floor.
 */
module UserAgent {
  import opened Wrappers
  import opened AppConstants
  import opened RainbowModels
  import NotificationAgent

  /** The favourite location every stored profile lists. */
  const DowntownSeattle: Location := Location(Some(47.6062), Some(-122.3321), None, Some("Downtown Seattle"))

  /** get_user_preferences: the application defaults and one favourite location. */
  function GetUserPreferences(userId: string): (preferences: UserPreferences)
    ensures preferences.(favoriteLocations := None) == UserPreferencesDefaults()
    ensures preferences.favoriteLocations == Some([DowntownSeattle])
  {
    UserPreferences(
      Some(DefaultMinProbability),
      Some(DefaultNotificationRadiusKm),
      Some(true),
      Some([DowntownSeattle]),
      Some(DefaultNotificationLeadTimeMinutes))
  }

  /** The floor the filter applies; the filter writes its own default of 0.5. */
  predicate MeetsFloor(prediction: RainbowPrediction, preferences: UserPreferences) {
    prediction.probability.GetOr(0.0) >= preferences.minProbability.GetOr(0.5)
  }

  /** `xs` is `ys` with some elements left out, the rest in their original order. */
  predicate IsSubsequence<T(==)>(xs: seq<T>, ys: seq<T>)
    decreases |ys|
  {
    if xs == [] then true
    else if ys == [] then false
    else (xs[0] == ys[0] && IsSubsequence(xs[1..], ys[1..])) || IsSubsequence(xs, ys[1..])
  }

  /**
   * filter_predictions_by_preferences: keeps, in order, the predictions whose
   * probability (absent: 0) reaches the floor (absent: 0.5), each as often as it occurs.
   */
  function FilterPredictionsByPreferences(predictions: seq<RainbowPrediction>, preferences: UserPreferences): (filtered: seq<RainbowPrediction>)
    ensures IsSubsequence(filtered, predictions)
    ensures forall p :: p in filtered <==> p in predictions && MeetsFloor(p, preferences)
    ensures forall p :: multiset(filtered)[p] == if MeetsFloor(p, preferences) then multiset(predictions)[p] else 0
  {
    if predictions == [] then []
    else
      var rest := FilterPredictionsByPreferences(predictions[1..], preferences);
      assert predictions == [predictions[0]] + predictions[1..];
      if MeetsFloor(predictions[0], preferences) then [predictions[0]] + rest else rest
  }

  /** A list whose every element meets the floor passes the filter unchanged. */
  lemma {:induction false} FilterKeepsQualifying(predictions: seq<RainbowPrediction>, preferences: UserPreferences)
    requires forall p :: p in predictions ==> MeetsFloor(p, preferences)
    ensures FilterPredictionsByPreferences(predictions, preferences) == predictions
  {
    if predictions != [] {
      FilterKeepsQualifying(predictions[1..], preferences);
    }
  }

  /** Filtering twice is filtering once. */
  lemma {:induction false} FilterIdempotent(predictions: seq<RainbowPrediction>, preferences: UserPreferences)
    ensures var once := FilterPredictionsByPreferences(predictions, preferences);
      FilterPredictionsByPreferences(once, preferences) == once
  {
    FilterKeepsQualifying(FilterPredictionsByPreferences(predictions, preferences), preferences);
  }

  /** Only the floor matters: the distance limit and every other preference are ignored. */
  lemma {:induction false} FilterDependsOnlyOnFloor(predictions: seq<RainbowPrediction>, p1: UserPreferences, p2: UserPreferences)
    requires p1.minProbability == p2.minProbability
    ensures FilterPredictionsByPreferences(predictions, p1) == FilterPredictionsByPreferences(predictions, p2)
  {
    if predictions != [] {
      FilterDependsOnlyOnFloor(predictions[1..], p1, p2);
    }
  }

  /** With notifications on (or the switch absent), every prediction kept is one the notification agent sends. */
  lemma KeptPredictionsNotify(userId: string, predictions: seq<RainbowPrediction>, preferences: UserPreferences)
    requires preferences.notificationEnabled != Some(false)
    ensures forall p :: p in FilterPredictionsByPreferences(predictions, preferences) ==>
      NotificationAgent.ShouldNotify(userId, p, preferences)
  {
  }

  /** Under the stored preferences, filter and notification both reduce to "probability at least 0.5". */
  lemma StoredPreferencesFloor(userId: string, prediction: RainbowPrediction)
    ensures var preferences := GetUserPreferences(userId);
      && (MeetsFloor(prediction, preferences) <==> prediction.probability.GetOr(0.0) >= DefaultMinProbability)
      && (NotificationAgent.ShouldNotify(userId, prediction, preferences) <==> MeetsFloor(prediction, preferences))
  {
  }
}
