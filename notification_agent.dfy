/**
 * The decision rules of the notification agent (backend/agents/notification/agent.py):
 * whether a prediction is worth a notification, and the scheduling receipt.
 */
module NotificationAgent {
  import opened Wrappers
  import opened AppConstants
  import opened RainbowModels

  /** What schedule_notification hands back. */
  datatype ScheduleReceipt = ScheduleReceipt(notificationId: string, status: string, scheduledTime: string)

  /**
   * should_notify_user: notifications are on (an absent switch counts as on) and the
   * probability (absent: 0) reaches the user's floor (absent: 0.5).
   */
  function ShouldNotify(userId: string, prediction: RainbowPrediction, userPreferences: UserPreferences): (notify: bool)
    ensures userPreferences.notificationEnabled == Some(false) ==> !notify
    ensures notify ==> prediction.probability.GetOr(0.0) >= userPreferences.minProbability.GetOr(DefaultMinProbability)
    ensures (userPreferences.notificationEnabled != Some(false)
      && prediction.probability.GetOr(0.0) >= userPreferences.minProbability.GetOr(DefaultMinProbability)) ==> notify
  {
    userPreferences.notificationEnabled.GetOr(true)
    && prediction.probability.GetOr(0.0) >= userPreferences.minProbability.GetOr(DefaultMinProbability)
  }

  /** schedule_notification: acknowledges the request, echoing the time it was given. */
  function ScheduleNotification(userId: string, predictionId: string, notificationTime: string, channel: string, message: string): (receipt: ScheduleReceipt)
    ensures receipt.status == "scheduled"
    ensures receipt.scheduledTime == notificationTime
  {
    ScheduleReceipt("schedule-123456", "scheduled", notificationTime)
  }

  /** The receipt depends on the requested time alone. */
  lemma ScheduleIgnoresOtherArguments(
    u1: string, u2: string, p1: string, p2: string, notificationTime: string,
    c1: string, c2: string, m1: string, m2: string)
    ensures ScheduleNotification(u1, p1, notificationTime, c1, m1) == ScheduleNotification(u2, p2, notificationTime, c2, m2)
  {
  }

  /** With notifications switched off nothing is ever sent, whatever the probability. */
  lemma DisabledNeverNotifies(userId: string, prediction: RainbowPrediction, userPreferences: UserPreferences)
    requires userPreferences.notificationEnabled == Some(false)
    ensures !ShouldNotify(userId, prediction, userPreferences)
  {
  }

  /** With notifications on, or the switch absent, the floor decides and is inclusive. */
  lemma EnabledIffFloor(userId: string, prediction: RainbowPrediction, userPreferences: UserPreferences, p: real, floor: real)
    requires userPreferences.notificationEnabled != Some(false)
    requires prediction.probability == Some(p) && userPreferences.minProbability == Some(floor)
    ensures ShouldNotify(userId, prediction, userPreferences) <==> p >= floor
  {
  }

  /** A prediction without a probability is never sent under the default floor of 0.5. */
  lemma MissingProbabilityNeverNotifies(userId: string, prediction: RainbowPrediction, userPreferences: UserPreferences)
    requires prediction.probability.None?
    requires userPreferences.minProbability.None? || userPreferences.minProbability == Some(DefaultMinProbability)
    ensures !ShouldNotify(userId, prediction, userPreferences)
  {
  }

  /** A higher probability never withdraws a notification. */
  lemma MonotoneInProbability(userId: string, prediction: RainbowPrediction, userPreferences: UserPreferences, higher: real)
    requires ShouldNotify(userId, prediction, userPreferences)
    requires higher >= prediction.probability.GetOr(0.0)
    ensures ShouldNotify(userId, prediction.(probability := Some(higher)), userPreferences)
  {
  }

  /** A higher floor never grants a notification. */
  lemma AntitoneInFloor(userId: string, prediction: RainbowPrediction, userPreferences: UserPreferences, higher: real)
    requires !ShouldNotify(userId, prediction, userPreferences)
    requires higher >= userPreferences.minProbability.GetOr(DefaultMinProbability)
    ensures !ShouldNotify(userId, prediction, userPreferences.(minProbability := Some(higher)))
  {
  }
}
