/** The status classifier and the fallback action recommender
    (services/mockDatabase.ts). Day arithmetic starts from whole days: the
    rounding of millisecond differences happens before this model. */
module Classifier {
  import opened Types

  /** Last day count that is still a WARNING. */
  const WarningHorizon: int := 30
  /** Day counts strictly below this make a WARNING urgent in the fallback text. */
  const UrgentBelow: int := 15

  const StopUsage: string := "Stop usage immediately. Quarantine item."
  const UrgentRenewal: string := "Urgent renewal required."
  const ScheduleRenewal: string := "Schedule renewal discussion."

  /** Signed whole days from the reference day to the expiry day; negative
      once the expiry day has passed. */
  function DaysUntil(expiryDay: int, today: int): (r: int)
    ensures today + r == expiryDay
    ensures r <= 0 <==> expiryDay <= today
  {
    expiryDay - today
  }

  /** Tier of an item that expires in `days` days. */
  function CalculateStatus(days: int): (r: Status)
    ensures r != UNKNOWN
    ensures r == EXPIRED <==> days <= 0
    ensures r == WARNING <==> 0 < days <= WarningHorizon
    ensures r == SAFE <==> WarningHorizon < days
  {
    if days <= 0 then EXPIRED
    else if days <= 15 then WARNING
    else if days <= 30 then WARNING
    else SAFE
  }

  /** Severity order SAFE < WARNING < EXPIRED; UNKNOWN ranks with SAFE. */
  function Severity(s: Status): nat
  {
    match s
    case SAFE => 0
    case WARNING => 1
    case EXPIRED => 2
    case UNKNOWN => 0
  }

  /** Fewer days left never means a less severe tier. */
  lemma ClassifierMonotone(fewer: int, more: int)
    requires fewer <= more
    ensures Severity(CalculateStatus(more)) <= Severity(CalculateStatus(fewer))
  {
  }

  /** Fallback advice for a record whose new tier has the run-time name
      `status`; any name other than EXPIRED and WARNING gets the scheduling
      advice. */
  function DefaultAction(status: string, days: int): (r: string)
    ensures r != ""
    ensures r == StopUsage <==> status == "EXPIRED"
    ensures r == UrgentRenewal <==> status == "WARNING" && days < UrgentBelow
    ensures r == ScheduleRenewal <==>
      status != "EXPIRED" && !(status == "WARNING" && days < UrgentBelow)
  {
    if status == "EXPIRED" then StopUsage
    else if status == "WARNING" && days < 15 then UrgentRenewal
    else ScheduleRenewal
  }

  /** For a freshly classified item the fallback advice depends on the day
      count alone: expired at 0 or below, urgent from 1 to 14, scheduling
      from 15 on, including every SAFE item. */
  lemma DefaultActionOfClassified(days: int)
    ensures DefaultAction(StatusName(CalculateStatus(days)), days) ==
      if days <= 0 then StopUsage
      else if days < UrgentBelow then UrgentRenewal
      else ScheduleRenewal
  {
  }

  /** SAFE and UNKNOWN records get the scheduling advice, never an empty string. */
  lemma DefaultActionOfCalmTiers(s: Status, days: int)
    requires s == SAFE || s == UNKNOWN
    ensures DefaultAction(StatusName(s), days) == ScheduleRenewal
  {
  }

  /** At exactly 15 days a WARNING item already counts as urgent for the
      classifier's inner branch, but the fallback text is not yet urgent. */
  lemma FifteenDaysIsNotUrgentAdvice()
    ensures CalculateStatus(15) == WARNING
    ensures DefaultAction("WARNING", 15) == ScheduleRenewal
    ensures DefaultAction("WARNING", 14) == UrgentRenewal
  {
  }
}
