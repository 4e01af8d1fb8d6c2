/** What the activity handler does when an activity with the same id is
    already stored: compare the incoming `last-updated-datetime` with the
    stored one and either reject the incoming activity or replace the
    stored one. */
module Supersession {
  import opened Common

  const NoNeedToUpdate := "current version of activity already exists: no need to update"
  const NewerVersionExists := "newer version of activity exists: last_updated_time is less than existing activity"
  const DuplicateActivity := "duplicate activity: last_updated_time is not present, but is present on 'old' activity"

  datatype Decision =
    | Stage                     // nothing stored under this id
    | Replace                   // delete the stored activity, then stage the new one
    | Reject(error: ParseError) // abort the incoming activity

  /** `stored` is the stored activity's `last_updated_datetime` when one is
      stored, `incoming` the validated attribute of the incoming one. A
      stored activity without a timestamp and an incoming one with a
      timestamp reach the ordering test `incoming < None`, which raises a
      TypeError. */
  function Decide(stored: Option<Option<Date>>, incoming: Option<Date>, force: bool): (d: Decision)
    ensures stored.None? ==> d == Stage
    ensures stored.Some? && force ==> d == Replace
    ensures stored.Some? && !force && incoming.Some? && stored.value == incoming ==>
              d == Reject(ValidationError("activity", NoNeedToUpdate))
    ensures stored.Some? && !force && incoming.Some? && stored.value.None? ==>
              d == Reject(Exception(TypeError("last_updated_datetime < None")))
    ensures stored.Some? && !force && incoming.Some? && stored.value.Some? && incoming.value < stored.value.value ==>
              d == Reject(ValidationError("activity", NewerVersionExists))
    ensures stored.Some? && !force && incoming.None? && stored.value.Some? ==>
              d == Reject(ValidationError("activity", DuplicateActivity))
    ensures d.Reject? ==> d.error.ValidationError? || d.error == Exception(TypeError("last_updated_datetime < None"))
  {
    if stored.None? then Stage
    else if force then Replace
    else if incoming.Some? && stored.value == incoming then
      Reject(ValidationError("activity", NoNeedToUpdate))
    else if incoming.Some? && stored.value.None? then
      Reject(Exception(TypeError("last_updated_datetime < None")))
    else if incoming.Some? && incoming.value < stored.value.value then
      Reject(ValidationError("activity", NewerVersionExists))
    else if incoming.None? && stored.value.Some? then
      Reject(ValidationError("activity", DuplicateActivity))
    else Replace
  }

  /** Without `force_reparse`, a stored activity is replaced exactly when the
      incoming one is strictly newer, or when neither carries a timestamp. */
  lemma ReplaceExactlyWhenNewer(stored: Option<Date>, incoming: Option<Date>)
    ensures Decide(Some(stored), incoming, false) == Replace <==>
              (incoming.Some? && stored.Some? && incoming.value > stored.value) ||
              (incoming.None? && stored.None?)
  {
  }

  /** With `force_reparse` no timestamp is looked at. */
  lemma ForceIgnoresTimestamps(stored: Option<Option<Date>>, incoming: Option<Date>, incoming': Option<Date>)
    ensures Decide(stored, incoming, true) == Decide(stored, incoming', true)
    ensures !Decide(stored, incoming, true).Reject?
  {
  }
}
