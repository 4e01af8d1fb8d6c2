/** The activities already in the database, as far as the parser sees them:
    looked up by id and by IATI identifier, saved (which refreshes their
    `last_updated_model`), deleted one at a time, and swept at the end of a
    source. */
module Store {
  import opened Common

  datatype StoredActivity = StoredActivity(
    id: string,
    iatiIdentifier: Option<string>,
    xmlSourceRef: string,
    lastUpdatedDatetime: Option<Date>,
    lastUpdatedModel: Date)

  /** `get_or_none(Activity, id=id)`. */
  function Find(acts: seq<StoredActivity>, id: string): (r: Option<StoredActivity>)
    ensures r.Some? ==> r.value in acts && r.value.id == id
    ensures r.None? <==> forall a :: a in acts ==> a.id != id
  {
    if acts == [] then None
    else if acts[0].id == id then Some(acts[0])
    else Find(acts[1..], id)
  }

  /** `get_or_none(Activity, iati_identifier=ref)`: the id of a stored
      activity with that identifier; an absent reference matches the
      activities whose identifier is NULL. */
  function ByIatiIdentifier(acts: seq<StoredActivity>, ref: Option<string>): (r: Option<string>)
    ensures r.Some? ==> exists a :: a in acts && a.iatiIdentifier == ref && a.id == r.value
    ensures r.None? <==> forall a :: a in acts ==> a.iatiIdentifier != ref
  {
    if acts == [] then None
    else if acts[0].iatiIdentifier == ref then Some(acts[0].id)
    else ByIatiIdentifier(acts[1..], ref)
  }

  /** `activity.save()`: the activity with this id gets `last_updated_model`
      set to the time of the save; every other field and every other
      activity is kept. */
  function Touch(acts: seq<StoredActivity>, id: string, now: Date): (r: seq<StoredActivity>)
    ensures |r| == |acts|
    ensures forall i :: 0 <= i < |acts| && acts[i].id == id ==>
              r[i] == acts[i].(lastUpdatedModel := now)
    ensures forall i :: 0 <= i < |acts| && acts[i].id != id ==> r[i] == acts[i]
  {
    if acts == [] then []
    else
      var head := if acts[0].id == id then acts[0].(lastUpdatedModel := now) else acts[0];
      [head] + Touch(acts[1..], id, now)
  }

  /** `activity.delete()`: the activity with this id is gone, and nothing
      else is. */
  function Without(acts: seq<StoredActivity>, id: string): (r: seq<StoredActivity>)
    ensures forall a :: a in r <==> a in acts && a.id != id
  {
    if acts == [] then []
    else if acts[0].id == id then Without(acts[1..], id)
    else [acts[0]] + Without(acts[1..], id)
  }

  /** An activity of source `ref` not saved since the parse of that source
      started: it was not in the source this time. */
  predicate Stale(a: StoredActivity, ref: string, start: Date)
  {
    a.xmlSourceRef == ref && a.lastUpdatedModel < start
  }

  /** The activities that survive the end-of-source sweep, in their order. */
  function Retained(acts: seq<StoredActivity>, ref: string, start: Date): (r: seq<StoredActivity>)
    ensures forall a :: a in r <==> a in acts && !Stale(a, ref, start)
    ensures |r| <= |acts|
  {
    if acts == [] then []
    else
      var last := acts[|acts| - 1];
      Retained(acts[..|acts| - 1], ref, start) + (if Stale(last, ref, start) then [] else [last])
  }

  /** An activity saved at or after the parse start is not swept, whatever
      its source: the save the activity handler performs before rejecting a
      duplicate keeps an unchanged activity alive. */
  lemma {:induction false} SavedSurvivesSweep(acts: seq<StoredActivity>, id: string, now: Date, ref: string, start: Date)
    requires start <= now
    ensures forall a :: a in Touch(acts, id, now) && a.id == id ==> a in Retained(Touch(acts, id, now), ref, start)
  {
    var t := Touch(acts, id, now);
    forall a | a in t && a.id == id
      ensures a in Retained(t, ref, start)
    {
      var i :| 0 <= i < |t| && t[i] == a;
      assert a.lastUpdatedModel == now;
    }
  }

  /** Saving an activity and then deleting it leaves exactly what deleting it
      alone leaves: the refresh of `last_updated_model` before a restage
      has no lasting effect. */
  lemma {:induction false} TouchThenDelete(acts: seq<StoredActivity>, id: string, now: Date)
    ensures Without(Touch(acts, id, now), id) == Without(acts, id)
  {
    if acts != [] {
      TouchThenDelete(acts[1..], id, now);
      assert Touch(acts, id, now)[1..] == Touch(acts[1..], id, now);
    }
  }

  /** The stored activities, changed in place by the parser. */
  class ActivityStore {
    var activities: seq<StoredActivity>

    constructor (acts: seq<StoredActivity>)
      ensures activities == acts
    {
      activities := acts;
    }

    /** `old_activity.save()` */
    method Save(id: string, now: Date)
      modifies this
      ensures activities == Touch(old(activities), id, now)
    {
      activities := Touch(activities, id, now);
    }

    /** `old_activity.delete()` */
    method Delete(id: string)
      modifies this
      ensures activities == Without(old(activities), id)
    {
      activities := Without(activities, id);
    }

    /** `delete_removed_activities(ref)`: the bulk delete of every activity of
        source `ref` whose `last_updated_model` is before the parse start. */
    method DeleteStale(ref: string, start: Date)
      modifies this
      ensures activities == Retained(old(activities), ref, start)
      ensures forall a :: a in activities ==> !Stale(a, ref, start)
      ensures forall a :: a in old(activities) && !Stale(a, ref, start) ==> a in activities
    {
      var kept: seq<StoredActivity> := [];
      var i := 0;
      while i < |activities|
        invariant 0 <= i <= |activities|
        invariant kept == Retained(activities[..i], ref, start)
      {
        assert activities[..i + 1][..i] == activities[..i];
        if !Stale(activities[i], ref, start) {
          kept := kept + [activities[i]];
        }
        i := i + 1;
      }
      assert activities[..i] == activities;
      activities := kept;
    }
  }
}
