/** The CalorieLog record: the calories a user logged against one of their trackers for one day. */
module CalorieLogModel {
  import opened Common

  /** One item of a log. Both paths are optional. */
  datatype CalorieItem = CalorieItem(name: Option<string>, calories: Option<real>)

  /** `ownerId`, `trackerId`, `date` and `calories` are required; `note` is optional and
      `items` defaults to the empty list. `date` is in milliseconds since the epoch. */
  datatype CalorieLog = CalorieLog(
    ownerId: Id,
    trackerId: Id,
    date: int,
    calories: real,
    note: Option<string>,
    items: seq<CalorieItem>)

  predicate ValidItem(i: CalorieItem) {
    i.calories.Some? ==> i.calories.value >= 0.0
  }

  predicate ValidItems(items: seq<CalorieItem>) {
    forall k :: 0 <= k < |items| ==> ValidItem(items[k])
  }

  /** The schema's `min: 0` validators, on the log and on each item. */
  predicate ValidLog(l: CalorieLog) {
    l.calories >= 0.0 && ValidItems(l.items)
  }

  /** The compound index (ownerId, trackerId, date). */
  function IndexKey(l: CalorieLog): (Id, Id, int) {
    (l.ownerId, l.trackerId, l.date)
  }

  /** The compound index is not declared unique: two different logs that the schema accepts
      can share owner, tracker and date. */
  lemma IndexAdmitsTwoLogsPerDay()
    ensures exists a: CalorieLog, b: CalorieLog :: ValidLog(a) && ValidLog(b) && a != b && IndexKey(a) == IndexKey(b)
  {
    var a := CalorieLog(0, 0, 0, 100.0, None, []);
    var b := a.(calories := 200.0);
    assert ValidLog(a) && ValidLog(b) && a != b && IndexKey(a) == IndexKey(b);
  }
}
