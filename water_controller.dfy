/** The water tracker store: records holding a user, an amount and a date, created, read and
    added to by id. */
module WaterController {
  import opened Common

  /** A water record. `user` is whatever user id the request named, possibly none. */
  datatype WaterEntry = WaterEntry(user: Option<Id>, amount: real, date: int)

  datatype WaterError = NotFound

  class WaterStore {
    var entries: seq<WaterEntry>

    constructor ()
      ensures entries == []
    {
      entries := [];
    }

    /** `createWaterTracker`: a new record with the given user and amount, dated `now`. */
    method Create(user: Option<Id>, amount: real, now: int) returns (id: Id)
      modifies this
      ensures id == |old(entries)|
      ensures entries == old(entries) + [WaterEntry(user, amount, now)]
    {
      id := |entries|;
      entries := entries + [WaterEntry(user, amount, now)];
    }

    /** `getWaterTracker`: the record with that id, or not found. */
    method Get(id: Id) returns (r: Result<WaterEntry, WaterError>)
      ensures r.Ok? <==> id < |entries|
      ensures r.Ok? ==> r.value == entries[id]
      ensures r.Err? ==> r.error == NotFound
    {
      if id < |entries| {
        r := Ok(entries[id]);
      } else {
        r := Err(NotFound);
      }
    }

    /** `logWater`: `$inc` adds the amount, of either sign, to the record's amount exactly once;
        an unknown id changes nothing. */
    method LogWater(id: Id, amount: real) returns (r: Result<WaterEntry, WaterError>)
      modifies this
      ensures id >= |old(entries)| ==> r == Err(NotFound) && entries == old(entries)
      ensures id < |old(entries)| ==>
        entries == old(entries)[id := old(entries)[id].(amount := old(entries)[id].amount + amount)]
        && r == Ok(entries[id])
    {
      if id >= |entries| {
        return Err(NotFound);
      }
      var e := entries[id];
      entries := entries[id := e.(amount := e.amount + amount)];
      r := Ok(entries[id]);
    }
  }
}
