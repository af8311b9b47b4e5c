/** Calendar-day keys for timestamps given as integer milliseconds since the epoch. The calorie
    routes key a day by its UTC midnight; the macro and profile code key it by local midnight,
    modelled here for a fixed offset of local time from UTC. */
module DayClock {

  const MsPerDay: int := 86_400_000

  /** `Date.UTC(y, m, d)` for the UTC year, month and day of `t`. */
  function StartOfUTCDay(t: int): (r: int)
    ensures r % MsPerDay == 0
    ensures r <= t < r + MsPerDay
  {
    (t / MsPerDay) * MsPerDay
  }

  /** A multiple of a day that lies within one day below `t` is its UTC midnight: the key of a
      timestamp is unique. */
  lemma StartOfUTCDayUnique(t: int, d: int)
    requires d % MsPerDay == 0
    requires d <= t < d + MsPerDay
    ensures d == StartOfUTCDay(t)
  {
    var q := d / MsPerDay;
    assert d == q * MsPerDay;
    var r := StartOfUTCDay(t);
    var p := r / MsPerDay;
    assert r == p * MsPerDay;
  }

  lemma StartOfUTCDayIdempotent(t: int)
    ensures StartOfUTCDay(StartOfUTCDay(t)) == StartOfUTCDay(t)
  {
    var r := StartOfUTCDay(t);
    StartOfUTCDayUnique(r, r);
  }

  /** `d.setHours(0, 0, 0, 0)` where local time runs `offset` milliseconds ahead of UTC: the
      last instant at or before `t` at which the local clock reads midnight. */
  function StartOfLocalDay(t: int, offset: int): (r: int)
    ensures (r + offset) % MsPerDay == 0
    ensures r <= t < r + MsPerDay
  {
    StartOfUTCDay(t + offset) - offset
  }

  lemma StartOfLocalDayUnique(t: int, offset: int, d: int)
    requires (d + offset) % MsPerDay == 0
    requires d <= t < d + MsPerDay
    ensures d == StartOfLocalDay(t, offset)
  {
    StartOfUTCDayUnique(t + offset, d + offset);
  }

  lemma StartOfLocalDayIdempotent(t: int, offset: int)
    ensures StartOfLocalDay(StartOfLocalDay(t, offset), offset) == StartOfLocalDay(t, offset)
  {
    var r := StartOfLocalDay(t, offset);
    StartOfLocalDayUnique(r, offset, r);
  }
}
