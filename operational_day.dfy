/** `api/irrops.js`, `getStartOfDayForHub`: the Unix second at which the hub's
    operational day began. The hub's local wall-clock time comes from `Intl` and is
    a parameter here; the arithmetic on it is modelled. */
module OperationalDay {

  /** The hour, minute and second `Intl.DateTimeFormat` reports in a time zone. */
  datatype LocalTime = LocalTime(hour: int, minute: int, second: int)

  predicate WellFormed(t: LocalTime) {
    0 <= t.hour < 24 && 0 <= t.minute < 60 && 0 <= t.second < 60
  }

  /** `HUB_TZ`. */
  const HubZones: map<string, string> := map[
    "ORD" := "America/Chicago", "DEN" := "America/Denver", "IAH" := "America/Chicago",
    "EWR" := "America/New_York", "SFO" := "America/Los_Angeles", "IAD" := "America/New_York",
    "LAX" := "America/Los_Angeles", "NRT" := "Asia/Tokyo", "GUM" := "Pacific/Guam"]

  const DefaultZone := "America/New_York"

  /** `HUB_TZ[hub] || 'America/New_York'`: always one of the table's zones; a listed
      hub gets its own, any other hub EWR's. */
  function HubZone(hub: string): (zone: string)
    ensures zone in HubZones.Values
    ensures hub in HubZones ==> zone == HubZones[hub]
    ensures hub !in HubZones ==> zone == HubZones["EWR"]
  {
    if hub in HubZones then HubZones[hub]
    else
      assert "EWR" in HubZones && HubZones["EWR"] == DefaultZone;
      DefaultZone
  }

  /** Local hour before which the previous day is still the operational day. */
  const DayStartHour := 6

  const DaySeconds := 86400

  function SecondsSinceMidnight(t: LocalTime): int {
    t.hour * 3600 + t.minute * 60 + t.second
  }

  /** `Math.floor(nowMs / 1000 - secondsSinceMidnight)`, less a day before 6 AM. */
  function StartOfDay(nowMs: int, t: LocalTime): int {
    var startOfToday := nowMs / 1000 - SecondsSinceMidnight(t);
    if t.hour < DayStartHour then startOfToday - DaySeconds else startOfToday
  }

  /** From 6 AM on, the result is today's local midnight, between 6 and 24 hours ago;
      before 6 AM it is yesterday's, between 24 and 30 hours ago. */
  lemma StartOfDayBounds(nowMs: int, t: LocalTime)
    requires WellFormed(t)
    ensures var now := nowMs / 1000;
            var r := StartOfDay(nowMs, t);
            && (t.hour >= DayStartHour ==> r == now - SecondsSinceMidnight(t) && now - DaySeconds < r <= now - DayStartHour * 3600)
            && (t.hour < DayStartHour ==> r == now - SecondsSinceMidnight(t) - DaySeconds
                                          && now - DaySeconds - DayStartHour * 3600 < r <= now - DaySeconds)
  {
  }

  /** `getStartOfDayForHub(hub)` at time `nowMs`, `local` being the `Intl` lookup. */
  function StartOfDayForHub(hub: string, nowMs: int, local: (string, int) -> LocalTime): int {
    StartOfDay(nowMs, local(HubZone(hub), nowMs))
  }

  /** A hub without a zone of its own is treated as being in New York, like EWR. */
  lemma UnknownHubIsNewYork(hub: string, nowMs: int, local: (string, int) -> LocalTime)
    requires hub !in HubZones
    ensures StartOfDayForHub(hub, nowMs, local) == StartOfDayForHub("EWR", nowMs, local)
    ensures StartOfDayForHub(hub, nowMs, local) == StartOfDay(nowMs, local(DefaultZone, nowMs))
  {
  }
}
