/**
 * The shuttle recommendation of `ShuttleController`: given the next-departure
 * lookups, pick the Giheung-station shuttle or the Myongji-station route.
 */
module ShuttleChoice {
  import opened Wrappers
  import opened Clock
  import opened Timetable

  /** Korea Standard Time is UTC+9. */
  const KoreaOffsetMs: int := 3600000 * 9

  /** Ride times the controller adds to compare arrival at the university. */
  const GiheungShuttleRide: int := 15
  const EverlineRide: int := 16

  datatype Station = GiheungStation | MyongjiStation

  /** The controller's answer; the message texts are represented by the constructor. */
  datatype ShuttleResponse =
    | NextShuttle(station: Station, time: int, currentTime: int, estimatedArrival: int)
    | NoMoreShuttles(currentTime: int)

  /**
   * `getKoreanTime`: the instant whose local wall-clock reading is the wall
   * clock of Korea at `nowMs` (the zone offset is taken as constant).
   */
  function KoreanTime(nowMs: int, tz: int): (r: int)
    ensures WallClock(r, tz) == nowMs + KoreaOffsetMs
  {
    var utc := nowMs + tz * MsPerMinute;
    utc + KoreaOffsetMs
  }

  /** Whatever zone the server runs in, the lookups see Korea's minute of the day. */
  lemma KoreanMinuteOfDay(nowMs: int, tz: int)
    ensures CurrentMinutes(KoreanTime(nowMs, tz), tz) == ((nowMs + KoreaOffsetMs) / MsPerMinute) % MinutesPerDay
  {
  }

  /**
   * University to Giheung: with both lookups present the earlier departure
   * wins and a tie goes to the Giheung-station shuttle; otherwise no shuttle.
   */
  function ChooseMtoG(m: Option<int>, g: Option<int>, currentTime: int): (r: ShuttleResponse)
    ensures r.currentTime == currentTime
    ensures r.NextShuttle? <==> m.Some? && g.Some?
    ensures r.NextShuttle? ==>
      && (r.station == GiheungStation <==> g.value <= m.value)
      && r.time <= g.value && r.time <= m.value
      && (r.time == g.value || r.time == m.value)
      && r.estimatedArrival == currentTime + r.time * MsPerMinute
  {
    if m.Some? && g.Some? then
      if g.value <= m.value then NextShuttle(GiheungStation, g.value, currentTime, AfterMinutes(currentTime, g.value))
      else NextShuttle(MyongjiStation, m.value, currentTime, AfterMinutes(currentTime, m.value))
    else NoMoreShuttles(currentTime)
  }

  /**
   * Giheung to the university: needs all three lookups; the Giheung shuttle is
   * chosen when its arrival `g + 15` is no later than the light rail's
   * `el + 16`. The Myongji branch reports the shuttle wait `m`, not `el`.
   */
  function ChooseGtoM(m: Option<int>, el: Option<int>, g: Option<int>, currentTime: int): (r: ShuttleResponse)
    ensures r.currentTime == currentTime
    ensures r.NextShuttle? <==> m.Some? && el.Some? && g.Some?
    ensures r.NextShuttle? ==>
      && (r.station == GiheungStation <==> g.value + GiheungShuttleRide <= el.value + EverlineRide)
      && r.time == (if r.station == GiheungStation then g.value else m.value)
      && r.estimatedArrival == currentTime + r.time * MsPerMinute
  {
    var etaEl := if el.Some? then Some(el.value + EverlineRide) else None;
    var etaG := if g.Some? then Some(g.value + GiheungShuttleRide) else None;
    if m.Some? && g.Some? && el.Some? then
      if etaG.value <= etaEl.value then NextShuttle(GiheungStation, g.value, currentTime, AfterMinutes(currentTime, g.value))
      else NextShuttle(MyongjiStation, m.value, currentTime, AfterMinutes(currentTime, m.value))
    else NoMoreShuttles(currentTime)
  }

  /** `getMtoGShuttle`: both lookups at Korean time, then the choice. */
  function GetMtoGShuttle(mStation: CsvFile, gStation: CsvFile, nowMs: int, tz: int): (r: ShuttleResponse)
    ensures r.currentTime == KoreanTime(nowMs, tz)
    ensures mStation.ReadFailed? || gStation.ReadFailed? ==> r.NoMoreShuttles?
    ensures r.NextShuttle? ==> r.time >= 0
  {
    var currentTime := KoreanTime(nowMs, tz);
    var m := MStationTimeMtoG(mStation, currentTime, tz);
    var g := GStationTimeMtoG(gStation, currentTime, tz);
    ChooseMtoG(m, g, currentTime)
  }

  /**
   * `getGtoMShuttle`: the light-rail lookup receives the Myongji-station wait
   * `m`; a missing `m` counts as 0 there (`null + 10` is 10), though the
   * answer is then "no more shuttles" anyway.
   */
  function GetGtoMShuttle(mStation: CsvFile, everline: CsvFile, gStation: CsvFile, nowMs: int, tz: int): (r: ShuttleResponse)
    ensures r.currentTime == KoreanTime(nowMs, tz)
    ensures mStation.ReadFailed? || everline.ReadFailed? || gStation.ReadFailed? ==> r.NoMoreShuttles?
    ensures r.NextShuttle? ==> r.time >= 0
  {
    var currentTime := KoreanTime(nowMs, tz);
    var m := MStationTimeGtoM(mStation, currentTime, tz);
    var el := EverlineTimeGtoM(everline, m.GetOr(0), currentTime, tz);
    var g := GStationTimeGtoM(gStation, currentTime, tz);
    ChooseGtoM(m, el, g, currentTime)
  }

  /**
   * Whenever a shuttle is recommended towards the university, the light-rail
   * leg it was compared with leaves no sooner than the Myongji-station wait
   * plus the transfer buffer.
   */
  lemma GtoMEverlineAfterShuttle(mStation: CsvFile, everline: CsvFile, gStation: CsvFile, nowMs: int, tz: int)
    requires GetGtoMShuttle(mStation, everline, gStation, nowMs, tz).NextShuttle?
    ensures var currentTime := KoreanTime(nowMs, tz);
      var m := MStationTimeGtoM(mStation, currentTime, tz);
      var el := EverlineTimeGtoM(everline, m.GetOr(0), currentTime, tz);
      m.Some? && el.Some? && el.value >= m.value + TransferMinutes
  {
  }
}
