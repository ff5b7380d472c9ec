/**
 * Next-departure lookups over the shuttle and light-rail timetables
 * (`ShuttleService`). A timetable is one column of a CSV file, read after
 * skipping the header line, whose cells are minutes of the day.
 */
module Timetable {
  import opened Wrappers
  import opened Clock

  /** A CSV cell after `Number(...)`; `None` is NaN (for instance a column the line does not have). */
  type Cell = Option<int>

  /** One line of the file, already split at commas and converted cell by cell. */
  type Line = seq<Cell>

  /** Outcome of reading a timetable file and splitting it into lines. */
  datatype CsvFile = ReadFailed | Lines(lines: seq<Line>)

  const MsPerHour: int := 3600000
  const MinutesPerDay: int := 1440

  /** Minutes added to the first leg before the light-rail table is scanned. */
  const TransferMinutes: int := 10

  /** Columns of the timetable files. */
  const ToMjuColumn: nat := 3
  const ToGiheungColumn: nat := 2
  const EverlineColumn: nat := 0

  function CellAt(line: Line, k: nat): Cell {
    if k < |line| then line[k] else None
  }

  /** Column `k` of every line but the header. */
  function Column(lines: seq<Line>, k: nat): (col: seq<Cell>)
    ensures |col| == if lines == [] then 0 else |lines| - 1
    ensures forall i :: 0 <= i < |col| ==> col[i] == CellAt(lines[i + 1], k)
  {
    if |lines| <= 1 then []
    else seq(|lines| - 1, i requires 0 <= i < |lines| - 1 => CellAt(lines[i + 1], k))
  }

  /** The predicate of `find`: a numeric cell at or after `notBefore` (NaN never qualifies). */
  predicate Departs(c: Cell, notBefore: int) {
    c.Some? && c.value >= notBefore
  }

  ghost predicate NoDeparture(col: seq<Cell>, notBefore: int) {
    forall i :: 0 <= i < |col| ==> !Departs(col[i], notBefore)
  }

  /** `t` is the first entry of `col` at or after `notBefore`. */
  ghost predicate IsFirstDeparture(col: seq<Cell>, notBefore: int, t: int) {
    exists i :: 0 <= i < |col| && col[i] == Some(t) && t >= notBefore &&
      forall j :: 0 <= j < i ==> !Departs(col[j], notBefore)
  }

  /** Numeric cells appear in ascending order (NaN cells are ignored). */
  ghost predicate Ascending(col: seq<Cell>) {
    forall i, j :: 0 <= i < j < |col| && col[i].Some? && col[j].Some? ==> col[i].value <= col[j].value
  }

  /** `Array.prototype.find` with the predicate `t >= notBefore`. */
  function FirstAtLeast(col: seq<Cell>, notBefore: int): (r: Option<int>)
    ensures r.None? <==> NoDeparture(col, notBefore)
    ensures r.Some? ==> IsFirstDeparture(col, notBefore, r.value)
  {
    if col == [] then None
    else if Departs(col[0], notBefore) then
      assert col[0] == Some(col[0].value);
      Some(col[0].value)
    else
      var r := FirstAtLeast(col[1..], notBefore);
      assert NoDeparture(col[1..], notBefore) ==> NoDeparture(col, notBefore) by {
        if NoDeparture(col[1..], notBefore) {
          forall i | 0 < i < |col| ensures !Departs(col[i], notBefore) {
            assert col[i] == col[1..][i - 1];
          }
        }
      }
      if r.Some? then
        assert IsFirstDeparture(col, notBefore, r.value) by {
          var i :| 0 <= i < |col[1..]| && col[1..][i] == Some(r.value) && r.value >= notBefore &&
            forall j :: 0 <= j < i ==> !Departs(col[1..][j], notBefore);
          assert col[i + 1] == Some(r.value);
          forall j | 0 <= j < i + 1 ensures !Departs(col[j], notBefore) {
            if j > 0 { assert col[j] == col[1..][j - 1]; }
          }
        }
        r
      else r
  }

  /**
   * Minutes until the first departure at or after minute `current`, or `None`
   * when the file could not be read or no departure is left today.
   */
  function Lookup(file: CsvFile, k: nat, current: int): (r: Option<int>)
    ensures file.ReadFailed? ==> r.None?
    ensures file.Lines? ==> (r.None? <==> NoDeparture(Column(file.lines, k), current))
    ensures r.Some? ==> (r.value >= 0 && IsFirstDeparture(Column(file.lines, k), current, current + r.value))
  {
    match file
    case ReadFailed => None
    case Lines(lines) =>
      match FirstAtLeast(Column(lines, k), current)
      case None => None
      case Some(t) => Some(t - current)
  }

  /**
   * On a timetable sorted ascending, the wait returned is the least wait over
   * every departure at or after the current minute.
   */
  lemma LookupIsMinimalWait(file: CsvFile, k: nat, current: int, j: nat)
    requires file.Lines? && Ascending(Column(file.lines, k))
    requires j < |Column(file.lines, k)| && Departs(Column(file.lines, k)[j], current)
    ensures Lookup(file, k, current).Some?
    ensures Lookup(file, k, current).value <= Column(file.lines, k)[j].value - current
  {
    var col := Column(file.lines, k);
    var r := Lookup(file, k, current);
    assert !NoDeparture(col, current);
    var t := current + r.value;
    var i :| 0 <= i < |col| && col[i] == Some(t) && t >= current &&
      forall q :: 0 <= q < i ==> !Departs(col[q], current);
    assert i <= j;
  }

  /** The header line never influences a lookup. */
  lemma HeaderIgnored(header1: Line, header2: Line, rows: seq<Line>, k: nat, current: int)
    ensures Lookup(Lines([header1] + rows), k, current) == Lookup(Lines([header2] + rows), k, current)
  {
    assert Column([header1] + rows, k) == Column([header2] + rows, k);
  }

  /** A worked scan over departures 100, 200, 300. */
  lemma ExampleDepartures()
    ensures FirstAtLeast([Some(100), Some(200), Some(300)], 150) == Some(200)
    ensures FirstAtLeast([Some(100), Some(200), Some(300)], 301) == None
  {
  }

  /** The local wall clock a `Date` reports: epoch milliseconds minus the zone offset. */
  function WallClock(epochMs: int, tzOffsetMinutes: int): int {
    epochMs - tzOffsetMinutes * MsPerMinute
  }

  /** `getHours() * 60 + getMinutes()` of the instant `epochMs`. */
  function CurrentMinutes(epochMs: int, tzOffsetMinutes: int): (r: int)
    ensures 0 <= r < MinutesPerDay
    ensures r == (WallClock(epochMs, tzOffsetMinutes) / MsPerMinute) % MinutesPerDay
  {
    var wall := WallClock(epochMs, tzOffsetMinutes);
    var hours := (wall / MsPerHour) % 24;
    var minutes := (wall / MsPerMinute) % 60;
    MinuteOfDay(wall);
    hours * 60 + minutes
  }

  lemma MinuteOfDay(wall: int)
    ensures ((wall / MsPerHour) % 24) * 60 + (wall / MsPerMinute) % 60 == (wall / MsPerMinute) % MinutesPerDay
  {
    var q := wall / MsPerMinute;
    HoursOfMinutes(wall);
    MinutesOfDay(q);
  }

  /** Whole hours are whole minutes divided by 60. */
  lemma HoursOfMinutes(wall: int)
    ensures wall / MsPerHour == (wall / MsPerMinute) / 60
  {
    var q := wall / MsPerMinute;
    var h := q / 60;
    assert wall == h * MsPerHour + ((q % 60) * MsPerMinute + wall % MsPerMinute);
    assert 0 <= (q % 60) * MsPerMinute + wall % MsPerMinute < MsPerHour;
  }

  /** Hour of the day times 60 plus minute of the hour is the minute of the day. */
  lemma MinutesOfDay(q: int)
    ensures ((q / 60) % 24) * 60 + q % 60 == q % MinutesPerDay
  {
    var d := (q / 60) / 24;
    assert q == d * MinutesPerDay + (((q / 60) % 24) * 60 + q % 60);
    assert 0 <= ((q / 60) % 24) * 60 + q % 60 < MinutesPerDay;
  }

  /** `getGStationTimeGtoM`: Giheung-station shuttle towards the university, column 3 of gStation.csv. */
  function GStationTimeGtoM(gStation: CsvFile, currentTime: int, tz: int): (r: Option<int>)
    ensures gStation.ReadFailed? ==> r.None?
    ensures gStation.Lines? ==>
      (r.None? <==> NoDeparture(Column(gStation.lines, ToMjuColumn), CurrentMinutes(currentTime, tz)))
    ensures r.Some? ==> (r.value >= 0 &&
      IsFirstDeparture(Column(gStation.lines, ToMjuColumn), CurrentMinutes(currentTime, tz),
                       CurrentMinutes(currentTime, tz) + r.value))
  {
    Lookup(gStation, ToMjuColumn, CurrentMinutes(currentTime, tz))
  }

  /** `getMStationTimeGtoM`: Myongji-station shuttle towards the university, column 3 of mStation.csv. */
  function MStationTimeGtoM(mStation: CsvFile, currentTime: int, tz: int): (r: Option<int>)
    ensures mStation.ReadFailed? ==> r.None?
    ensures mStation.Lines? ==>
      (r.None? <==> NoDeparture(Column(mStation.lines, ToMjuColumn), CurrentMinutes(currentTime, tz)))
    ensures r.Some? ==> (r.value >= 0 &&
      IsFirstDeparture(Column(mStation.lines, ToMjuColumn), CurrentMinutes(currentTime, tz),
                       CurrentMinutes(currentTime, tz) + r.value))
  {
    Lookup(mStation, ToMjuColumn, CurrentMinutes(currentTime, tz))
  }

  /** `getGStationTimeMtoG`: Giheung-station shuttle from the university, column 2 of gStation.csv. */
  function GStationTimeMtoG(gStation: CsvFile, currentTime: int, tz: int): (r: Option<int>)
    ensures gStation.ReadFailed? ==> r.None?
    ensures gStation.Lines? ==>
      (r.None? <==> NoDeparture(Column(gStation.lines, ToGiheungColumn), CurrentMinutes(currentTime, tz)))
    ensures r.Some? ==> (r.value >= 0 &&
      IsFirstDeparture(Column(gStation.lines, ToGiheungColumn), CurrentMinutes(currentTime, tz),
                       CurrentMinutes(currentTime, tz) + r.value))
  {
    Lookup(gStation, ToGiheungColumn, CurrentMinutes(currentTime, tz))
  }

  /** `getMStationTimeMtoG`: Myongji-station shuttle from the university, column 2 of mStation.csv. */
  function MStationTimeMtoG(mStation: CsvFile, currentTime: int, tz: int): (r: Option<int>)
    ensures mStation.ReadFailed? ==> r.None?
    ensures mStation.Lines? ==>
      (r.None? <==> NoDeparture(Column(mStation.lines, ToGiheungColumn), CurrentMinutes(currentTime, tz)))
    ensures r.Some? ==> (r.value >= 0 &&
      IsFirstDeparture(Column(mStation.lines, ToGiheungColumn), CurrentMinutes(currentTime, tz),
                       CurrentMinutes(currentTime, tz) + r.value))
  {
    Lookup(mStation, ToGiheungColumn, CurrentMinutes(currentTime, tz))
  }

  /**
   * `getEverlineTimeGtoM`: the first light-rail departure (column 0 of
   * everline.csv) at or after the current minute plus the first leg `m` plus
   * the transfer buffer, reported as minutes from now.
   */
  function EverlineTimeGtoM(everline: CsvFile, m: int, currentTime: int, tz: int): (r: Option<int>)
    ensures everline.ReadFailed? ==> r.None?
    ensures everline.Lines? ==>
      (r.None? <==> NoDeparture(Column(everline.lines, EverlineColumn),
                                CurrentMinutes(currentTime, tz) + m + TransferMinutes))
    ensures r.Some? ==> (r.value >= m + TransferMinutes &&
      IsFirstDeparture(Column(everline.lines, EverlineColumn),
                       CurrentMinutes(currentTime, tz) + m + TransferMinutes,
                       CurrentMinutes(currentTime, tz) + r.value))
  {
    match everline
    case ReadFailed => None
    case Lines(lines) =>
      var current := CurrentMinutes(currentTime, tz);
      var leg := m + TransferMinutes;
      match FirstAtLeast(Column(lines, EverlineColumn), leg + current)
      case None => None
      case Some(t) => Some(t - current)
  }
}
