/**
 * Ranking of transport options (`TransportService`): a weighted score per
 * option, removal of options without a departure, a stable descending sort,
 * and the top three per direction.
 */
module Transport {
  import opened Wrappers
  import opened Ascii
  import opened Clock
  import Sorting

  const MaxWaitingTime: int := 30
  const MaxTotalTime: int := 90
  const MaxCost: int := 2800
  const WaitingWeight: real := 0.4
  const TotalTimeWeight: real := 0.4
  const CostWeight: real := 0.2

  /** Fewer than this many free seats costs `SeatPenalty` points. */
  const SeatThreshold: int := 10
  const SeatPenalty: real := -10.0

  const DiscountRoute: string := "820"
  const DiscountFare: int := 1450
  const StandardFare: int := 2800
  const DiscountBonus: int := 5
  const DefaultTravelTime: int := 60

  const ShuttleRide: int := 15
  const CompositeRide: int := 16 + 10
  const CompositeFare: int := 1450

  const ValidDays: seq<string> := ["MON", "TUE", "WED", "THU", "FRI"]

  /** The `type` label of an option. */
  datatype OptionKind =
    | GiheungDirectShuttle        // Giheung station to the university
    | EverlineThenMyongjiShuttle  // light rail, then the Myongji-station shuttle
    | MjuToGiheungShuttle         // the university to Giheung station
    | MyongjiShuttleThenEverline  // the Myongji-station shuttle, then light rail
    | Bus(route: string)

  /** Times in minutes, cost in won, instants in epoch milliseconds. */
  datatype TransportOption = TransportOption(
    kind: OptionKind,
    waitingTime: Option<int>,
    totalTime: Option<int>,
    cost: int,
    seats: Option<int>,
    bonus: Option<int>,
    departureTime: Option<int>,
    arrivalTime: Option<int>)

  /** An option spread with its `score`. */
  datatype ScoredOption = ScoredOption(option: TransportOption, score: real)

  /** Seat count as the bus feed reports it: a number or "정보 없음" (no information). */
  datatype SeatInfo = SeatsUnknown | SeatsLeft(count: int)

  /** One arrival from the live bus feed, its texts already converted by `parseInt`. */
  datatype BusArrival = BusArrival(route: string, arrivalMinutes: int, seats: SeatInfo)

  /** The lookups and bus arrivals that feed one direction. */
  datatype DirectionInputs = DirectionInputs(
    directShuttle: Option<int>,
    firstLeg: Option<int>,
    secondLeg: Option<int>,
    buses: seq<BusArrival>)

  datatype RankedOptions = RankedOptions(gToM: seq<ScoredOption>, mToG: seq<ScoredOption>)

  datatype RankingError = InvalidDay

  predicate Available(o: TransportOption) {
    o.waitingTime.Some? && o.totalTime.Some?
  }

  function SeatPenaltyOf(seats: Option<int>): real {
    if seats.Some? && seats.value < SeatThreshold then SeatPenalty else 0.0
  }

  /** `option.bonus || 0`. */
  function BonusOf(bonus: Option<int>): real {
    bonus.GetOr(0) as real
  }

  function ScoreValue(w: int, t: int, c: int, seats: Option<int>, bonus: Option<int>): real {
    var waitingScore := (MaxWaitingTime - w) as real / MaxWaitingTime as real * 100.0 * WaitingWeight;
    var totalTimeScore := (MaxTotalTime - t) as real / MaxTotalTime as real * 100.0 * TotalTimeWeight;
    var costScore := (MaxCost - c) as real / MaxCost as real * 100.0 * CostWeight;
    waitingScore + totalTimeScore + costScore + SeatPenaltyOf(seats) + BonusOf(bonus)
  }

  /**
   * The score of one option, `None` standing for `-Infinity`. Scaled by 1260
   * it is an integer combination of the inputs.
   */
  function Score(o: TransportOption): (r: Option<real>)
    ensures r.Some? <==> Available(o)
    ensures r.Some? ==>
      1260.0 * r.value ==
        (1680 * (MaxWaitingTime - o.waitingTime.value) + 560 * (MaxTotalTime - o.totalTime.value)
         + 9 * (MaxCost - o.cost)) as real
        + 1260.0 * (SeatPenaltyOf(o.seats) + BonusOf(o.bonus))
  {
    if o.waitingTime.None? || o.totalTime.None? then None
    else Some(ScoreValue(o.waitingTime.value, o.totalTime.value, o.cost, o.seats, o.bonus))
  }

  /** With everything else fixed, more waiting, more travel time or more cost scores strictly less. */
  lemma ScoreDecreasing(w: int, t: int, c: int, seats: Option<int>, bonus: Option<int>, d: int)
    requires d > 0
    ensures ScoreValue(w + d, t, c, seats, bonus) < ScoreValue(w, t, c, seats, bonus)
    ensures ScoreValue(w, t + d, c, seats, bonus) < ScoreValue(w, t, c, seats, bonus)
    ensures ScoreValue(w, t, c + d, seats, bonus) < ScoreValue(w, t, c, seats, bonus)
  {
  }

  /** A worked example: waiting 10, total 40, cost 0 scores 620/9 and outranks (waiting 5, total 80, cost 2800) at 340/9. */
  lemma ExampleScores()
    ensures ScoreValue(10, 40, 0, None, None) == 620.0 / 9.0
    ensures ScoreValue(5, 80, 2800, None, None) == 340.0 / 9.0
    ensures ScoreValue(10, 40, 0, None, None) > ScoreValue(5, 80, 2800, None, None)
  {
  }

  /** The `map` and `filter` steps: score every option and keep the finite scores. */
  function Scored(opts: seq<TransportOption>): (r: seq<ScoredOption>)
    ensures |r| <= |opts|
    ensures forall x :: x in r ==> x.option in opts && Available(x.option) && Score(x.option) == Some(x.score)
  {
    if opts == [] then []
    else
      var rest := Scored(opts[1..]);
      match Score(opts[0])
      case None => rest
      case Some(s) => [ScoredOption(opts[0], s)] + rest
  }

  function OptionsOf(s: seq<ScoredOption>): (r: seq<TransportOption>)
    ensures |r| == |s|
    ensures forall i :: 0 <= i < |s| ==> r[i] == s[i].option
  {
    if s == [] then [] else [s[0].option] + OptionsOf(s[1..])
  }

  /**
   * Nothing is added and nothing else is dropped: every available option is
   * kept exactly as often as it occurs, every other option is gone.
   */
  lemma {:induction false} ScoredKeepsAvailable(opts: seq<TransportOption>, o: TransportOption)
    ensures multiset(OptionsOf(Scored(opts)))[o] == if Available(o) then multiset(opts)[o] else 0
  {
    if opts != [] {
      var rest := Scored(opts[1..]);
      ScoredKeepsAvailable(opts[1..], o);
      assert multiset(opts)[o] == multiset(opts[1..])[o] + (if opts[0] == o then 1 else 0) by {
        assert opts == [opts[0]] + opts[1..];
      }
      if Available(opts[0]) {
        var x := ScoredOption(opts[0], Score(opts[0]).value);
        assert Scored(opts) == [x] + rest;
        assert OptionsOf([x] + rest) == [opts[0]] + OptionsOf(rest);
      } else {
        assert Scored(opts) == rest;
      }
    }
  }

  function NegatedScore(x: ScoredOption): real {
    -x.score
  }

  /** `calculateScores`: the scored options, best first; equal scores keep their input order. */
  function CalculateScores(opts: seq<TransportOption>): (r: seq<ScoredOption>)
    ensures multiset(r) == multiset(Scored(opts))
    ensures forall i, j :: 0 <= i < j < |r| ==> r[i].score >= r[j].score
    ensures forall i :: 0 <= i < |r| ==> Available(r[i].option) && Score(r[i].option) == Some(r[i].score)
  {
    var r := Sorting.SortBy(Scored(opts), NegatedScore);
    NegatedAscendingIsDescending(r);
    Sorting.SortByMembers(Scored(opts), NegatedScore);
    r
  }

  lemma NegatedAscendingIsDescending(r: seq<ScoredOption>)
    requires Sorting.SortedBy(r, NegatedScore)
    ensures forall i, j :: 0 <= i < j < |r| ==> r[i].score >= r[j].score
  {
    forall i, j | 0 <= i < j < |r| ensures r[i].score >= r[j].score {
      assert NegatedScore(r[i]) <= NegatedScore(r[j]);
    }
  }

  /** `busTravelTimes[route] || 60`. */
  function TravelTime(route: string): (t: int)
    ensures t == DefaultTravelTime <==> route !in {"5005", "5600", "820", "5003B", "5003A"}
  {
    if route == "5005" || route == "5600" then 43
    else if route == "820" then 47
    else if route == "5003B" || route == "5003A" then 59
    else DefaultTravelTime
  }

  /**
   * `calculateArrivalTime`: the departure is the wait after `now`, the
   * arrival the total time after the departure.
   */
  function CalculateArrivalTime(now: int, waitingTime: int, totalTime: int): (r: (int, int))
    ensures r.0 == AfterMinutes(now, waitingTime)
    ensures r.1 == AfterMinutes(now, waitingTime + totalTime)
    ensures totalTime >= 0 ==> r.0 <= r.1
  {
    var departure := AfterMinutes(now, waitingTime);
    (departure, AfterMinutes(departure, totalTime))
  }

  /** One bus arrival as a transport option. */
  function BusOption(now: int, b: BusArrival): (r: TransportOption)
    ensures Available(r) && r.waitingTime == Some(b.arrivalMinutes)
    ensures r.totalTime == Some(TravelTime(b.route))
    ensures r.seats.None? <==> b.seats.SeatsUnknown?
    ensures b.seats.SeatsLeft? ==> r.seats == Some(b.seats.count)
    ensures b.route == DiscountRoute ==> r.cost == 1450 && r.bonus == Some(5)
    ensures b.route != DiscountRoute ==> r.cost == 2800 && r.bonus == Some(0)
    ensures r.cost <= StandardFare && (r.cost < StandardFare <==> b.route == DiscountRoute)
    ensures BonusOf(r.bonus) > 0.0 <==> b.route == DiscountRoute
    ensures r.departureTime == Some(now + b.arrivalMinutes * MsPerMinute)
    ensures r.arrivalTime == Some(r.departureTime.value + TravelTime(b.route) * MsPerMinute)
  {
    var travel := TravelTime(b.route);
    var times := CalculateArrivalTime(now, b.arrivalMinutes, travel);
    TransportOption(
      Bus(b.route),
      Some(b.arrivalMinutes),
      Some(travel),
      if b.route == DiscountRoute then DiscountFare else StandardFare,
      if b.seats.SeatsLeft? then Some(b.seats.count) else None,
      Some(if b.route == DiscountRoute then DiscountBonus else 0),
      Some(times.0),
      Some(times.1))
  }

  function BusOptions(now: int, buses: seq<BusArrival>): (r: seq<TransportOption>)
    ensures |r| == |buses|
    ensures forall i :: 0 <= i < |buses| ==> r[i] == BusOption(now, buses[i])
  {
    if buses == [] then [] else [BusOption(now, buses[0])] + BusOptions(now, buses[1..])
  }

  /**
   * Route 820's discounted fare and bonus outweigh its longer ride: it
   * outranks any other route arriving at the same time with the same seat
   * information.
   */
  lemma DiscountRouteOutranks(now: int, eta: int, seats: SeatInfo, other: string)
    requires other != DiscountRoute
    ensures Score(BusOption(now, BusArrival(DiscountRoute, eta, seats))).value
          > Score(BusOption(now, BusArrival(other, eta, seats))).value
  {
    var t := TravelTime(other);
    assert t >= 43;
  }

  /** The direct shuttle: 15 minutes' ride, free. */
  function DirectShuttleOption(kind: OptionKind, now: int, wait: Option<int>): (r: TransportOption)
    ensures Available(r) <==> wait.Some?
    ensures r.waitingTime == wait && r.cost == 0
    ensures r.totalTime == Some(15)
    ensures r.departureTime.Some? <==> wait.Some?
    ensures wait.Some? ==>
      r.departureTime == Some(AfterMinutes(now, wait.value)) && r.arrivalTime == Some(AfterMinutes(now, wait.value + 15))
  {
    var times := if wait.Some? then CalculateArrivalTime(now, wait.value, ShuttleRide) else (0, 0);
    TransportOption(kind, wait, Some(ShuttleRide), 0, None, None,
      if wait.Some? then Some(times.0) else None,
      if wait.Some? then Some(times.1) else None)
  }

  /**
   * The two-leg option: its wait is the sum of both legs when both exist.
   * Its arrival is computed with the sum of the legs as the total time, as
   * the source does, not with the 26 minutes it reports.
   */
  function CompositeOption(kind: OptionKind, now: int, first: Option<int>, second: Option<int>): (r: TransportOption)
    ensures Available(r) <==> first.Some? && second.Some?
    ensures r.waitingTime.Some? ==> first.Some? && second.Some? && r.waitingTime.value == first.value + second.value
    ensures r.totalTime == Some(CompositeRide) && r.cost == CompositeFare
    ensures first.Some? && second.Some? ==>
      && r.departureTime == Some(AfterMinutes(now, first.value))
      && r.arrivalTime == Some(AfterMinutes(now, first.value + (first.value + second.value)))
    ensures r.departureTime.Some? <==> Available(r)
  {
    var both := first.Some? && second.Some?;
    var times := if both then CalculateArrivalTime(now, first.value, first.value + second.value) else (0, 0);
    TransportOption(kind,
      if both then Some(first.value + second.value) else None,
      Some(CompositeRide), CompositeFare, None, None,
      if both then Some(times.0) else None,
      if both then Some(times.1) else None)
  }

  /**
   * The Giheung-to-university candidates in the order the ranking sees them:
   * the direct shuttle, then the light rail with the Myongji-station
   * shuttle, then one option per bus in feed order. Under the stable sort
   * this order decides ties.
   */
  function GtoMOptions(now: int, inputs: DirectionInputs): (r: seq<TransportOption>)
    ensures |r| == 2 + |inputs.buses|
    ensures r[0].kind == GiheungDirectShuttle && r[0].waitingTime == inputs.directShuttle
    ensures r[1].kind == EverlineThenMyongjiShuttle
    ensures forall i :: 2 <= i < |r| ==> r[i] == BusOption(now, inputs.buses[i - 2])
  {
    [DirectShuttleOption(GiheungDirectShuttle, now, inputs.directShuttle),
     CompositeOption(EverlineThenMyongjiShuttle, now, inputs.firstLeg, inputs.secondLeg)]
    + BusOptions(now, inputs.buses)
  }

  /** The university-to-Giheung candidates, in the same layout as `GtoMOptions`. */
  function MtoGOptions(now: int, inputs: DirectionInputs): (r: seq<TransportOption>)
    ensures |r| == 2 + |inputs.buses|
    ensures r[0].kind == MjuToGiheungShuttle && r[0].waitingTime == inputs.directShuttle
    ensures r[1].kind == MyongjiShuttleThenEverline
    ensures forall i :: 2 <= i < |r| ==> r[i] == BusOption(now, inputs.buses[i - 2])
  {
    [DirectShuttleOption(MjuToGiheungShuttle, now, inputs.directShuttle),
     CompositeOption(MyongjiShuttleThenEverline, now, inputs.firstLeg, inputs.secondLeg)]
    + BusOptions(now, inputs.buses)
  }

  /** `slice(0, 3)`. */
  function Top3<T>(s: seq<T>): (r: seq<T>)
    ensures |r| <= 3 && r <= s
    ensures |s| >= 3 ==> |r| == 3
    ensures |s| < 3 ==> r == s
  {
    if |s| <= 3 then s else s[..3]
  }

  predicate IsValidDay(day: string) {
    ToUpper(day) in ValidDays
  }

  /** `getRankedOptions`: weekday check, then both directions scored, sorted and cut to three. */
  function GetRankedOptions(now: int, day: string, gToM: DirectionInputs, mToG: DirectionInputs)
    : (r: Result<RankedOptions, RankingError>)
    ensures r.Failure? <==> !IsValidDay(day)
    ensures r.Success? ==>
      && r.value.gToM == Top3(CalculateScores(GtoMOptions(now, gToM)))
      && r.value.mToG == Top3(CalculateScores(MtoGOptions(now, mToG)))
  {
    if !IsValidDay(day) then Failure(InvalidDay)
    else Success(RankedOptions(
      Top3(CalculateScores(GtoMOptions(now, gToM))),
      Top3(CalculateScores(MtoGOptions(now, mToG)))))
  }

  /**
   * The first three of `calculateScores`: at most three options, best first,
   * each with a wait and a total time, and none of the dropped options
   * scores higher than one that was kept.
   */
  lemma TopThreeOfScores(opts: seq<TransportOption>)
    ensures var top := Top3(CalculateScores(opts));
      && |top| <= 3
      && (forall x :: x in top ==> Available(x.option) && x.option in opts)
      && (forall i, j :: 0 <= i < j < |top| ==> top[i].score >= top[j].score)
      && (forall x, y :: x in top && y in Scored(opts) && y !in top ==> x.score >= y.score)
  {
    TopThreeKept(opts);
    TopThreeBest(opts);
  }

  lemma TopThreeKept(opts: seq<TransportOption>)
    ensures forall x :: x in Top3(CalculateScores(opts)) ==> Available(x.option) && x.option in opts
  {
    var all := CalculateScores(opts);
    var top := Top3(all);
    forall x | x in top ensures Available(x.option) && x.option in opts {
      assert x in all;
      assert x in multiset(Scored(opts));
    }
  }

  lemma TopThreeBest(opts: seq<TransportOption>)
    ensures var top := Top3(CalculateScores(opts));
      forall x, y :: x in top && y in Scored(opts) && y !in top ==> x.score >= y.score
  {
    var all := CalculateScores(opts);
    var top := Top3(all);
    assert forall k :: 0 <= k < |top| ==> top[k] == all[k];
    forall x, y | x in top && y in Scored(opts) && y !in top ensures x.score >= y.score {
      var i :| 0 <= i < |top| && top[i] == x;
      assert y in multiset(all);
      var j :| 0 <= j < |all| && all[j] == y;
      assert j >= |top|;
    }
  }

  /** Both directions of a successful ranking are such top-three lists. */
  lemma RankedListsAreTopThree(now: int, day: string, gToM: DirectionInputs, mToG: DirectionInputs)
    requires IsValidDay(day)
    ensures var r := GetRankedOptions(now, day, gToM, mToG);
      && r.Success?
      && |r.value.gToM| <= 3 && |r.value.mToG| <= 3
      && (forall x :: x in r.value.gToM ==> Available(x.option) && x.option in GtoMOptions(now, gToM))
      && (forall x :: x in r.value.mToG ==> Available(x.option) && x.option in MtoGOptions(now, mToG))
  {
    TopThreeOfScores(GtoMOptions(now, gToM));
    TopThreeOfScores(MtoGOptions(now, mToG));
  }

  /** A Saturday request is refused; weekday names are accepted in any ASCII case. */
  lemma DayCheckExamples()
    ensures !IsValidDay("SAT")
    ensures IsValidDay("fri")
  {
    assert ToUpper("SAT") == "SAT";
    assert ToUpper("fri") == "FRI";
  }
}
