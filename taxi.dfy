/**
 * The taxi group matching engine (`TaxiService`): riders heading for the
 * same destination are gathered into groups of at most four. Groups live in
 * a map keyed by their four-digit id and in a priority queue ordered by a
 * stored priority; expired groups are swept from both.
 */
module Taxi {
  import opened Wrappers
  import opened Clock
  import opened Ascii
  import Sorting

  const MaxGroupSize: nat := 4

  /** Groups older than thirty minutes are swept. */
  const ExpiryMs: int := 30 * 60 * 1000

  const WaitingTimeWeight: real := 0.7
  const MemberCountWeight: real := 0.3
  const WaitingCapMinutes: real := 30.0

  /** A coordinate after `parseFloat`; `None` is NaN or a missing value. */
  type Coordinate = Option<real>

  datatype GpsPoint = GpsPoint(lat: Coordinate, lng: Coordinate)
  datatype GpsBounds = GpsBounds(sw: GpsPoint, ne: GpsPoint)

  datatype LocationData = LocationData(latitude: Coordinate, longitude: Coordinate, to: string, userId: string)

  /** Times are epoch milliseconds. */
  datatype GroupMember = GroupMember(userId: string, joinedAt: int)

  datatype TaxiGroup = TaxiGroup(
    id: string,
    destination: string,
    members: seq<GroupMember>,
    createdAt: int,
    isFull: bool)

  /** An element of the priority queue; the group itself is `activeGroups[groupId]`. */
  datatype QueueEntry = QueueEntry(groupId: string, priority: real)

  datatype GroupInfo = GroupInfo(groupId: string, memberCount: nat, isFull: bool)

  /** The zone messages of `processLocation`, one constructor per text. */
  datatype ZoneMessage = AtGiheungZone | NotAtGiheungZone | AtMjuZone | NotAtMjuZone | InvalidDestination

  datatype LocationUpdateResponse = LocationUpdateResponse(
    success: bool,
    message: ZoneMessage,
    data: LocationData,
    isValidLocation: bool,
    group: Option<GroupInfo>)

  datatype GroupStatus =
    | GroupNotFound
    | GroupFound(groupId: string, memberCount: nat, memberIds: seq<string>, isFull: bool, destination: string)

  // ----- configuration -----

  function CoordAt(c: seq<Coordinate>, i: nat): Coordinate {
    if i < |c| then c[i] else None
  }

  /** `MJU_BOUNDS` is read as lat, lng of the south-west corner, then lat, lng of the north-east corner. */
  function MjuBounds(c: seq<Coordinate>): GpsBounds {
    GpsBounds(GpsPoint(CoordAt(c, 0), CoordAt(c, 1)), GpsPoint(CoordAt(c, 2), CoordAt(c, 3)))
  }

  /** `GH_BOUNDS` is read as both latitudes first, then both longitudes. */
  function GhBounds(c: seq<Coordinate>): GpsBounds {
    GpsBounds(GpsPoint(CoordAt(c, 0), CoordAt(c, 2)), GpsPoint(CoordAt(c, 1), CoordAt(c, 3)))
  }

  /** The two settings are parsed in different layouts: they differ by swapping the middle values. */
  lemma BoundsLayouts(a: Coordinate, b: Coordinate, c: Coordinate, d: Coordinate)
    ensures GhBounds([a, b, c, d]) == MjuBounds([a, c, b, d])
    ensures GhBounds([a, b, c, d]).sw.lng == c && MjuBounds([a, b, c, d]).sw.lng == b
  {
  }

  function Min(a: real, b: real): real { if a <= b then a else b }
  function Max(a: real, b: real): real { if a <= b then b else a }

  /** The rectangle test that `isLocationInBounds` computes but does not return. */
  predicate InRectangle(lat: Coordinate, lng: Coordinate, b: GpsBounds) {
    && lat.Some? && lng.Some?
    && b.sw.lat.Some? && b.ne.lat.Some? && b.sw.lng.Some? && b.ne.lng.Some?
    && Min(b.sw.lat.value, b.ne.lat.value) <= lat.value <= Max(b.sw.lat.value, b.ne.lat.value)
    && Min(b.sw.lng.value, b.ne.lng.value) <= lng.value <= Max(b.sw.lng.value, b.ne.lng.value)
  }

  /** `isLocationInBounds`: accepts every location, inside the rectangle or not. */
  function IsLocationInBounds(lat: Coordinate, lng: Coordinate, b: GpsBounds): (r: bool)
    ensures r
    ensures !InRectangle(lat, lng, b) ==> r
  {
    var inRectangle := InRectangle(lat, lng, b);
    true
  }

  // ----- groups -----

  /** `to.toLowerCase()` is "mju" or "gh". */
  predicate IsValidDestination(to: string) {
    ToLower(to) == "mju" || ToLower(to) == "gh"
  }

  /** The test of `findAvailableGroup`: the destination compared exactly, as sent. */
  predicate Joinable(g: TaxiGroup, destination: string) {
    g.destination == destination && !g.isFull && |g.members| < MaxGroupSize
  }

  ghost predicate WellFormed(g: TaxiGroup) {
    1 <= |g.members| <= MaxGroupSize && (g.isFull <==> |g.members| == MaxGroupSize)
  }

  /** The group `createNewGroup` builds: the rider alone, created now, not full. */
  function NewGroup(id: string, destination: string, userId: string, now: int): (g: TaxiGroup)
    ensures WellFormed(g) && Joinable(g, destination)
    ensures g.id == id && g.createdAt == now
    ensures |g.members| == 1 && g.members[0].userId == userId && g.members[0].joinedAt == now
  {
    TaxiGroup(id, destination, [GroupMember(userId, now)], now, false)
  }

  /** `members.push` and, at four members, `isFull = true`. */
  function Joined(g: TaxiGroup, userId: string, now: int): (r: TaxiGroup)
    ensures r.id == g.id && r.destination == g.destination && r.createdAt == g.createdAt
    ensures |r.members| == |g.members| + 1 && r.members[..|g.members|] == g.members
    ensures r.members[|g.members|] == GroupMember(userId, now)
    ensures r.isFull <==> g.isFull || |g.members| + 1 >= MaxGroupSize
  {
    var members := g.members + [GroupMember(userId, now)];
    g.(members := members, isFull := if |members| >= MaxGroupSize then true else g.isFull)
  }

  /**
   * Joining a joinable group adds exactly one member at the end, never goes
   * past four, and marks the group full exactly when it reaches four.
   */
  lemma JoinKeepsGroupBound(g: TaxiGroup, destination: string, userId: string, now: int)
    requires WellFormed(g) && Joinable(g, destination)
    ensures var j := Joined(g, userId, now);
      && WellFormed(j)
      && j.members == g.members + [GroupMember(userId, now)]
      && (j.isFull <==> |g.members| == MaxGroupSize - 1)
      && j.id == g.id && j.destination == g.destination && j.createdAt == g.createdAt
  {
  }

  /** A full group is never joinable, whatever the destination. */
  lemma FullGroupNotJoinable(g: TaxiGroup, destination: string)
    requires WellFormed(g) && |g.members| == MaxGroupSize
    ensures !Joinable(g, destination)
  {
  }

  /**
   * `calculatePriority`: minus the weighted sum of the waiting time (capped
   * at thirty minutes) and the fill ratio; lower values are more urgent.
   */
  function CalculatePriority(g: TaxiGroup, now: int): (r: real)
    ensures g.createdAt <= now && |g.members| <= MaxGroupSize ==> -1.0 <= r <= 0.0
  {
    var waitingTime := (now - g.createdAt) as real / MsPerMinute as real;
    var normalizedWaitingScore := Min(waitingTime, WaitingCapMinutes) / WaitingCapMinutes;
    var normalizedMemberScore := |g.members| as real / MaxGroupSize as real;
    -(normalizedWaitingScore * WaitingTimeWeight + normalizedMemberScore * MemberCountWeight)
  }

  /**
   * Among groups of the same age, more members means a more urgent (lower)
   * priority; among groups of the same size, an older group is at least as
   * urgent.
   */
  lemma PriorityOrder(g: TaxiGroup, h: TaxiGroup, now: int)
    ensures g.createdAt == h.createdAt && |g.members| < |h.members| ==> CalculatePriority(h, now) < CalculatePriority(g, now)
    ensures |g.members| == |h.members| && g.createdAt <= h.createdAt ==> CalculatePriority(g, now) <= CalculatePriority(h, now)
  {
  }

  function PriorityOf(e: QueueEntry): real { e.priority }
  function GroupIdOf(e: QueueEntry): string { e.groupId }

  ghost predicate Queued(q: seq<QueueEntry>, id: string) {
    exists i :: 0 <= i < |q| && q[i].groupId == id
  }

  predicate JoinableEntry(e: QueueEntry, groups: map<string, TaxiGroup>, destination: string) {
    e.groupId in groups && Joinable(groups[e.groupId], destination)
  }

  /** The queue position `findAvailableGroup` settles on: the first joinable group. */
  function FirstJoinable(q: seq<QueueEntry>, groups: map<string, TaxiGroup>, destination: string): (r: Option<nat>)
    ensures r.Some? ==> r.value < |q| && JoinableEntry(q[r.value], groups, destination)
    ensures r.Some? ==> forall j :: 0 <= j < r.value ==> !JoinableEntry(q[j], groups, destination)
    ensures r.None? ==> forall j :: 0 <= j < |q| ==> !JoinableEntry(q[j], groups, destination)
  {
    if q == [] then None
    else if JoinableEntry(q[0], groups, destination) then Some(0)
    else
      match FirstJoinable(q[1..], groups, destination)
      case None => None
      case Some(k) => Some(k + 1)
  }

  // ----- removal from the queue -----

  /** The queue without the entries of the given groups, order kept. */
  function RemoveIds(q: seq<QueueEntry>, ids: set<string>): (r: seq<QueueEntry>)
    ensures |r| <= |q|
    ensures forall i :: 0 <= i < |r| ==> r[i].groupId !in ids
  {
    if q == [] then []
    else if q[0].groupId in ids then RemoveIds(q[1..], ids)
    else [q[0]] + RemoveIds(q[1..], ids)
  }

  /** An entry survives exactly when it was queued and its group is not removed. */
  lemma {:induction false} RemoveIdsMembers(q: seq<QueueEntry>, ids: set<string>, e: QueueEntry)
    ensures e in RemoveIds(q, ids) <==> e in q && e.groupId !in ids
  {
    if q != [] {
      RemoveIdsMembers(q[1..], ids, e);
      assert e in q <==> e == q[0] || e in q[1..] by {
        assert q == [q[0]] + q[1..];
      }
    }
  }

  lemma {:induction false} RemoveNothing(q: seq<QueueEntry>)
    ensures RemoveIds(q, {}) == q
  {
    if q != [] {
      RemoveNothing(q[1..]);
      assert q == [q[0]] + q[1..];
    }
  }

  lemma {:induction false} RemoveIdsSorted(q: seq<QueueEntry>, ids: set<string>)
    requires Sorting.SortedBy(q, PriorityOf)
    ensures Sorting.SortedBy(RemoveIds(q, ids), PriorityOf)
  {
    if q != [] {
      RemoveIdsSorted(q[1..], ids);
      var rest := RemoveIds(q[1..], ids);
      forall i | 0 <= i < |rest| ensures q[0].priority <= rest[i].priority {
        RemoveIdsMembers(q[1..], ids, rest[i]);
        var j :| 0 <= j < |q[1..]| && q[1..][j] == rest[i];
        assert q[j + 1] == rest[i];
      }
    }
  }

  lemma {:induction false} RemoveIdsDistinct(q: seq<QueueEntry>, ids: set<string>)
    requires Sorting.DistinctBy(q, GroupIdOf)
    ensures Sorting.DistinctBy(RemoveIds(q, ids), GroupIdOf)
  {
    if q != [] {
      DistinctTail(q);
      RemoveIdsDistinct(q[1..], ids);
      var rest := RemoveIds(q[1..], ids);
      forall i | 0 <= i < |rest| ensures q[0].groupId != rest[i].groupId {
        RemoveIdsMembers(q[1..], ids, rest[i]);
        var j :| 0 <= j < |q[1..]| && q[1..][j] == rest[i];
        assert q[j + 1] == rest[i];
      }
    }
  }

  lemma DistinctTail(q: seq<QueueEntry>)
    requires q != [] && Sorting.DistinctBy(q, GroupIdOf)
    ensures Sorting.DistinctBy(q[1..], GroupIdOf)
  {
    forall i, j | 0 <= i < j < |q[1..]| ensures q[1..][i].groupId != q[1..][j].groupId {
      assert q[1..][i] == q[i + 1] && q[1..][j] == q[j + 1];
    }
  }

  /** Removing two sets of groups one after the other removes their union. */
  lemma {:induction false} RemoveIdsTwice(q: seq<QueueEntry>, a: set<string>, b: set<string>)
    ensures RemoveIds(RemoveIds(q, a), b) == RemoveIds(q, a + b)
  {
    if q != [] {
      RemoveIdsTwice(q[1..], a, b);
    }
  }

  lemma {:induction false} RemoveAbsentId(q: seq<QueueEntry>, id: string)
    requires forall i :: 0 <= i < |q| ==> q[i].groupId != id
    ensures RemoveIds(q, {id}) == q
  {
    if q != [] {
      assert forall i :: 0 <= i < |q[1..]| ==> q[1..][i] == q[i + 1];
      RemoveAbsentId(q[1..], id);
      assert q == [q[0]] + q[1..];
    }
  }

  /** `splice(index, 1)` at the only entry of a group removes that group. */
  lemma {:induction false} SpliceRemovesId(q: seq<QueueEntry>, k: nat)
    requires k < |q| && Sorting.DistinctBy(q, GroupIdOf)
    ensures q[..k] + q[k + 1..] == RemoveIds(q, {q[k].groupId})
  {
    var id := q[k].groupId;
    if k == 0 {
      forall i | 0 <= i < |q[1..]| ensures q[1..][i].groupId != id {
        assert q[1..][i] == q[i + 1];
      }
      RemoveAbsentId(q[1..], id);
      assert q[..0] + q[1..] == q[1..];
    } else {
      var t := q[1..];
      DistinctTail(q);
      SpliceRemovesId(t, k - 1);
      assert t[k - 1] == q[k];
      assert q[0].groupId != id;
      assert RemoveIds(q, {id}) == [q[0]] + RemoveIds(t, {id});
      SpliceCons(q, k);
    }
  }

  lemma SpliceCons(q: seq<QueueEntry>, k: nat)
    requires 0 < k < |q|
    ensures [q[0]] + (q[1..][..k - 1] + q[1..][k..]) == q[..k] + q[k + 1..]
  {
    assert [q[0]] + q[1..][..k - 1] == q[..k];
    assert q[1..][k..] == q[k + 1..];
  }

  predicate Expired(g: TaxiGroup, now: int) {
    g.createdAt < now - ExpiryMs
  }

  ghost function ExpiredIds(groups: map<string, TaxiGroup>, now: int): set<string> {
    set id | id in groups && Expired(groups[id], now)
  }

  ghost function FreshGroups(groups: map<string, TaxiGroup>, now: int): map<string, TaxiGroup> {
    map id | id in groups && !Expired(groups[id], now) :: groups[id]
  }

  /** One step of the sweep over the key set: the removed ids stay the expired ids already visited. */
  lemma SweepStep(groups: map<string, TaxiGroup>, now: int, pending: set<string>, removed: set<string>, id: string)
    requires pending <= groups.Keys && id in pending
    requires removed == ExpiredIds(groups, now) - pending
    ensures id in groups - removed
    ensures Expired(groups[id], now) ==>
      && removed + {id} == ExpiredIds(groups, now) - (pending - {id})
      && (groups - removed) - {id} == groups - (removed + {id})
    ensures !Expired(groups[id], now) ==> removed == ExpiredIds(groups, now) - (pending - {id})
  {
  }

  /** The groups the sweep keeps are the map minus the expired ids. */
  lemma FreshIsNotExpired(groups: map<string, TaxiGroup>, now: int)
    ensures FreshGroups(groups, now) == groups - ExpiredIds(groups, now)
  {
  }

  /** The queue with every stored priority recomputed at `now`, order kept. */
  ghost function Reprioritized(q: seq<QueueEntry>, groups: map<string, TaxiGroup>, now: int): seq<QueueEntry>
    requires forall i :: 0 <= i < |q| ==> q[i].groupId in groups
  {
    seq(|q|, i requires 0 <= i < |q| => QueueEntry(q[i].groupId, CalculatePriority(groups[q[i].groupId], now)))
  }

  /** `findIndex` over the queue by group id. */
  method IndexOfGroup(q: seq<QueueEntry>, groupId: string) returns (k: int)
    ensures -1 <= k < |q|
    ensures k == -1 <==> forall i :: 0 <= i < |q| ==> q[i].groupId != groupId
    ensures k >= 0 ==> q[k].groupId == groupId && forall i :: 0 <= i < k ==> q[i].groupId != groupId
  {
    k := 0;
    while k < |q|
      invariant 0 <= k <= |q|
      invariant forall i :: 0 <= i < k ==> q[i].groupId != groupId
    {
      if q[k].groupId == groupId {
        return;
      }
      k := k + 1;
    }
    k := -1;
  }

  /** The recomputation pass of `updatePriorities`, entry by entry in queue order. */
  method RecomputePriorities(q: seq<QueueEntry>, groups: map<string, TaxiGroup>, now: int) returns (p: seq<QueueEntry>)
    requires forall i :: 0 <= i < |q| ==> q[i].groupId in groups
    ensures p == Reprioritized(q, groups, now)
  {
    p := q;
    var i := 0;
    while i < |p|
      invariant 0 <= i <= |p| == |q|
      invariant forall j :: 0 <= j < i ==> p[j] == QueueEntry(q[j].groupId, CalculatePriority(groups[q[j].groupId], now))
      invariant forall j :: i <= j < |p| ==> p[j] == q[j]
    {
      p := p[i := QueueEntry(p[i].groupId, CalculatePriority(groups[p[i].groupId], now))];
      i := i + 1;
    }
  }

  // ----- the service invariant, on values -----

  /**
   * The queue and the map hold the same groups, each once; every group has
   * one to four members, is full exactly at four and is stored under its own
   * id; the queue is ascending by stored priority.
   */
  ghost predicate ValidState(groups: map<string, TaxiGroup>, q: seq<QueueEntry>) {
    && Sorting.DistinctBy(q, GroupIdOf)
    && IdsKnown(groups, q)
    && AllQueued(groups, q)
    && GroupsWellFormed(groups)
    && Sorting.SortedBy(q, PriorityOf)
  }

  ghost predicate IdsKnown(groups: map<string, TaxiGroup>, q: seq<QueueEntry>) {
    forall i :: 0 <= i < |q| ==> q[i].groupId in groups
  }

  ghost predicate AllQueued(groups: map<string, TaxiGroup>, q: seq<QueueEntry>) {
    forall id :: id in groups ==> Queued(q, id)
  }

  ghost predicate GroupsWellFormed(groups: map<string, TaxiGroup>) {
    forall id :: id in groups ==> groups[id].id == id && WellFormed(groups[id])
  }

  /** Every id of the new queue is known when each entry is an old entry or has a known id. */
  lemma EntriesKnown(q: seq<QueueEntry>, r: seq<QueueEntry>, groups: map<string, TaxiGroup>)
    requires IdsKnown(groups, q)
    requires forall y :: y in r ==> y in q || y.groupId in groups
    ensures IdsKnown(groups, r)
  {
    forall i | 0 <= i < |r| ensures r[i].groupId in groups {
      assert r[i] in r;
      if r[i] in q {
        var j :| 0 <= j < |q| && q[j] == r[i];
      }
    }
  }

  /** Every group stays queued when every old entry is still there. */
  lemma EntriesKept(q: seq<QueueEntry>, r: seq<QueueEntry>, groups: map<string, TaxiGroup>)
    requires AllQueued(groups, q)
    requires forall y :: y in q ==> y in r
    ensures AllQueued(groups, r)
  {
    forall id | id in groups ensures Queued(r, id) {
      var j :| 0 <= j < |q| && q[j].groupId == id;
      assert q[j] in q;
      var i :| 0 <= i < |r| && r[i] == q[j];
    }
  }

  /** Inserting by priority keeps the queue's ids distinct and its priorities ascending. */
  lemma EnqueueKeepsOrder(groups: map<string, TaxiGroup>, q: seq<QueueEntry>, e: QueueEntry)
    requires Sorting.DistinctBy(q, GroupIdOf) && Sorting.SortedBy(q, PriorityOf)
    requires IdsKnown(groups, q) && e.groupId !in groups
    ensures Sorting.DistinctBy(Sorting.InsertBy(e, q, PriorityOf), GroupIdOf)
    ensures Sorting.SortedBy(Sorting.InsertBy(e, q, PriorityOf), PriorityOf)
  {
    Sorting.InsertBySorted(e, q, PriorityOf);
    assert forall j :: 0 <= j < |q| ==> GroupIdOf(q[j]) != GroupIdOf(e);
    Sorting.InsertByDistinct(e, q, PriorityOf, GroupIdOf);
  }

  /** After the insertion the queue and the map still hold the same groups. */
  lemma EnqueueKeepsIds(groups: map<string, TaxiGroup>, q: seq<QueueEntry>, g: TaxiGroup, e: QueueEntry)
    requires IdsKnown(groups, q) && AllQueued(groups, q)
    requires e.groupId == g.id
    ensures IdsKnown(groups[g.id := g], Sorting.InsertBy(e, q, PriorityOf))
    ensures AllQueued(groups[g.id := g], Sorting.InsertBy(e, q, PriorityOf))
  {
    var r := Sorting.InsertBy(e, q, PriorityOf);
    var groups' := groups[g.id := g];
    Sorting.InsertByMembers(e, q, PriorityOf);
    assert IdsKnown(groups', q);
    EntriesKnown(q, r, groups');
    EntriesKept(q, r, groups);
    assert e in r;
    var i :| 0 <= i < |r| && r[i] == e;
    forall id | id in groups' ensures Queued(r, id) {
      if id != g.id {
        assert id in groups;
      }
    }
  }

  /** Adding a well-formed group under its own id keeps every group well formed. */
  lemma AddKeepsWellFormed(groups: map<string, TaxiGroup>, g: TaxiGroup)
    requires GroupsWellFormed(groups) && WellFormed(g)
    ensures GroupsWellFormed(groups[g.id := g])
  {
    var groups' := groups[g.id := g];
    forall id | id in groups' ensures groups'[id].id == id && WellFormed(groups'[id]) {
      if id != g.id {
        assert groups'[id] == groups[id];
      }
    }
  }

  /** Registering a new one-member group and inserting it by priority keeps the invariant. */
  lemma EnqueueKeepsValid(groups: map<string, TaxiGroup>, q: seq<QueueEntry>, g: TaxiGroup, now: int)
    requires ValidState(groups, q)
    requires g.id !in groups && WellFormed(g)
    ensures ValidState(groups[g.id := g], Sorting.InsertBy(QueueEntry(g.id, CalculatePriority(g, now)), q, PriorityOf))
  {
    var e := QueueEntry(g.id, CalculatePriority(g, now));
    EnqueueKeepsOrder(groups, q, e);
    EnqueueKeepsIds(groups, q, g, e);
    AddKeepsWellFormed(groups, g);
  }

  /** Adding a rider to a joinable group keeps the invariant; the queue is untouched. */
  lemma JoinKeepsValid(groups: map<string, TaxiGroup>, q: seq<QueueEntry>, gid: string, destination: string, userId: string, now: int)
    requires ValidState(groups, q)
    requires gid in groups && Joinable(groups[gid], destination)
    ensures ValidState(groups[gid := Joined(groups[gid], userId, now)], q)
  {
    JoinKeepsGroupBound(groups[gid], destination, userId, now);
    var groups' := groups[gid := Joined(groups[gid], userId, now)];
    assert groups'.Keys == groups.Keys;
  }

  /** Every queued group is known and its stored priority is its priority at `now`. */
  ghost predicate PrioritiesCurrent(groups: map<string, TaxiGroup>, q: seq<QueueEntry>, now: int) {
    forall i :: 0 <= i < |q| ==> q[i].groupId in groups && q[i].priority == CalculatePriority(groups[q[i].groupId], now)
  }

  /** Recomputing the priorities in place keeps the ids, entry for entry. */
  lemma ReprioritizedIds(groups: map<string, TaxiGroup>, q: seq<QueueEntry>, now: int)
    requires Sorting.DistinctBy(q, GroupIdOf) && IdsKnown(groups, q) && AllQueued(groups, q)
    ensures var p := Reprioritized(q, groups, now);
      Sorting.DistinctBy(p, GroupIdOf) && AllQueued(groups, p) && PrioritiesCurrent(groups, p, now)
  {
    var p := Reprioritized(q, groups, now);
    assert forall i :: 0 <= i < |p| ==> p[i].groupId == q[i].groupId;
    forall id | id in groups ensures Queued(p, id) {
      var j :| 0 <= j < |q| && q[j].groupId == id;
      assert p[j].groupId == id;
    }
  }

  /** Sorting keeps the ids distinct, every group queued and every priority current. */
  lemma SortKeepsIds(groups: map<string, TaxiGroup>, p: seq<QueueEntry>, now: int)
    requires Sorting.DistinctBy(p, GroupIdOf) && AllQueued(groups, p) && PrioritiesCurrent(groups, p, now)
    ensures var r := Sorting.SortBy(p, PriorityOf);
      Sorting.DistinctBy(r, GroupIdOf) && AllQueued(groups, r) && PrioritiesCurrent(groups, r, now)
  {
    var r := Sorting.SortBy(p, PriorityOf);
    Sorting.SortByDistinct(p, PriorityOf, GroupIdOf);
    Sorting.SortByMembers(p, PriorityOf);
    EntriesKept(p, r, groups);
    forall i | 0 <= i < |r|
      ensures r[i].groupId in groups && r[i].priority == CalculatePriority(groups[r[i].groupId], now)
    {
      assert r[i] in r;
      var j :| 0 <= j < |p| && p[j] == r[i];
    }
  }

  /** Recomputing every priority and re-sorting keeps the invariant and leaves every priority current. */
  lemma ReprioritizeKeepsValid(groups: map<string, TaxiGroup>, q: seq<QueueEntry>, now: int)
    requires ValidState(groups, q)
    ensures ValidState(groups, Sorting.SortBy(Reprioritized(q, groups, now), PriorityOf))
    ensures PrioritiesCurrent(groups, Sorting.SortBy(Reprioritized(q, groups, now), PriorityOf), now)
  {
    ReprioritizedIds(groups, q, now);
    SortKeepsIds(groups, Reprioritized(q, groups, now), now);
  }

  /** Sweeping the expired groups from the map and the queue keeps the invariant. */
  lemma CleanupKeepsValid(groups: map<string, TaxiGroup>, q: seq<QueueEntry>, now: int)
    requires ValidState(groups, q)
    ensures ValidState(FreshGroups(groups, now), RemoveIds(q, ExpiredIds(groups, now)))
  {
    var expired := ExpiredIds(groups, now);
    var live := FreshGroups(groups, now);
    var r := RemoveIds(q, expired);
    RemoveIdsSorted(q, expired);
    RemoveIdsDistinct(q, expired);
    forall i | 0 <= i < |r| ensures r[i].groupId in live {
      RemoveIdsMembers(q, expired, r[i]);
      var j :| 0 <= j < |q| && q[j] == r[i];
    }
    forall id | id in live ensures Queued(r, id) {
      var j :| 0 <= j < |q| && q[j].groupId == id;
      RemoveIdsMembers(q, expired, q[j]);
      var i :| 0 <= i < |r| && r[i] == q[j];
    }
  }

  class TaxiService {
    const mjuGps: GpsBounds
    const ghGps: GpsBounds
    var activeGroups: map<string, TaxiGroup>
    var queue: seq<QueueEntry>

    ghost predicate Valid()
      reads this
    {
      ValidState(activeGroups, queue)
    }

    /** Bounds parsing; the two sweeping timers are left to the caller. */
    constructor (mjuCoords: seq<Coordinate>, ghCoords: seq<Coordinate>)
      ensures Valid()
      ensures mjuGps == MjuBounds(mjuCoords) && ghGps == GhBounds(ghCoords)
      ensures activeGroups == map[] && queue == []
    {
      mjuGps := MjuBounds(mjuCoords);
      ghGps := GhBounds(ghCoords);
      activeGroups := map[];
      queue := [];
    }

    /** `getGroupStatus`: the group's members in join order, or not found. */
    function GetGroupStatus(groupId: string): (r: GroupStatus)
      requires Valid()
      reads this
      ensures r.GroupNotFound? <==> groupId !in activeGroups
      ensures r.GroupFound? ==>
        && r.groupId == groupId
        && r.memberCount == |activeGroups[groupId].members| && 1 <= r.memberCount <= MaxGroupSize
        && |r.memberIds| == r.memberCount
        && (forall i :: 0 <= i < r.memberCount ==> r.memberIds[i] == activeGroups[groupId].members[i].userId)
        && (r.isFull <==> r.memberCount == MaxGroupSize)
        && r.destination == activeGroups[groupId].destination
    {
      if groupId !in activeGroups then GroupNotFound
      else
        var g := activeGroups[groupId];
        GroupFound(g.id, |g.members|, seq(|g.members|, i requires 0 <= i < |g.members| => g.members[i].userId),
                   g.isFull, g.destination)
    }

    /** `findAvailableGroup`: the first queued group for exactly this destination with room left. */
    method FindAvailableGroup(destination: string) returns (r: Option<string>)
      requires Valid()
      ensures r.None? <==> FirstJoinable(queue, activeGroups, destination).None?
      ensures r.Some? ==> r.value == queue[FirstJoinable(queue, activeGroups, destination).value].groupId
      ensures r.Some? ==> r.value in activeGroups && Joinable(activeGroups[r.value], destination)
    {
      var i := 0;
      while i < |queue|
        invariant 0 <= i <= |queue|
        invariant forall j :: 0 <= j < i ==> !JoinableEntry(queue[j], activeGroups, destination)
      {
        var g := activeGroups[queue[i].groupId];
        if g.destination == destination && !g.isFull && |g.members| < MaxGroupSize {
          return Some(queue[i].groupId);
        }
        i := i + 1;
      }
      return None;
    }

    /**
     * `enqueueGroup`: linear sorted insertion, in front of the first entry
     * with a strictly larger priority.
     */
    method EnqueueGroup(group: TaxiGroup, now: int)
      modifies this
      ensures activeGroups == old(activeGroups)
      ensures queue == Sorting.InsertBy(QueueEntry(group.id, CalculatePriority(group, now)), old(queue), PriorityOf)
    {
      var priority := CalculatePriority(group, now);
      var element := QueueEntry(group.id, priority);
      var added := false;
      var i := 0;
      while i < |queue|
        invariant 0 <= i <= |queue|
        invariant queue == old(queue) && activeGroups == old(activeGroups) && !added
        invariant forall j :: 0 <= j < i ==> PriorityOf(queue[j]) <= priority
      {
        if priority < queue[i].priority {
          Sorting.InsertByAt(element, queue, PriorityOf, i);
          queue := queue[..i] + [element] + queue[i..];
          added := true;
          break;
        }
        i := i + 1;
      }
      if !added {
        Sorting.InsertByAt(element, queue, PriorityOf, |queue|);
        assert queue[..|queue|] + [element] + queue[|queue|..] == queue + [element];
        queue := queue + [element];
      }
    }

    /** `createNewGroup`: one member, not full, registered in the map and the queue. */
    method CreateNewGroup(destination: string, userId: string, now: int, newId: string) returns (g: TaxiGroup)
      requires Valid()
      requires newId !in activeGroups
      modifies this
      ensures Valid()
      ensures g == NewGroup(newId, destination, userId, now)
      ensures activeGroups == old(activeGroups)[newId := g]
      ensures queue == Sorting.InsertBy(QueueEntry(newId, CalculatePriority(g, now)), old(queue), PriorityOf)
    {
      g := NewGroup(newId, destination, userId, now);
      EnqueueKeepsValid(activeGroups, queue, g, now);
      activeGroups := activeGroups[newId := g];
      EnqueueGroup(g, now);
    }

    /**
     * `updatePriorities`: every stored priority is recomputed at `now`, then
     * the queue is sorted ascending (stably) by priority.
     */
    method UpdatePriorities(now: int)
      requires Valid()
      modifies this
      ensures Valid()
      ensures activeGroups == old(activeGroups)
      ensures queue == Sorting.SortBy(Reprioritized(old(queue), old(activeGroups), now), PriorityOf)
      ensures PrioritiesCurrent(activeGroups, queue, now)
    {
      ReprioritizeKeepsValid(activeGroups, queue, now);
      var p := RecomputePriorities(queue, activeGroups, now);
      queue := Sorting.SortBy(p, PriorityOf);
    }

    /**
     * `cleanupOldGroups`: every group created more than thirty minutes before
     * `now` leaves both the map and the queue, full or not; the others stay
     * as they are.
     */
    method CleanupOldGroups(now: int)
      requires Valid()
      modifies this
      ensures Valid()
      ensures activeGroups == FreshGroups(old(activeGroups), now)
      ensures queue == RemoveIds(old(queue), ExpiredIds(old(activeGroups), now))
    {
      CleanupKeepsValid(activeGroups, queue, now);
      RemoveNothing(queue);
      var groups, q := activeGroups, queue;
      assert groups - {} == groups;
      var threshold := now - ExpiryMs;
      var pending := groups.Keys;
      ghost var removed: set<string> := {};
      while pending != {}
        invariant unchanged(this)
        invariant pending <= activeGroups.Keys
        invariant removed == ExpiredIds(activeGroups, now) - pending
        invariant groups == activeGroups - removed
        invariant q == RemoveIds(queue, removed)
        decreases pending
      {
        var groupId :| groupId in pending;
        SweepStep(activeGroups, now, pending, removed, groupId);
        pending := pending - {groupId};
        if groups[groupId].createdAt < threshold {
          groups := groups - {groupId};
          RemoveIdsDistinct(queue, removed);
          var index := IndexOfGroup(q, groupId);
          if index != -1 {
            SpliceRemovesId(q, index);
            q := q[..index] + q[index + 1..];
          } else {
            RemoveAbsentId(q, groupId);
          }
          RemoveIdsTwice(queue, removed, {groupId});
          removed := removed + {groupId};
        }
      }
      assert removed == ExpiredIds(activeGroups, now);
      FreshIsNotExpired(activeGroups, now);
      activeGroups, queue := groups, q;
    }

    /**
     * `processLocation`: an unknown destination changes nothing; otherwise the
     * rider joins the first joinable queued group for the destination as sent,
     * or a new group is created under `newId`.
     */
    method ProcessLocation(loc: LocationData, now: int, newId: string) returns (resp: LocationUpdateResponse)
      requires Valid()
      requires newId !in activeGroups
      modifies this
      ensures Valid()
      ensures resp.success == resp.isValidLocation == IsValidDestination(loc.to)
      ensures resp.data == loc
      ensures IsValidDestination(loc.to) ==>
        resp.message == (if ToLower(loc.to) == "mju" then AtGiheungZone else AtMjuZone)
      ensures !IsValidDestination(loc.to) ==>
        && resp.group.None? && resp.message == InvalidDestination
        && activeGroups == old(activeGroups) && queue == old(queue)
      ensures IsValidDestination(loc.to) && FirstJoinable(old(queue), old(activeGroups), loc.to).None? ==>
        && activeGroups == old(activeGroups)[newId := NewGroup(newId, loc.to, loc.userId, now)]
        && queue == Sorting.InsertBy(QueueEntry(newId, CalculatePriority(NewGroup(newId, loc.to, loc.userId, now), now)),
                                     old(queue), PriorityOf)
        && resp.group == Some(GroupInfo(newId, 1, false))
      ensures IsValidDestination(loc.to) && FirstJoinable(old(queue), old(activeGroups), loc.to).Some? ==>
        var gid := old(queue)[FirstJoinable(old(queue), old(activeGroups), loc.to).value].groupId;
        && activeGroups == old(activeGroups)[gid := Joined(old(activeGroups)[gid], loc.userId, now)]
        && queue == old(queue)
        && resp.group == Some(GroupInfo(gid, |old(activeGroups)[gid].members| + 1,
                                        |old(activeGroups)[gid].members| + 1 == MaxGroupSize))
    {
      var lower := ToLower(loc.to);
      var isValidLocation := false;
      var message := InvalidDestination;
      if lower == "mju" {
        isValidLocation := IsLocationInBounds(loc.latitude, loc.longitude, ghGps);
        message := if isValidLocation then AtGiheungZone else NotAtGiheungZone;
      } else if lower == "gh" {
        isValidLocation := IsLocationInBounds(loc.latitude, loc.longitude, mjuGps);
        message := if isValidLocation then AtMjuZone else NotAtMjuZone;
      } else {
        message := InvalidDestination;
        isValidLocation := false;
      }

      var groupInfo: Option<GroupInfo> := None;
      if isValidLocation {
        var found := FindAvailableGroup(loc.to);
        if found.None? {
          var g := CreateNewGroup(loc.to, loc.userId, now, newId);
          groupInfo := Some(GroupInfo(g.id, |g.members|, g.isFull));
        } else {
          var gid := found.value;
          JoinKeepsValid(activeGroups, queue, gid, loc.to, loc.userId, now);
          var g := activeGroups[gid];
          var members := g.members + [GroupMember(loc.userId, now)];
          var isFull := g.isFull;
          if |members| >= MaxGroupSize {
            isFull := true;
          }
          g := g.(members := members, isFull := isFull);
          activeGroups := activeGroups[gid := g];
          groupInfo := Some(GroupInfo(g.id, |g.members|, g.isFull));
        }
      }
      resp := LocationUpdateResponse(isValidLocation, message, loc, isValidLocation, groupInfo);
    }
  }
}
