/**
 * Online presence per direction (`OnlineUsersGateway`): a set of user ids for
 * "mju" (Giheung to Myongji) and one for "gh" (Myongji to Giheung), changed
 * by socket connections and disconnections.
 */
module OnlineUsers {
  import opened Wrappers

  /** Direction name to the ids of the users connected for it. */
  type Presence = map<string, set<string>>

  /** The counts pushed to every client after each change. */
  datatype OnlineCounts = OnlineCounts(mju: nat, gh: nat)

  function Initial(): Presence {
    map["mju" := {}, "gh" := {}]
  }

  /** A handshake query value is used only when present and non-empty (JavaScript truthiness). */
  predicate Present(v: Option<string>) {
    v.Some? && v.value != ""
  }

  /** `onlineUsers.get(direction)?.add(userId)`: unknown directions are ignored. */
  function Connect(p: Presence, direction: string, userId: string): (r: Presence)
    ensures r.Keys == p.Keys
    ensures direction in p ==> userId in r[direction] && p[direction] <= r[direction]
    ensures forall d :: d in p && d != direction ==> r[d] == p[d]
  {
    if direction in p then p[direction := p[direction] + {userId}] else p
  }

  /** `onlineUsers.get(direction)?.delete(userId)`. */
  function Disconnect(p: Presence, direction: string, userId: string): (r: Presence)
    ensures r.Keys == p.Keys
    ensures direction in p ==> userId !in r[direction] && r[direction] <= p[direction]
    ensures forall d :: d in p && d != direction ==> r[d] == p[d]
  {
    if direction in p then p[direction := p[direction] - {userId}] else p
  }

  /** `onlineUsers.get(direction)?.size || 0`. */
  function Count(p: Presence, direction: string): (n: nat)
    ensures n == 0 <==> direction !in p || p[direction] == {}
  {
    if direction in p then |p[direction]| else 0
  }

  function CountsOf(p: Presence): OnlineCounts {
    OnlineCounts(Count(p, "mju"), Count(p, "gh"))
  }

  /** Nobody is online at start, in any direction. */
  lemma InitialCountsZero(direction: string)
    ensures Count(Initial(), direction) == 0
    ensures Initial().Keys == {"mju", "gh"}
  {
  }

  /**
   * Connecting adds the user to exactly one direction: the count there grows
   * by one unless the user was already in, and nothing else changes.
   */
  lemma ConnectCounts(p: Presence, direction: string, userId: string, other: string)
    requires direction in p
    ensures Count(Connect(p, direction, userId), direction) == Count(p, direction) + (if userId in p[direction] then 0 else 1)
    ensures other != direction ==> Count(Connect(p, direction, userId), other) == Count(p, other)
    ensures userId in Connect(p, direction, userId)[direction]
  {
    if userId !in p[direction] {
      assert |p[direction] + {userId}| == |p[direction]| + 1;
    } else {
      assert p[direction] + {userId} == p[direction];
    }
  }

  /** Disconnecting removes the user from that direction and shrinks its count by at most one. */
  lemma DisconnectCounts(p: Presence, direction: string, userId: string, other: string)
    requires direction in p
    ensures Count(Disconnect(p, direction, userId), direction) == Count(p, direction) - (if userId in p[direction] then 1 else 0)
    ensures other != direction ==> Count(Disconnect(p, direction, userId), other) == Count(p, other)
    ensures userId !in Disconnect(p, direction, userId)[direction]
  {
    if userId in p[direction] {
      assert p[direction] == (p[direction] - {userId}) + {userId};
    } else {
      assert p[direction] - {userId} == p[direction];
    }
  }

  /** A user counts once however many sockets they open; one disconnect removes them. */
  lemma ConnectIdempotent(p: Presence, direction: string, userId: string)
    ensures Connect(Connect(p, direction, userId), direction, userId) == Connect(p, direction, userId)
    ensures Disconnect(Connect(Connect(p, direction, userId), direction, userId), direction, userId)
         == Disconnect(p, direction, userId)
  {
    if direction in p {
      assert p[direction] + {userId} + {userId} == p[direction] + {userId};
      assert p[direction] + {userId} - {userId} == p[direction] - {userId};
    }
  }

  /** The direction names never change: an unknown direction is never created. */
  lemma DirectionsFixed(p: Presence, direction: string, userId: string)
    ensures Connect(p, direction, userId).Keys == p.Keys
    ensures Disconnect(p, direction, userId).Keys == p.Keys
    ensures direction !in p ==> Connect(p, direction, userId) == p && Disconnect(p, direction, userId) == p
  {
  }

  class OnlineUsersGateway {
    var onlineUsers: Presence

    constructor ()
      ensures onlineUsers == Initial()
    {
      onlineUsers := Initial();
    }

    /**
     * `handleConnection`: with both query values present the user joins the
     * direction and the new counts are broadcast; otherwise nothing happens.
     */
    method HandleConnection(direction: Option<string>, userId: Option<string>) returns (broadcast: Option<OnlineCounts>)
      modifies this
      ensures Present(direction) && Present(userId) ==>
        && onlineUsers == Connect(old(onlineUsers), direction.value, userId.value)
        && broadcast == Some(CountsOf(onlineUsers))
      ensures !(Present(direction) && Present(userId)) ==> onlineUsers == old(onlineUsers) && broadcast.None?
    {
      broadcast := None;
      if Present(direction) && Present(userId) {
        if direction.value in onlineUsers {
          onlineUsers := onlineUsers[direction.value := onlineUsers[direction.value] + {userId.value}];
        }
        var counts := BroadcastOnlineCount();
        broadcast := Some(counts);
      }
    }

    /** `handleDisconnect`: the mirror image of `HandleConnection`. */
    method HandleDisconnect(direction: Option<string>, userId: Option<string>) returns (broadcast: Option<OnlineCounts>)
      modifies this
      ensures Present(direction) && Present(userId) ==>
        && onlineUsers == Disconnect(old(onlineUsers), direction.value, userId.value)
        && broadcast == Some(CountsOf(onlineUsers))
      ensures !(Present(direction) && Present(userId)) ==> onlineUsers == old(onlineUsers) && broadcast.None?
    {
      broadcast := None;
      if Present(direction) && Present(userId) {
        if direction.value in onlineUsers {
          onlineUsers := onlineUsers[direction.value := onlineUsers[direction.value] - {userId.value}];
        }
        var counts := BroadcastOnlineCount();
        broadcast := Some(counts);
      }
    }

    /** `broadcastOnlineCount`: the payload sent to every client. */
    method BroadcastOnlineCount() returns (counts: OnlineCounts)
      ensures counts == CountsOf(onlineUsers)
    {
      var mju := if "mju" in onlineUsers then |onlineUsers["mju"]| else 0;
      var gh := if "gh" in onlineUsers then |onlineUsers["gh"]| else 0;
      counts := OnlineCounts(mju, gh);
    }

    /** `getOnlineCount`: how many distinct users are connected for a direction (0 when unknown). */
    method GetOnlineCount(direction: string) returns (n: nat)
      ensures n == Count(onlineUsers, direction)
    {
      n := if direction in onlineUsers then |onlineUsers[direction]| else 0;
    }
  }
}
