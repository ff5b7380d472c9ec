/**
 * Group chat rooms (`ChatService`): one active room per taxi group, created
 * from a snapshot of the group's members; only those members may post.
 */
module Chat {
  import opened Wrappers
  import Taxi

  /** Times are epoch milliseconds. */
  datatype ChatMessage = ChatMessage(id: string, groupId: string, userId: string, content: string, createdAt: int)

  datatype ChatRoom = ChatRoom(
    id: string,
    groupId: string,
    members: seq<string>,
    messages: seq<ChatMessage>,
    createdAt: int,
    isActive: bool)

  datatype RoomData = RoomData(roomId: string, messages: seq<ChatMessage>, members: seq<string>)

  /** `ChatRoomResponse`: a failure (with its fixed message) or the room's data. */
  datatype ChatRoomResponse = RoomNotFound | RoomFound(data: RoomData)

  /** The test every lookup uses: the room belongs to the group and is still active. */
  predicate ActiveFor(room: ChatRoom, groupId: string) {
    room.groupId == groupId && room.isActive
  }

  ghost predicate HasActiveRoom(rooms: map<string, ChatRoom>, groupId: string) {
    exists id :: id in rooms && ActiveFor(rooms[id], groupId)
  }

  /** Rooms are stored under their own id, and no group has two active rooms. */
  ghost predicate ValidRooms(rooms: map<string, ChatRoom>) {
    && (forall id :: id in rooms ==> rooms[id].id == id)
    && (forall a, b ::
          a in rooms && b in rooms && rooms[a].isActive && rooms[b].isActive && rooms[a].groupId == rooms[b].groupId
          ==> a == b)
  }

  /** Adding a fresh active room for a group that has none keeps one active room per group. */
  lemma OpenKeepsValid(rooms: map<string, ChatRoom>, room: ChatRoom)
    requires ValidRooms(rooms)
    requires room.id !in rooms && !HasActiveRoom(rooms, room.groupId)
    ensures ValidRooms(rooms[room.id := room])
    ensures room.isActive ==> HasActiveRoom(rooms[room.id := room], room.groupId)
  {
    var rooms' := rooms[room.id := room];
    forall a | a in rooms && a != room.id ensures !ActiveFor(rooms'[a], room.groupId) {
      assert rooms'[a] == rooms[a];
    }
    if room.isActive {
      assert ActiveFor(rooms'[room.id], room.groupId);
    }
  }

  /**
   * Deactivating a group's active room keeps the invariant and leaves that
   * group without an active room, so a later create opens a new one.
   */
  lemma CloseKeepsValid(rooms: map<string, ChatRoom>, id: string)
    requires ValidRooms(rooms) && id in rooms && rooms[id].isActive
    ensures ValidRooms(rooms[id := rooms[id].(isActive := false)])
    ensures !HasActiveRoom(rooms[id := rooms[id].(isActive := false)], rooms[id].groupId)
  {
    var rooms' := rooms[id := rooms[id].(isActive := false)];
    forall other | other in rooms' ensures !ActiveFor(rooms'[other], rooms[id].groupId) {
      if other != id {
        assert rooms'[other] == rooms[other];
      }
    }
  }

  /** Changing a room's messages never changes which rooms are active. */
  lemma PostKeepsValid(rooms: map<string, ChatRoom>, id: string, messages: seq<ChatMessage>)
    requires ValidRooms(rooms) && id in rooms
    ensures ValidRooms(rooms[id := rooms[id].(messages := messages)])
    ensures forall g :: HasActiveRoom(rooms[id := rooms[id].(messages := messages)], g) <==> HasActiveRoom(rooms, g)
  {
    var rooms' := rooms[id := rooms[id].(messages := messages)];
    forall g ensures HasActiveRoom(rooms', g) <==> HasActiveRoom(rooms, g) {
      if HasActiveRoom(rooms', g) {
        var k :| k in rooms' && ActiveFor(rooms'[k], g);
        assert ActiveFor(rooms[k], g);
      }
      if HasActiveRoom(rooms, g) {
        var k :| k in rooms && ActiveFor(rooms[k], g);
        assert ActiveFor(rooms'[k], g);
      }
    }
  }

  class ChatService {
    const taxiService: Taxi.TaxiService
    var chatRooms: map<string, ChatRoom>

    ghost predicate Valid()
      reads this
    {
      ValidRooms(chatRooms)
    }

    constructor (taxi: Taxi.TaxiService)
      ensures Valid()
      ensures taxiService == taxi && chatRooms == map[]
    {
      taxiService := taxi;
      chatRooms := map[];
    }

    /** The `find` over the rooms that every operation starts with. */
    method FindActiveRoom(groupId: string) returns (r: Option<string>)
      requires Valid()
      ensures r.None? <==> !HasActiveRoom(chatRooms, groupId)
      ensures r.Some? ==> r.value in chatRooms && ActiveFor(chatRooms[r.value], groupId)
      ensures r.Some? ==> forall id :: id in chatRooms && ActiveFor(chatRooms[id], groupId) ==> id == r.value
    {
      var pending := chatRooms.Keys;
      while pending != {}
        invariant pending <= chatRooms.Keys
        invariant forall id :: id in chatRooms && id !in pending ==> !ActiveFor(chatRooms[id], groupId)
        decreases pending
      {
        var id :| id in pending;
        if chatRooms[id].groupId == groupId && chatRooms[id].isActive {
          return Some(id);
        }
        pending := pending - {id};
      }
      return None;
    }

    /**
     * `createChatRoom`: nothing for an unknown group; the group's active room
     * when it has one; otherwise a new active room under `newId` whose members
     * are the group's members at this moment.
     */
    method CreateChatRoom(groupId: string, newId: string, now: int) returns (r: Option<ChatRoom>)
      requires Valid() && taxiService.Valid()
      requires newId !in chatRooms
      modifies this
      ensures Valid()
      ensures taxiService.GetGroupStatus(groupId).GroupNotFound? ==> r.None? && chatRooms == old(chatRooms)
      ensures taxiService.GetGroupStatus(groupId).GroupFound? && HasActiveRoom(old(chatRooms), groupId) ==>
        && chatRooms == old(chatRooms)
        && r.Some? && r.value.id in chatRooms && chatRooms[r.value.id] == r.value && ActiveFor(r.value, groupId)
      ensures taxiService.GetGroupStatus(groupId).GroupFound? && !HasActiveRoom(old(chatRooms), groupId) ==>
        && r == Some(ChatRoom(newId, groupId, taxiService.GetGroupStatus(groupId).memberIds, [], now, true))
        && chatRooms == old(chatRooms)[newId := r.value]
      ensures r.Some? ==> HasActiveRoom(chatRooms, groupId)
    {
      var groupStatus := taxiService.GetGroupStatus(groupId);
      if groupStatus.GroupNotFound? {
        return None;
      }
      var existing := FindActiveRoom(groupId);
      if existing.Some? {
        return Some(chatRooms[existing.value]);
      }
      var newRoom := ChatRoom(newId, groupId, groupStatus.memberIds, [], now, true);
      OpenKeepsValid(chatRooms, newRoom);
      chatRooms := chatRooms[newRoom.id := newRoom];
      return Some(newRoom);
    }

    /** `getChatRoom`: the data of the group's active room, or not found. */
    method GetChatRoom(groupId: string) returns (resp: ChatRoomResponse)
      requires Valid()
      ensures resp.RoomNotFound? <==> !HasActiveRoom(chatRooms, groupId)
      ensures resp.RoomFound? ==>
        && resp.data.roomId in chatRooms
        && ActiveFor(chatRooms[resp.data.roomId], groupId)
        && resp.data.messages == chatRooms[resp.data.roomId].messages
        && resp.data.members == chatRooms[resp.data.roomId].members
    {
      var found := FindActiveRoom(groupId);
      if found.None? {
        return RoomNotFound;
      }
      var room := chatRooms[found.value];
      return RoomFound(RoomData(room.id, room.messages, room.members));
    }

    /**
     * `sendMessage`: appended to the group's active room when the sender is
     * one of its members; otherwise nothing changes. The broadcast to the
     * socket clients is the returned message.
     */
    method SendMessage(groupId: string, userId: string, content: string, newId: string, now: int)
      returns (r: Option<ChatMessage>)
      requires Valid()
      modifies this
      ensures Valid()
      ensures r.None? <==> !exists id :: id in old(chatRooms) && ActiveFor(old(chatRooms)[id], groupId)
                                           && userId in old(chatRooms)[id].members
      ensures r.None? ==> chatRooms == old(chatRooms)
      ensures r.Some? ==>
        && r.value == ChatMessage(newId, groupId, userId, content, now)
        && exists id :: id in old(chatRooms) && ActiveFor(old(chatRooms)[id], groupId)
             && chatRooms == old(chatRooms)[id := old(chatRooms)[id].(messages := old(chatRooms)[id].messages + [r.value])]
    {
      var found := FindActiveRoom(groupId);
      if found.None? || userId !in chatRooms[found.value].members {
        return None;
      }
      var id := found.value;
      var room := chatRooms[id];
      var newMessage := ChatMessage(newId, groupId, userId, content, now);
      PostKeepsValid(chatRooms, id, room.messages + [newMessage]);
      chatRooms := chatRooms[id := room.(messages := room.messages + [newMessage])];
      return Some(newMessage);
    }

    /** `closeChatRoom`: deactivates the group's active room; false when it has none. */
    method CloseChatRoom(groupId: string) returns (closed: bool)
      requires Valid()
      modifies this
      ensures Valid()
      ensures closed <==> HasActiveRoom(old(chatRooms), groupId)
      ensures !HasActiveRoom(chatRooms, groupId)
      ensures !closed ==> chatRooms == old(chatRooms)
      ensures closed ==>
        exists id :: id in old(chatRooms) && ActiveFor(old(chatRooms)[id], groupId)
          && chatRooms == old(chatRooms)[id := old(chatRooms)[id].(isActive := false)]
    {
      var found := FindActiveRoom(groupId);
      if found.None? {
        return false;
      }
      var id := found.value;
      CloseKeepsValid(chatRooms, id);
      chatRooms := chatRooms[id := chatRooms[id].(isActive := false)];
      return true;
    }
  }
}
