# homerun_server core, modelled in Dafny

homerun_server is the back end of a commuting helper for Myongji University (MJU) students. Students travel between Giheung station ("gh") and the campus ("mju"). This project models the server's decision-making core:

- **Taxi matching.** `TaxiService` gathers riders pinging from a taxi zone into groups of at most four per destination. The groups are kept in a map and in a priority queue. Expired groups are swept out.
- **Shuttle timetable lookups.** `ShuttleService` answers "minutes until the next departure". Each answer is a scan over one column of a CSV timetable.
- **Shuttle choice.** `ShuttleController` uses those lookups to choose between the direct Giheung shuttle and the Myongji-station route. It does this in Korean time (UTC+9).
- **Transport ranking.** `TransportService` gives every shuttle, composite and bus option a weighted score. It drops options with no departure, sorts best first and keeps the top three per direction.
- **Chat rooms.** `ChatService` keeps one active room per taxi group. Only the room's members can post, and a room can be closed.
- **Online presence.** `OnlineUsersGateway` keeps a set of connected user ids per direction.

Inputs that come from the environment are parameters of the model:

- the clock (`now` in epoch milliseconds, plus the host's time-zone offset);
- random ids (an id chosen by the caller, required to be fresh);
- the timetable files (a `CsvFile` that is either `ReadFailed` or its lines of parsed cells);
- the live bus feed (a sequence of `BusArrival`);
- socket handshake values (`Option<string>`).

Broadcasts are returned as out-parameters.

Files:

- `wrappers.dfy`: `Option`, `Result`.
- `clock.dfy`: epoch-millisecond instants and minute offsets.
- `ascii.dfy`: the case mapping behind `toLowerCase`/`toUpperCase`.
- `sorting.dfy`: linear sorted insertion, a stable sort by a real key, and their proofs.
- `timetable.dfy`: `src/shuttle/shuttle.service.ts`.
- `shuttle_choice.dfy`: `src/shuttle/shuttle.controller.ts`.
- `transport.dfy`: `src/transport/transport.service.ts`.
- `taxi.dfy`: `src/taxi/taxi.service.ts`.
- `chat.dfy`: `src/chat/chat.service.ts`.
- `online_users.dfy`: `src/online-users/online-users.gateway.ts`.

What the code does, and the model with it:

- a rider joins the first joinable group for the destination in priority order, not the most recent one;
- the code keeps no store of completed groups and no group status field, so a full group stays in the queue until it expires;
- a rider who is already in a group is not rejected;
- a failed timetable read gives the same `None` as "no departure today".

One point differs: the code does not check that a new group or room id is unused, and on a collision `Map.set` overwrites the old entry (src/taxi/taxi.service.ts:156). The model instead requires the id to be fresh and does not reproduce the overwrite (see the item on caller-chosen ids under "Left out").

## Model

| member | source | states |
|---|---|---|
| Taxi.TaxiService.constructor | src/taxi/taxi.service.ts:23-41 | MJU_BOUNDS is read as (sw.lat, sw.lng, ne.lat, ne.lng) and GH_BOUNDS as (sw.lat, ne.lat, sw.lng, ne.lng); the service starts with no groups and an empty queue, satisfying its invariant |
| Taxi.BoundsLayouts | src/taxi/taxi.service.ts:29-41 | the two bounds settings are parsed in different layouts: GH equals MJU's parse with the two middle values swapped |
| Taxi.IsLocationInBounds | src/taxi/taxi.service.ts:92-110 | every location is accepted, also one outside the rectangle (`InRectangle`, the unused range test) |
| Taxi.CalculatePriority | src/taxi/taxi.service.ts:50-62 | for a group created no later than now with at most four members the priority lies in [-1, 0] |
| Taxi.PriorityOrder | src/taxi/taxi.service.ts:53-61 | at equal age a bigger group gets a strictly lower (more urgent) priority; at equal size an older group's priority is no higher |
| Taxi.NewGroup | src/taxi/taxi.service.ts:149-155 | a new group holds the rider alone, joined and created now, under the given id; it is well formed and joinable for its destination |
| Taxi.Joined | src/taxi/taxi.service.ts:215-221 | the rider is appended after the old members, id, destination and creation time stay, and the group is full iff it was or now has four members |
| Taxi.JoinKeepsGroupBound | src/taxi/taxi.service.ts:136-145 | joining a joinable well-formed group appends exactly that rider at the end, stays within four members, and sets isFull exactly when the fourth rider joins; id, destination and creation time are unchanged |
| Taxi.FullGroupNotJoinable | src/taxi/taxi.service.ts:139-141 | a four-member group is never joinable, for any destination |
| Taxi.FirstJoinable | src/taxi/taxi.service.ts:137-142 | the result is the first queue position whose group has exactly the destination, is not full and has fewer than four members; none before it qualifies; None iff no position qualifies |
| Taxi.TaxiService.FindAvailableGroup | src/taxi/taxi.service.ts:136-145 | returns the group id at `FirstJoinable`'s position, or None exactly when no queued group is joinable; the group returned is joinable |
| Taxi.TaxiService.EnqueueGroup | src/taxi/taxi.service.ts:65-81 | the new queue is the old one with the entry inserted in front of the first strictly larger priority (`Sorting.InsertBy`); the map is untouched |
| Sorting.InsertBy | src/taxi/taxi.service.ts:65-81 | the insertion adds exactly the new element: length +1 and multiset = old multiset + {x} |
| Sorting.InsertByAt | src/taxi/taxi.service.ts:70-80 | inserting before the first strictly larger key (or at the end) is the splice at that index |
| Sorting.InsertBySorted | src/taxi/taxi.service.ts:65-81 | inserting into an ascending queue keeps it ascending |
| Sorting.InsertByAfterEquals | src/taxi/taxi.service.ts:70-76 | in an ascending queue the new element lands after every equal priority and before every larger one |
| Sorting.InsertByDistinct | src/taxi/taxi.service.ts:65-81 | inserting an element with a new id keeps the ids distinct |
| Sorting.SortBy | src/taxi/taxi.service.ts:89 | the sort returns a permutation (same length, same multiset) that is ascending by the key |
| Sorting.SortByDistinct | src/taxi/taxi.service.ts:89 | sorting keeps the ids distinct |
| Taxi.TaxiService.CreateNewGroup | src/taxi/taxi.service.ts:147-159 | the new group has one member (the rider), is not full, is stored under the fresh id, and is inserted into the queue by its priority; the invariant is kept |
| Taxi.EnqueueKeepsValid | src/taxi/taxi.service.ts:147-159 | registering a new well-formed group under a fresh id and inserting it by priority keeps the queue and map in step, distinct, well formed and sorted |
| Taxi.TaxiService.UpdatePriorities | src/taxi/taxi.service.ts:84-90 | afterwards every stored priority equals its group's priority at now, and the queue is the sorted reprioritised old queue, so it holds the same groups; the map is untouched |
| Taxi.RecomputePriorities | src/taxi/taxi.service.ts:85-87 | the pass over the queue leaves every entry in place with its group id and replaces its priority by the group's priority at now |
| Taxi.ReprioritizeKeepsValid | src/taxi/taxi.service.ts:84-90 | recomputing every priority and sorting keeps the invariant, and each entry carries its group's current priority |
| Taxi.IndexOfGroup | src/taxi/taxi.service.ts:166-168 | returns -1 iff no entry has the id, otherwise the first index holding it |
| Taxi.TaxiService.CleanupOldGroups | src/taxi/taxi.service.ts:161-174 | exactly the groups created more than 30 minutes before now leave the map, full or not; the queue loses exactly their entries and keeps its order; the invariant is kept |
| Taxi.CleanupKeepsValid | src/taxi/taxi.service.ts:161-174 | removing the expired groups from both structures keeps them in step, distinct and sorted |
| Taxi.RemoveIds | src/taxi/taxi.service.ts:163-173 | no entry of a removed group is left, and the queue does not grow |
| Taxi.RemoveIdsMembers | src/taxi/taxi.service.ts:169-171 | an entry survives removal iff it was queued and its group is not removed |
| Taxi.RemoveIdsSorted | src/taxi/taxi.service.ts:169-171 | removing entries keeps the queue ascending |
| Taxi.RemoveIdsDistinct | src/taxi/taxi.service.ts:169-171 | removing entries keeps ids distinct |
| Taxi.RemoveIdsTwice | src/taxi/taxi.service.ts:163-173 | removing one set of groups and then another removes their union |
| Taxi.SpliceRemovesId | src/taxi/taxi.service.ts:166-171 | `splice(index, 1)` at the only entry of a group is the removal of that group |
| Taxi.TaxiService.ProcessLocation | src/taxi/taxi.service.ts:176-246 | an invalid destination (not mju/gh in any ASCII case) gives success false and no group, and changes nothing. A valid destination "mju" reports the Giheung zone and "gh" the MJU zone. A valid one either appends the rider to the first joinable group for the destination as sent, with the queue unchanged, or creates a new one-member group under the fresh id. The response reports the group's id, size and fullness, and the invariant is kept |
| Taxi.JoinKeepsValid | src/taxi/taxi.service.ts:214-222 | adding a rider to a joinable group keeps every group within four members and full exactly at four |
| Taxi.TaxiService.GetGroupStatus | src/taxi/taxi.service.ts:112-129 | not found iff the id is unknown; otherwise the id, a member count between 1 and 4, the member ids in join order, isFull iff four members, and the destination |
| Timetable.FirstAtLeast | src/shuttle/shuttle.service.ts:26-28 | None iff no cell is a departure at or after the bound; otherwise the first such departure |
| Timetable.Column | src/shuttle/shuttle.service.ts:17-22 | the header line is dropped and every later line gives its cell in the column, in file order |
| Timetable.Lookup | src/shuttle/shuttle.service.ts:12-37 | a failed read gives None; otherwise None iff no departure at or after the current minute, else a non-negative wait to the first such departure |
| Timetable.LookupIsMinimalWait | src/shuttle/shuttle.service.ts:26-32 | on an ascending column the wait is at most the wait for any qualifying departure |
| Timetable.HeaderIgnored | src/shuttle/shuttle.service.ts:17-18 | the first line never affects a lookup |
| Timetable.CurrentMinutes | src/shuttle/shuttle.service.ts:24-25 | hours*60 + minutes of the wall clock lies in 0..1439 and is the minute of the day |
| Timetable.GStationTimeGtoM | src/shuttle/shuttle.service.ts:12-37 | column 3 of gStation.csv; None on a failed read or no later departure, otherwise the non-negative wait to the first departure |
| Timetable.MStationTimeGtoM | src/shuttle/shuttle.service.ts:39-64 | the same scan over column 3 of mStation.csv |
| Timetable.EverlineTimeGtoM | src/shuttle/shuttle.service.ts:66-92 | column 0 of everline.csv from current + m + 10; a result is at least m + 10 |
| Timetable.GStationTimeMtoG | src/shuttle/shuttle.service.ts:94-119 | column 2 of gStation.csv, otherwise as the G to M scan |
| Timetable.MStationTimeMtoG | src/shuttle/shuttle.service.ts:121-146 | column 2 of mStation.csv, otherwise as the G to M scan |
| ShuttleChoice.KoreanTime | src/shuttle/shuttle.controller.ts:8-12 | the wall clock of the shifted instant reads UTC + 9 hours |
| ShuttleChoice.KoreanMinuteOfDay | src/shuttle/shuttle.controller.ts:8-12 | lookups at Korean time use the minute of the day in UTC+9 |
| ShuttleChoice.ChooseMtoG | src/shuttle/shuttle.controller.ts:25-50 | a shuttle is proposed iff both lookups exist; Giheung iff g <= m (ties to Giheung); the time is the smaller wait; arrival = current time + time minutes |
| ShuttleChoice.ChooseGtoM | src/shuttle/shuttle.controller.ts:67-98 | a shuttle is proposed iff m, el and g all exist; Giheung iff g + 15 <= el + 16; the Myongji branch reports m, not el |
| ShuttleChoice.GetMtoGShuttle | src/shuttle/shuttle.controller.ts:14-51 | the response carries Korean time; a failed timetable read means no more shuttles; a proposed wait is non-negative |
| ShuttleChoice.GetGtoMShuttle | src/shuttle/shuttle.controller.ts:53-99 | as above for G to M |
| ShuttleChoice.GtoMEverlineAfterShuttle | src/shuttle/shuttle.controller.ts:58-62 | when a G to M shuttle is proposed, the Everline leg departs at least 10 minutes after the Myongji shuttle wait |
| Transport.Score | src/transport/transport.service.ts:33-57 | a score exists iff both times exist; 1260 * score = 1680(30-w) + 560(90-t) + 9(2800-c) + 1260(penalty + bonus) |
| Transport.ScoreDecreasing | src/transport/transport.service.ts:36-47 | with the rest fixed, more waiting, more travel time or more cost scores strictly less |
| Transport.ExampleScores | src/transport/transport.service.ts:26-55 | (w 10, t 40, c 0) scores 620/9 and beats (w 5, t 80, c 2800) at 340/9 |
| Transport.Scored | src/transport/transport.service.ts:31-59 | every kept option was an input option with both times and carries its score |
| Transport.ScoredKeepsAvailable | src/transport/transport.service.ts:31-59 | each option with both times is kept exactly as often as it occurs; every other option is gone |
| Transport.CalculateScores | src/transport/transport.service.ts:14-61 | a permutation of the scored options, non-increasing by score, all with both times |
| Transport.TravelTime | src/transport/transport.service.ts:91-97 | the default of 60 minutes is used exactly for routes outside the table |
| Transport.BusOption | src/transport/transport.service.ts:115-137 | a bus option always has both times; a known seat count is carried and an unknown one is absent; route 820 costs 1450 with bonus 5, every other route 2800 with bonus 0; departure and arrival follow the wait and the travel time |
| Transport.CalculateArrivalTime | src/transport/transport.service.ts:76-88 | the departure is the wait after now, and the arrival is the wait plus the total time after now, never before the departure for a non-negative total time |
| Transport.BusOptions | src/transport/transport.service.ts:115 | one option per arrival, in feed order |
| Transport.DiscountRouteOutranks | src/transport/transport.service.ts:91-137 | a route 820 bus outscores any other route arriving at the same time with the same seat information |
| Transport.DirectShuttleOption | src/transport/transport.service.ts:139-156 | available iff the lookup exists; free, with a total time of 15 minutes; departure and arrival are set iff the wait exists, at the wait and at the wait plus 15 minutes after now |
| Transport.CompositeOption | src/transport/transport.service.ts:157-176 | available iff both legs exist, and then its wait is their sum; 26 minutes, 1450 won; departure after the first leg, arrival after the first leg plus the sum of both legs, and times set iff available |
| Transport.GtoMOptions | src/transport/transport.service.ts:139-178 | the Giheung-to-university candidates: the direct shuttle first, the light rail with the Myongji-station shuttle second, then one bus option per arrival in feed order |
| Transport.MtoGOptions | src/transport/transport.service.ts:226-265 | the university-to-Giheung candidates in the same order: direct shuttle, Myongji-station shuttle with the light rail, then the buses |
| Transport.Top3 | src/transport/transport.service.ts:269-272 | a prefix of at most three, exactly three when there are at least three |
| Transport.GetRankedOptions | src/transport/transport.service.ts:63-273 | fails iff the upper-cased day is not MON..FRI; otherwise each direction is the first three of its ranked options |
| Transport.TopThreeOfScores | src/transport/transport.service.ts:267-272 | the kept options are input options with both times, best first, and no dropped option scores above a kept one |
| Transport.RankedListsAreTopThree | src/transport/transport.service.ts:269-272 | both directions of a successful ranking are such top-three lists |
| Transport.DayCheckExamples | src/transport/transport.service.ts:64-66 | "SAT" is refused and "fri" accepted |
| Ascii.ToLower | src/taxi/taxi.service.ts:185 | same length, each ASCII capital mapped to its small letter, every other character kept |
| Ascii.ToUpper | src/transport/transport.service.ts:65 | same length, each ASCII small letter mapped to its capital, every other character kept |
| Chat.OpenKeepsValid | src/chat/chat.service.ts:28-42 | adding a fresh active room for a group without one keeps one active room per group |
| Chat.CloseKeepsValid | src/chat/chat.service.ts:89-97 | deactivating a group's active room keeps the invariant and leaves that group with no active room |
| Chat.PostKeepsValid | src/chat/chat.service.ts:83 | changing a room's messages changes no group's active room |
| Chat.ChatService.FindActiveRoom | src/chat/chat.service.ts:28-30 | None iff the group has no active room; otherwise that room, the only one |
| Chat.ChatService.CreateChatRoom | src/chat/chat.service.ts:24-44 | an unknown group gives nothing and no change; an existing active room is returned unchanged; otherwise a new active room with the group's member ids and no messages is added under the fresh id |
| Chat.ChatService.GetChatRoom | src/chat/chat.service.ts:46-66 | not found iff the group has no active room; otherwise that room's id, messages and members |
| Chat.ChatService.SendMessage | src/chat/chat.service.ts:68-87 | nothing changes unless the group has an active room listing the sender; then exactly one message with the request's group, user and content is appended to that room's log |
| Chat.ChatService.CloseChatRoom | src/chat/chat.service.ts:89-98 | true iff the group had an active room, which is deactivated and nothing else changes; afterwards the group has no active room |
| OnlineUsers.InitialCountsZero | src/online-users/online-users.gateway.ts:19-22 | at start only mju and gh exist and every count is 0 |
| OnlineUsers.Connect | src/online-users/online-users.gateway.ts:29 | the set of directions stays the same; a known direction gains the user and loses nobody; other directions are unchanged |
| OnlineUsers.Disconnect | src/online-users/online-users.gateway.ts:39 | the set of directions stays the same; a known direction loses the user and gains nobody; other directions are unchanged |
| OnlineUsers.Count | src/online-users/online-users.gateway.ts:55 | zero exactly when the direction is unknown or nobody is in it |
| OnlineUsers.ConnectCounts | src/online-users/online-users.gateway.ts:28-30 | a connect adds the user to that direction, the count grows by one unless the user was in, other directions are unchanged |
| OnlineUsers.DisconnectCounts | src/online-users/online-users.gateway.ts:38-40 | a disconnect removes the user, the count drops by at most one, other directions are unchanged |
| OnlineUsers.ConnectIdempotent | src/online-users/online-users.gateway.ts:28-40 | connecting twice is connecting once, and one disconnect then removes the user |
| OnlineUsers.DirectionsFixed | src/online-users/online-users.gateway.ts:28-40 | no direction is ever added; an unknown direction changes nothing |
| OnlineUsers.OnlineUsersGateway.HandleConnection | src/online-users/online-users.gateway.ts:24-32 | with both handshake values present the set gains the user and the counts are broadcast; otherwise nothing changes and nothing is sent |
| OnlineUsers.OnlineUsersGateway.HandleDisconnect | src/online-users/online-users.gateway.ts:34-42 | the mirror image for removal |
| OnlineUsers.OnlineUsersGateway.BroadcastOnlineCount | src/online-users/online-users.gateway.ts:44-51 | the payload holds the sizes of the mju and gh sets (0 when absent) |
| OnlineUsers.OnlineUsersGateway.GetOnlineCount | src/online-users/online-users.gateway.ts:54-56 | the size of the direction's set, 0 for an unknown direction |

## Left out

- I/O is replaced by parameters and results:
  - reading timetable files, with a failed read as `ReadFailed`;
  - the socket handshake and `server.emit`, where the counts are returned instead;
  - the chat gateway's broadcast, where the message is returned instead;
  - `console` logging.
- The live bus feed (BusService) is not part of this model. Its arrivals are an input sequence, already converted by `parseInt`.
- The `setInterval` timers that run `cleanupOldGroups` every 5 minutes and `updatePriorities` every minute are not modelled. The two operations are methods for the environment to call.
- `Date.now()`, `new Date()` and `Math.random()` become a `now` argument and caller-chosen ids. Two effects of this:
  - The several `new Date()` calls in one operation are taken to be the same instant.
  - `TaxiService.ProcessLocation`, `TaxiService.CreateNewGroup` and `ChatService.CreateChatRoom` require the new id to be fresh. The source does not check this. On a collision `Map.set` would silently overwrite a group or room, and that case is not modelled.
- Taxi groups are values in a map keyed by id, and the queue holds (group id, priority). In the source the same group object sits in both structures. Under unique ids the two views coincide, so aliasing is not modelled.
- IEEE floating point is not modelled:
  - Coordinates are `Option<real>`, with NaN as `None`.
  - Timetable cells are `Option<int>`, with NaN from `Number` as `None`.
  - Scores and priorities are exact `real`s.
  - The −∞ score is `None`.
- The Korean message texts are tags (`ZoneMessage`, `ShuttleResponse`, `RoomNotFound`). The `| 그룹 번호: …` suffix of a successful taxi response is not modelled.
- `Ascii.ToLower` and `Ascii.ToUpper` map ASCII letters only. Unicode case mapping of other characters is not modelled.
- `getRankedOptions` calls `ShuttleService` with arguments that do not match its methods, and it calls `getEverlineTimeMtoG`, which that service does not define. `GetRankedOptions` therefore takes the lookup results and bus arrivals per direction as inputs.
- The time-zone offset of the host is a constant parameter. Daylight-saving changes between two instants are not modelled.
- `Sorting.SortBy` is stable by construction (each later element goes after its earlier equals), like `Array.prototype.sort`. Its stability is not stated as a lemma. Only permutation and order are proved.
- `Chat.ChatService.CreateChatRoom`: the source also returns null when the group status has no `memberIds`. A found group always has that array, so this case does not arise.
- A chat room's member list is a snapshot taken at creation. Riders who join the taxi group later cannot post. The model keeps this behaviour and no lemma states it.
- The users, authentication, controller and module wiring of the server are not part of this model.
