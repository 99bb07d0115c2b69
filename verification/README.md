# The realtime match server: a verified model

The realtime server hosts matches of up to four players. HTTP clients, through a gRPC control
plane, create rooms, issue one-shot join tickets, start a match, record finishes and delete
rooms. Game clients talk UDP: a join spends a ticket and takes a seat, parameter changes are
rate limited and broadcast to the match, and a background sweep removes idle lobby rooms. All of
this runs concurrently. The state lives behind two locks (the core state, and the registry of
client sessions), every packet is handled by a task of its own, and anything may happen between
two lock sections of one task.

This project models that server and proves what it keeps in every interleaving.
`dafny verify dfyconfig.toml` checks it.

## How it is built

| layer | files | what it holds |
|---|---|---|
| data | `Types`, `Ordering`, `Shuffle`, `Params` | records and constants, the order of ids, the shuffle, one parameter change |
| lock sections | `Lobby`, `Views`, `Answers`, `LobbyState`, `Registry` | each section of code that holds a lock: as a function of the state (`Lobby`), as exact cases and effects (`Answers`; `Views` for the lists shown), and as the in-place code of the classes `CoreState` and `ClientRegistry`, proved equal to the function |
| lobby machine | `World`, `Identity`, `Rooms`, `Deals`, `Starts`, `Ranks`, `Admissions`, `RateLimit`, `Sweeping`, `Lifetime`, `Outcomes` | a machine whose steps are the lock sections of the core state, with a history of lives and events; its invariants and what they mean for whole runs |
| server machine | `Server`, `Sessions`, `Membership`, `Echo`, `Effects`, `Journey`, `Race`, `Scenarios`, `Delivery`, `Recipients`, `Promises`, `Welcome` | tasks in flight, sessions, channels and packets; every step refines at most one lobby step (`Effects` says exactly what each does, `Promises` what a run owes its players) |
| framing | `Framing` | the newline-framed reader and writer over chunked input, which stands alone |

A lobby run (`World.Trace`) starts from the empty server and takes any sequence of lock sections.
A server run (`Membership.Run`) takes any sequence of steps of any tasks; `Membership.RunProjects`
turns it into a lobby run, so every lobby result holds in it.

Choices that matter when reading the results:

- Readings of the clock, generated ids and the generator's picks are arguments of the steps, so
  every result holds for all of them. A reading may be anything; where a result needs a positive
  or monotone clock it says so. `Starts.StartTakesHoldIff` shows that the positive clock is
  exactly what a start needs, because 0 is also the mark of an unstarted match.
- Match ids, player ids and tokens are fresh: never handed out before. That is what random UUIDs
  are for. The prefixes `m_` and `p_` are not modelled.
- A hash map's iteration order is an arbitrary choice in every loop over a map.
- An accepted parameter change reads the clock twice, once for the cooldown and once for the
  room's activity stamp, so that step has two readings.
- The receiving half of a channel has one owner at a time (the join, the registry, a removal, or
  nobody), because sends fail once it is dropped. That is how "who holds this player" is stated.
- The outgoing loop holds the registry lock over a whole pass; the server machine drains one
  message per step, which allows more interleavings. `Registry.DrainingIsSteps` connects the two.
- Positions and stage progress travel by datagram. Their handler looks the session up under one
  lock and collects the addresses under the other later, so it is two steps of the server machine;
  `relayed` records where each datagram went. Its content is opaque.

## Where code and documentation differ

The model follows the code.

- `docs/matchmaking-api.md:166` says guests can detect a start through `GET /v1/matches`. The list
  leaves started rooms out, so a started match disappears from it for good (`Starts.StartedIsUnlisted`).
- `docs/matchmaking-api.md:222` says a repeated finish returns the same rank. That holds exactly if
  the player is still in the room (`Ranks.RepeatedFinishIff`); a run in which it is not, and the
  repeated finish is refused, is `Scenarios.RepeatedFinishRefused`.
- `docs/udp-realtime-protocol-ja.md:164` says a position goes to the players other than the sender.
  The code leaves out the player it found at the lookup, and collects the addresses later. So the
  packet comes back to the address it was sent from exactly if, when it is sent on, another player
  than that one is there in the match: the session stored at the address now, a join that has its
  seat but no session yet, a removal that has not taken the seat yet, or a player left behind
  (`Echo.EchoMeansGhostMember`). Runs show it after two racing joins
  (`Scenarios.RacingJoinsEcho`), and with one join at a time after an early rejoin
  (`Scenarios.LateRemovalEchoes`) or after a rejoin between lookup and sending
  (`Scenarios.LateRelayComesBack`). Without overlapping joins only the stranded player drops out
  (`Echo.EchoWithoutOverlap`); if moreover the session found at the lookup is still the one stored,
  only a pending removal is left (`Echo.EchoMeansPendingRemoval`).
- `docs/udp-realtime-protocol-ja.md:101-110` shows `match_started` without the roster the code sends,
  and line 140 lists an error code `invalid_first_message` that the UDP code never sends.
- The check that an address has not joined yet releases its lock before the session is stored, so
  "every room member has a session, a join or a removal" is false in general. It fails for exactly
  the players whose session an insert has overwritten (`Membership.StrandedExactlyByOverwrite` for a
  step, `Membership.StrandedIffOverwritten` for a run); a run that does it is
  `Race.TwoJoinsFromOneAddressStrandAPlayer`; and without overlapping joins from one address the
  property holds (`Membership.MembershipImpliesHolder`).
- For the same reason a failing join may roll back another join's player. It takes its own exactly
  if the stored session is still its own (`Membership.RollbackTakesOwnPlayerIff`); a run in which it
  removes a player that had been welcomed is `Scenarios.RollbackTakesTheOthersPlayer`.

## Model

| member | source | states |
|---|---|---|
| `Ordering.SortIsCanonical` | realtime-split/realtime-server/src/room.rs:250-264 | Sorting by id the records collected from a map gives one list, whatever order the hash map was iterated in |
| `Ordering.SortedListIsCanonical` | realtime-split/realtime-server/src/grpc_service.rs:20-35 | The canonical list is strictly ascending by id, with exactly one entry per key of the map |
| `Ordering.LessIsLexicographic` | realtime-split/realtime-server/src/room.rs:230 | The order of ids is lexicographic: the first difference decides, and a prefix comes first |
| `Shuffle.ShuffleInPlace` | realtime-split/realtime-server/src/room.rs:232-241 | The in-place shuffle loop computes `Shuffled` for any picks of the generator |
| `Shuffle.ShufflePermutes` | realtime-split/realtime-server/src/room.rs:240-241 | For any picks a shuffle only rearranges: same elements, and distinct ones stay distinct |
| `Shuffle.EachArrangementHasItsPicks` | realtime-split/realtime-server/src/room.rs:232-241 | Every arrangement of distinct values is dealt by exactly one sequence of picks, so uniform and independent picks make all arrangements equally likely |
| `Params.ChangeMeaning` | realtime-split/realtime-server/src/params.rs:4-47 | For all 8-bit levels: a change succeeds iff the cooldown has passed and the unsaturated target is in 1..3 (friction 1..2), moves one level by one and no other, sets the next stamp to now + 7, and reports the cooldown before the range |
| `Params.OppositeChangeUndoes` | realtime-split/realtime-server/src/params.rs:11-47 | From levels within bounds, the opposite change after the cooldown is accepted and restores the parameters |
| `LobbyState.CoreState.CreateRoom` | realtime-split/realtime-server/src/grpc_service.rs:39-51 | The in-place code is the lobby step that adds an empty, unstarted room |
| `LobbyState.CoreState.ListRooms` | realtime-split/realtime-server/src/grpc_service.rs:53-72 | In any map order the list has exactly the unstarted rooms, in id order, each with its own data |
| `LobbyState.CoreState.IssueJoinTicket` | realtime-split/realtime-server/src/grpc_service.rs:74-118 | Each refusal iff its case holds; otherwise the ticket is for that match and id, under the name given or `player` if trimming leaves nothing of it, good for 3600 seconds, and only it and the activity stamp are new |
| `LobbyState.CoreState.GetRoom` | realtime-split/realtime-server/src/grpc_service.rs:120-137 | A room is found iff it exists, else `match_not_found`; found, started or not, the answer has its id, capacity 4, its own start stamp and its players in id order with their own data |
| `LobbyState.CoreState.DeleteRoom` | realtime-split/realtime-server/src/grpc_service.rs:193-208 | Removing the room and retaining the tickets of others is the deletion step |
| `LobbyState.CoreState.ConsumeTicket` | realtime-split/realtime-server/src/ticket.rs:5-15 | The ticket is removed before its expiry is checked; `invalid_token`, `token_expired` and success each iff their case holds |
| `LobbyState.CoreState.RegisterPlayerUdp` | realtime-split/realtime-server/src/player.rs:9-65 | Refused iff the match is missing, or full of others; otherwise the player sits in that room under the address and channel, and nothing but it and the stamp has changed |
| `LobbyState.CoreState.RemovePlayer` | realtime-split/realtime-server/src/player.rs:67-73 | The removal step: it touches the room even when the player is not there |
| `LobbyState.CoreState.UpdatePlayerParams` | realtime-split/realtime-server/src/room.rs:14-41 | Accepted iff the player is a member, its stamp has passed and the level stays in range, each of the four errors iff its case holds; accepted, one level of one player moves by one; refused, nothing changes |
| `LobbyState.CoreState.DeleteStaleLobbyRooms` | realtime-split/realtime-server/src/room.rs:43-67 | The collect, remove one by one and retain form equals one filter of rooms and tickets; the ids returned are exactly the removed ones, without repetition |
| `LobbyState.CoreState.StartMatchAndSnapshotPlayers` | realtime-split/realtime-server/src/room.rs:166-186 | Stamping, dealing and taking the snapshot in place is the start step: refused iff the match is missing, and only an unstarted match takes the new stamp |
| `LobbyState.CoreState.FinishPlayer` | realtime-split/realtime-server/src/room.rs:188-225 | A finish succeeds iff the match exists, is started and has the player as a member; each of the three errors has its exact case, in their order; a success appends a new finisher to the list and no other, and points into it |
| `LobbyState.CoreState.ReliableSenders` | realtime-split/realtime-server/src/room.rs:86-96 | The senders cloned under the lock are those of all members, each once, in the map's order; none for a missing match |
| `LobbyState.CoreState.DatagramAddrs` | realtime-split/realtime-server/src/room.rs:103-153 | The addresses collected are one for each connected member but the excepted one, repetitions included |
| `LobbyState.AddrsAreTargets` | realtime-split/realtime-server/src/room.rs:134-136 | As many packets leave as there are receivers, to exactly their addresses |
| `LobbyState.AssignRandomizedLayout` | realtime-split/realtime-server/src/room.rs:227-248 | The dealing loop over the sorted ids, with in-place shuffles, is the function `Deal` of players and picks |
| `LobbyState.DealHands` | realtime-split/realtime-server/src/room.rs:235-247 | The loop gives the player at each position that position's colour and its own run of stages |
| `LobbyState.CollectSnapshot` | realtime-split/realtime-server/src/room.rs:250-264 | The roster is the canonical snapshot, whatever order the map was read in |
| `LobbyState.CollectRoomPlayers` | realtime-split/realtime-server/src/grpc_service.rs:20-35 | The player list is canonical, whatever order the map was read in |
| `Answers.IssueMeaning` | realtime-split/realtime-server/src/grpc_service.rs:74-118 | Each answer of a ticket request iff its case holds, the exact ticket, and that nothing but it and the stamp changes |
| `Answers.BlankIffNothingLeft` | realtime-split/realtime-server/src/grpc_service.rs:79-84 | A name counts as blank iff trimming white space from both ends leaves nothing of it |
| `Answers.ConsumeMeaning` | realtime-split/realtime-server/src/ticket.rs:5-15 | Each answer iff its case holds; exactly the named ticket goes |
| `Answers.RegisterMeaning` | realtime-split/realtime-server/src/player.rs:9-65 | Each answer iff its case holds, the exact new player, and that no other player, room or ticket changes |
| `Answers.RemoveMeaning` | realtime-split/realtime-server/src/player.rs:67-73 | Exactly the named player leaves; of the room only the stamp changes besides |
| `Answers.UpdateMeaning` | realtime-split/realtime-server/src/room.rs:14-41 | Success iff member, due and in range, each error iff its case holds; exactly one level of one player moves by one |
| `Answers.StartMeaning` | realtime-split/realtime-server/src/room.rs:166-186 | Only an unstarted match changes: it takes the stamp, and its members nothing but a hand; every reply has the stamp and roster of the room after it |
| `Answers.FinishMeaning` | realtime-split/realtime-server/src/room.rs:188-225 | Success iff the match exists, is started and has the member; each error iff its case holds; the rank is the first place of the player in the list, which grows by it iff it was not there |
| `Registry.ClientRegistry.Contains` | realtime-split/realtime-server/src/udp_connection.rs:153-159 | The check at the head of a join, which goes on exactly if the address is free, as in the machine's step |
| `Registry.ClientRegistry.Get` | realtime-split/realtime-server/src/udp_connection.rs:223-236 | The lookup at the head of a parameter change, and of a datagram (lines 277-283), which carries the session found, as in the machine's steps |
| `Registry.ClientRegistry.Insert` | realtime-split/realtime-server/src/udp_connection.rs:185-197 | Storing a session replaces and drops the one at the same address; sessions and channels end up as in the machine's insert step |
| `Registry.ClientRegistry.Remove` | realtime-split/realtime-server/src/udp_connection.rs:337-341 | The removed session moves into the removing task; sessions and channels end up as in the machine's step |
| `Registry.ClientRegistry.DrainAll` | realtime-split/realtime-server/src/udp_connection.rs:45-60 | One pass empties the channel of every session, in order, to that session's address, and touches no other channel |
| `Registry.SessionsOwnChannels` | realtime-split/realtime-server/src/udp_connection.rs:171-197 | What the outgoing loop relies on: in every reachable state each session has a channel of its own |
| `Registry.DrainingIsSteps` | realtime-split/realtime-server/src/udp_connection.rs:49-59 | Draining one session in the loop equals as many single drain steps as messages were waiting |
| `Identity.AgreeKept` | realtime-split/realtime-server/src/grpc_service.rs:91-109 | Every lock section keeps: tickets, claims and seats agree with the lives of the ids in both directions, and every outstanding ticket names an existing match |
| `Identity.LifeOnlyAdvances` | realtime-split/realtime-server/src/udp_connection.rs:145-213 | Over any run a player id moves only forward (waiting, claimed, seated, removed; or purged, or rejected) and never to another match |
| `Identity.SpentTokensStaySpent` | realtime-split/realtime-server/src/ticket.rs:7-10 | A token that is gone never comes back, so no ticket is consumed twice |
| `Identity.OnePlacePerId` | realtime-split/realtime-server/src/udp_connection.rs:162-182 | No two tickets, no two seats, no ticket and seat, and no claim beside either share a player id |
| `Identity.TicketsAreConserved` | realtime-split/realtime-server/src/grpc_service.rs:101-109 | In every run: tickets outstanding + claims in flight + players in all rooms + purged + rejected + removed = tickets ever issued |
| `Identity.TicketsMatchWaiting` | realtime-split/realtime-server/src/ticket.rs:7-10 | The number of tickets stored is the number of ids still waiting |
| `Identity.SeatsMatchPlayers` | realtime-split/realtime-server/src/player.rs:49-61 | The players in all rooms together are as many as the ids seated |
| `Identity.RegistrationIsNeverARejoin` | realtime-split/realtime-server/src/player.rs:27-47 | The branches that preserve an existing player are unreachable, and an accepted registration returns the defaults |
| `Identity.AdmittedOnceKept` | realtime-split/realtime-server/src/player.rs:9-65 | No player id is admitted twice, and every admission has the default parameters |
| `Rooms.DealGivesEveryoneAHand` | realtime-split/realtime-server/src/room.rs:227-248 | With at most four players and any picks everyone gets a colour below 4 and four different stages below 5, and all colours differ |
| `Rooms.StartDealsEveryone` | realtime-split/realtime-server/src/room.rs:166-186 | A start replies with the canonical roster of exactly the members at that step; when it deals, everyone has a full hand and the roster's colours differ |
| `Deals.DealMeaning` | realtime-split/realtime-server/src/room.rs:227-248 | The player with n members before it in id order gets place n of the shuffled palette, if there is one, and the first four stages of shuffle n of the pool; nothing else about it changes |
| `Deals.EveryHandHappens` | realtime-split/realtime-server/src/room.rs:232-247 | No hand is out of reach: any different colours and any four different stages for each of up to four players are what some picks deal |
| `Views.SnapshotIsCanonical` | realtime-split/realtime-server/src/room.rs:250-264 | One entry per player in id order, showing that player's name and hand, colour 0 for none |
| `Views.RoomPlayersAreCanonical` | realtime-split/realtime-server/src/grpc_service.rs:20-35 | One entry per player in id order, showing that player's name, levels and cooldown |
| `Views.ListIsCanonical` | realtime-split/realtime-server/src/grpc_service.rs:53-72 | The list has exactly the unstarted rooms, in id order, each once, with its players |
| `Views.SummaryMeaning` | realtime-split/realtime-server/src/grpc_service.rs:20-35 | Of every room, started or not, the summary has the id, capacity 4, the start stamp and the canonical player list |
| `Views.ListShowsRooms` | realtime-split/realtime-server/src/grpc_service.rs:53-72 | The list shows every unstarted room as it is, in id order, and no other |
| `Rooms.RoomsOkKept` | realtime-split/realtime-server/src/player.rs:23-25 | Every lock section keeps: at most four players, levels within bounds, each hand full or empty, and dealt colours different |
| `Rooms.HandsNeverChange` | realtime-split/realtime-server/src/room.rs:176-181 | Over any run, once a match has started its stamp and every member's colour, stages and stage index stay; a late joiner keeps the empty hand |
| `Rooms.RoomsNeverReturn` | realtime-split/realtime-server/src/grpc_service.rs:43-45 | A match id whose room is gone never names a room again |
| `Starts.StartInvKept` | realtime-split/realtime-server/src/room.rs:176-185 | With positive readings: all starts of a match return one stamp, exactly the first reports that it started, and the room carries that stamp |
| `Starts.StartTakesHoldIff` | realtime-split/realtime-server/src/room.rs:176-181 | A start takes hold iff its reading is not 0; after a start at 0 the next one deals and reports again |
| `Starts.StartedIsUnlisted` | realtime-split/realtime-server/src/grpc_service.rs:57-69 | A started match is never listed again in the run |
| `Ranks.FinishReply` | realtime-split/realtime-server/src/room.rs:199-224 | A finish that succeeds points at the player's place in the list, extended only by a first finish, and reports both counts |
| `Ranks.RankInvKept` | realtime-split/realtime-server/src/room.rs:207-218 | Every lock section keeps: the list is the order of first finishes on record, is non-empty only in a started match, and every reply ever sent points at its player's place |
| `Ranks.RankCountsEarlierFinishers` | realtime-split/realtime-server/src/room.rs:207-218 | A rank is 1 plus the number of distinct players who finished the match earlier |
| `Ranks.RanksIdentifyPlayers` | realtime-split/realtime-server/src/room.rs:207-218 | Two replies of a match have the same rank iff they are about the same player |
| `Ranks.RanksAreOneToN` | realtime-split/realtime-server/src/room.rs:207-218 | The ranks handed out in a match are exactly 1 to the number of its finishers |
| `Ranks.RepeatedFinishIff` | realtime-split/realtime-server/src/room.rs:203-218 | A repeated finish changes nothing, and returns the same rank iff the player is still in the room |
| `Scenarios.RepeatedFinishRefused` | realtime-split/realtime-server/src/room.rs:203-205 | A run from the empty server in which a player finishes first, loses its seat because its join reply is lost, and is refused when it repeats the finish |
| `Ranks.FinishersAccountedKept` | realtime-split/realtime-server/src/room.rs:203-216 | A finisher's ticket is spent, and it is a member unless a removal is on record |
| `Admissions.MembersAdmittedKept` | realtime-split/realtime-server/src/player.rs:49-61 | Every lock section keeps: every member of a match and every id on its finish list has an admission to that match on record |
| `Admissions.RepliesAdmittedKept` | realtime-split/realtime-server/src/room.rs:203-224 | Every lock section keeps: every reply to a finish ever sent is about a player admitted to that match |
| `Ranks.FinishedAtMostTotal` | realtime-split/realtime-server/src/room.rs:220-224 | While nobody was removed from a match, finishers are at most players |
| `RateLimit.RateInvKept` | realtime-split/realtime-server/src/room.rs:30-38 | Every lock section keeps, without any assumption on the clock: two accepted changes of one player have readings at least 7 apart, and the stamp is never reset |
| `RateLimit.WindowBound` | realtime-split/realtime-server/src/params.rs:18-22 | In any window of length T one player has at most T/7 + 1 accepted changes, all three parameters together |
| `RateLimit.LevelsAddUpKept` | realtime-split/realtime-server/src/room.rs:30-38 | Each level of each member is 2 plus its accepted increases minus its accepted decreases |
| `RateLimit.RejectedChangeTouchesNothing` | realtime-split/realtime-server/src/room.rs:30-36 | A rejected change leaves levels, cooldown, activity stamp and everything else as they were |
| `Sweeping.SweepMeaning` | realtime-split/realtime-server/src/room.rs:43-67 | A sweep removes exactly the unstarted rooms idle for the timeout, with exactly their tickets, and changes no other room or ticket |
| `Sweeping.EarlyReadingIsHarmless` | realtime-split/realtime-server/src/room.rs:44-51 | Although the clock is read before the lock, a room touched at or after the reading survives |
| `Sweeping.SweepIsIdempotent` | realtime-split/realtime-server/src/room.rs:43-67 | A second sweep at the same reading removes nothing |
| `Sweeping.DeleteMeaning` | realtime-split/realtime-server/src/grpc_service.rs:193-208 | Deleting a match removes it and its tickets, leaves every other room and ticket, and fails iff the match is missing |
| `Sweeping.SweepInvKept` | realtime-split/realtime-server/src/room.rs:46-54 | Every lock section keeps: a room's activity stamp is the last on record, an unstarted room outlived every sweep since, and swept rooms had been idle for 180 seconds |
| `Sweeping.SweptRoomsWereQuiet` | realtime-split/realtime-server/src/room.rs:46-54 | With a monotone clock all recorded activity of a swept room was at least 180 old at the reading |
| `Sweeping.NoStartedSweptKept` | realtime-split/realtime-server/src/room.rs:49-52 | With a positive clock no sweep in any run removes a match that was started |
| `Lifetime.EveryReachableState` | realtime-split/realtime-server/src/types.rs:122-126 | All lobby invariants hold together in every state of every run, however the lock sections interleave |
| `Outcomes.TicketWindow` | realtime-split/realtime-server/src/ticket.rs:5-15 | A ticket works up to and including 3600 seconds after its issue, for the match, id and name it was issued with, and using it once, in time or not, spends it |
| `Outcomes.RemovalUndoesRegistration` | realtime-split/realtime-server/src/player.rs:17-73 | Registration is refused iff the match is missing or full of others; an accepted one seats the player as told, and a removal afterwards restores the room but for its activity stamp |
| `Outcomes.RoomsNeverOverfill` | realtime-split/realtime-server/src/player.rs:23-25 | In every run each room has at most four players, however many tickets are out |
| `Outcomes.TicketsReserveNoSeats` | realtime-split/realtime-server/src/grpc_service.rs:91-109 | For every n there is a run with n tickets outstanding for one empty room |
| `Outcomes.GoneMatchIsNeverTouched` | realtime-split/realtime-server/src/player.rs:17-21 | After a deletion or sweep nothing happens in the match again; in particular nobody is admitted, not even a join that already spent its ticket |
| `Outcomes.FinishedOnlyGrows` | realtime-split/realtime-server/src/room.rs:207-218 | Over any run the finish list is only extended and never has repetitions |
| `Outcomes.ReclaimedOnTime` | realtime-split/realtime-server/src/cleanup.rs:8-23 | With sweep readings at most G apart, a room without activity after a is, from right after some sweep that read less than a + 180 + G, at no later time of the run an unstarted room |
| `Sessions.StepRefinesLobby` | realtime-split/realtime-server/src/udp_connection.rs:145-263 | Every step of the server is at most one step of the lobby |
| `Sessions.StepKeepsSessionInv` | realtime-split/realtime-server/src/udp_connection.rs:145-213 | Every step keeps: claims are the joins that consumed a ticket, every player ever seated has one channel, and every receiver has the one owner it says |
| `Membership.EveryReachableServer` | realtime-split/realtime-server/src/udp_connection.rs:83-85 | In every state of every run of the server, all session and lobby invariants hold |
| `Membership.RunProjects` | realtime-split/realtime-server/src/udp_connection.rs:83-85 | The lobby states along a server run form a lobby run |
| `Membership.ClaimIsPermitted` | realtime-split/realtime-server/src/udp_connection.rs:162-182 | A join that consumed a ticket can always go on to register: the machine never blocks it |
| `Membership.SessionImpliesMembership` | realtime-split/realtime-server/src/udp_connection.rs:184-197 | In every reachable state a session is stored under its own address; its match is gone or its player is in that room at that address; no player has two sessions |
| `Membership.HeldAtMostOnce` | realtime-split/realtime-server/src/udp_connection.rs:184-210 | No player is held by two joins, sessions or removals, of the same or different kinds |
| `Membership.HeldIffReceiverAlive` | realtime-split/realtime-server/src/udp_connection.rs:171-197 | A member is held by a join, session or removal iff the receiver of its channel is alive |
| `Membership.StrandedExactlyByOverwrite` | realtime-split/realtime-server/src/udp_connection.rs:152-197 | After any step the players nobody will ever remove alone are those of before whose room still exists, and the one whose session the step overwrote |
| `Membership.MembershipImpliesHolder` | realtime-split/realtime-server/src/udp_connection.rs:152-210 | As long as at most one join per address has been under way, every member of every room is held by a join, a session or a removal |
| `Membership.StrandedIffOverwritten` | realtime-split/realtime-server/src/udp_connection.rs:152-197 | In any run a player is stranded iff an earlier insert overwrote its session and its room is still there |
| `Membership.RollbackTakesOwnPlayerIff` | realtime-split/realtime-server/src/udp_connection.rs:207-210 | A failed join drops whatever session its address holds, and takes its own player iff that session is still the one it inserted |
| `Membership.RollbackRemovesOwnPlayer` | realtime-split/realtime-server/src/udp_connection.rs:207-210 | With one join per address under way a failed join drops its own session and player, nobody else's |
| `Echo.ReachedIffOccupied` | realtime-split/realtime-server/src/room.rs:109-126 | In every reachable state a datagram for a match reaches an address iff the session there, a seated join, a pending removal or a stranded player is of that match, other than the excepted player |
| `Echo.EchoMeansGhostMember` | realtime-split/realtime-server/src/udp_connection.rs:277-298 | A position comes back to the address it was sent from iff that address is so occupied, by another player than the one found at the lookup, when the position is sent on |
| `Echo.EchoWithoutOverlap` | realtime-split/realtime-server/src/udp_connection.rs:277-298 | Without overlapping joins from one address the stranded player drops out of the causes |
| `Echo.EchoMeansPendingRemoval` | realtime-split/realtime-server/src/udp_connection.rs:277-298 | If moreover the session found at the lookup is still the one stored, only a pending removal is left |
| `Echo.DatagramsStayInMatch` | realtime-split/realtime-server/src/udp_connection.rs:265-315 | In every run a player's datagrams go only to addresses at which a player of its match was seated, and its positions to another player's; that they go to all of them is `Promises.RelaysAreExact` |
| `Journey.JoinGoesThrough` | realtime-split/realtime-server/src/udp_connection.rs:145-197 | Progress: in any reachable state a join from a free address with a good ticket for a match with a free seat gets seat and session in its next four steps |
| `Race.SecondInsertStrands` | realtime-split/realtime-server/src/udp_connection.rs:185-197 | Whenever two registered joins share an address, inserting both strands the first one's player |
| `Race.TwoJoinsFromOneAddressStrandAPlayer` | realtime-split/realtime-server/src/udp_connection.rs:152-197 | A run from the empty server that strands a player, at an address whose session would now hear its own positions |
| `Scenarios.RacingJoinsEcho` | realtime-split/realtime-server/src/udp_connection.rs:152-197 | A run in which two joins race from one address and a position comes back |
| `Scenarios.LateRemovalEchoes` | realtime-split/realtime-server/src/udp_connection.rs:207-210 | A run with never two joins from one address under way in which a position comes back because a removal is pending |
| `Scenarios.LateRelayComesBack` | realtime-split/realtime-server/src/udp_connection.rs:277-298 | Such a run in which it comes back because another player has joined from the address since the lookup, with no join, removal or stranded player there |
| `Scenarios.RollbackTakesTheOthersPlayer` | realtime-split/realtime-server/src/udp_connection.rs:207-210 | A run in which a failing join removes another join's player, already welcomed, and leaves its own behind |
| `Effects.JoinConsumeMeaning` | realtime-split/realtime-server/src/udp_connection.rs:161-168 | A ticket there and in time moves into the task; else the task ends with exactly one packet, `auth_failed` with the reason of the case, to its address |
| `Effects.JoinRegisterMeaning` | realtime-split/realtime-server/src/udp_connection.rs:170-182 | With the match there and a seat free the player is seated with defaults and a new channel; else the task ends with exactly one packet, `join_failed` with the reason of the case, and the lobby stays |
| `Effects.DropPlayerMeaning` | realtime-split/realtime-server/src/udp_connection.rs:343-344 | Exactly that session's player leaves its room, if the room is there, and its channel closes |
| `Effects.ParamUpdateMeaning` | realtime-split/realtime-server/src/udp_connection.rs:238-262 | A change is announced to the match, with the new levels and the request's number, iff it is logged iff member, due and in range; else its sender alone gets `param_update_failed` with the one reason whose case holds |
| `Effects.StartRoomMeaning` | realtime-split/realtime-server/src/grpc_service.rs:139-167 | Iff the room is there and unstarted, the start spawns one announcement, with the stamp and roster the room has from then on |
| `Effects.FanoutMeaning` | realtime-split/realtime-server/src/room.rs:86-96 | The recipients are the channels of the members at that step, one each; without the room the broadcast ends |
| `Effects.RelayMeaning` | realtime-split/realtime-server/src/room.rs:103-163 | With the room there a datagram goes to exactly the addresses of its connected members, for a position other than the player found at the lookup; these are the occupied addresses; without the room it goes nowhere |
| `Effects.SweepStepsMeaning` | realtime-split/realtime-server/src/room.rs:43-67 | The reading is taken first and kept; whenever the lock is got, exactly the rooms unstarted and idle for 180 seconds by that reading go |
| `Delivery.StepKeepsDelivery` | realtime-split/realtime-server/src/udp_connection.rs:238-262 | Every step keeps the delivery invariant: each channel holds only what belongs in it, each announced event reaches it at most once |
| `Delivery.ChannelsConserveAndIsolate` | realtime-split/realtime-server/src/udp_connection.rs:49-58 | In every run: emitted + queued = accepted, at most 1024 wait, all went to one address, and each message is an error for that player or announces an event of that match; announced levels are those all changes so far add up to |
| `Delivery.AtMostOneStartPerChannel` | realtime-split/realtime-server/src/grpc_service.rs:149-161 | With a positive clock a channel never carries two start announcements; that it carries one is `Promises.StartIsHeardOnce` |
| `Delivery.AnnouncedChangesAreSpaced` | realtime-split/realtime-server/src/udp_connection.rs:251-262 | The stamps of one sender's changes in a channel are pairwise at least 7 apart, so no change is announced twice |
| `Recipients.SendAllReachesTargets` | realtime-split/realtime-server/src/room.rs:98-100 | The send loop gives every live target the message once, at the end of its queue, and changes nothing else |
| `Recipients.BroadcastIsDelivered` | realtime-split/realtime-server/src/room.rs:86-101 | In every run, whatever comes between the sends and however long they wait: when a broadcast is done, the channel of everyone who was a member when the recipients were collected has accepted the message exactly once or lost its receiver, and no other channel ever hears of it |
| `Recipients.MembersHaveChannels` | realtime-split/realtime-server/src/room.rs:92-95 | Every member of a match has a channel of its own among those a broadcast collects |
| `Recipients.BlockedSendCanGoOn` | realtime-split/realtime-server/src/udp_connection.rs:49-58 | A send waiting on a full channel is never stuck: the holder of the receiver has a step, which lets the send go on or hands the receiver to the outgoing loop |
| `Recipients.BroadcastReachesMembers` | realtime-split/realtime-server/src/room.rs:86-101 | If nothing comes in between and no channel is full, the message ends up last in the queue of exactly the members held by a join, session or removal; a stranded member never gets it |
| `Promises.NoTaskIsStuck` | realtime-split/realtime-server/src/udp_connection.rs:145-315 | In every reachable state each task can take its next step, at any reading and in any order of the map, exactly unless it is to send into an open channel in which 1024 messages wait |
| `Promises.RequestsAreServed` | realtime-split/realtime-server/src/udp_connection.rs:89-143 | In every state any packet and any call to start, finish or delete can be taken up |
| `Promises.StartIsAnnounced` | realtime-split/realtime-server/src/grpc_service.rs:149-161 | In every run each first start on record has its announcement, with the stamp and roster on record: waiting, or fanned out to the members of that moment, of whom each has it coming, has it exactly once or has lost its receiver; or the room was gone by then |
| `Promises.StartIsHeardOnce` | realtime-split/realtime-server/src/grpc_service.rs:149-161 | With a positive clock, when the announcement is done each member channel at its fan-out carries exactly one start, unless its receiver is gone |
| `Promises.ChangeIsAnnounced` | realtime-split/realtime-server/src/udp_connection.rs:251-262 | In every run each accepted change on record is announced in the same way, with the levels all changes so far add up to |
| `Promises.RefusalIsReported` | realtime-split/realtime-server/src/udp_connection.rs:238-249 | In every run a refused change is reported: its sender's channel has the error with the one reason coming, has accepted it after the refusal, or has lost its receiver |
| `Promises.RelaysAreExact` | realtime-split/realtime-server/src/room.rs:103-163 | In every run each datagram on record went to exactly the addresses occupied in the match, for a position by another player, at the step that sent it |
| `Promises.SweepsUseReadings` | realtime-split/realtime-server/src/room.rs:43-45 | In every run each sweep goes by a reading that an earlier step took for it |
| `Welcome.WelcomedOnce` | realtime-split/realtime-server/src/udp_connection.rs:199-207 | In every run a player gets at most one `join_ok`, at the address and for the match it was seated, with the default parameters |
| `Framing.ReadJsonLine` | realtime-split/realtime-server/src/protocol.rs:5-28 | The draining and extending loop returns the stream's next non-empty line (parsed, or a parse error with the line consumed), and the buffer with the unread chunks is what follows it; it ends on every finite stream |
| `Framing.OutcomeMeaning` | realtime-split/realtime-server/src/protocol.rs:5-28 | A read gives the first non-empty segment, parsed or a parse error, and leaves the others; without one it gives the stream's own failure, or its end |
| `Framing.RestMeaning` | realtime-split/realtime-server/src/protocol.rs:10-18 | Only empty lines and the line itself are consumed; without a line what is left has no newline |
| `Framing.ReadToEnd` | realtime-split/realtime-server/src/protocol.rs:5-28 | Reading until the stream ends returns the outcomes of exactly its non-empty terminated segments, in order |
| `Framing.ReadLinesAreSegments` | realtime-split/realtime-server/src/protocol.rs:10-18 | Lines read one after the other are the non-empty segments found by looking at one byte after the other |
| `Framing.LinesIgnoreChunks` | realtime-split/realtime-server/src/protocol.rs:19-26 | Only the bytes matter, not where the stream was cut into chunks |
| `Framing.TailIsNeverRead` | realtime-split/realtime-server/src/protocol.rs:19-26 | Bytes after the last newline never become part of a line |
| `Framing.NextLineGrows` | realtime-split/realtime-server/src/protocol.rs:10-26 | The next line stays the same when more bytes arrive, which go to the rest |
| `Framing.WriteJsonLine` | realtime-split/realtime-server/src/protocol.rs:30-35 | Writing appends the encoded message and one newline to the stream |
| `Framing.RoundTrip` | realtime-split/realtime-server/src/protocol.rs:5-35 | The framed bytes of a list of messages are read back as that list, for any cut into chunks |
| `Framing.FramedAppend` | realtime-split/realtime-server/src/protocol.rs:30-35 | Writing lists one after the other frames their concatenation |
| `Framing.EveryCutHasSizes` | realtime-split/realtime-server/src/protocol.rs:19-24 | Every cut of a stream into chunks is one of those an exchange ranges over, up to an empty chunk at the end |
| `Framing.Exchange` | realtime-split/realtime-server/src/protocol.rs:5-35 | Messages written one after the other, cut anyhow and read to the end come back as the same list |
| `Framing.FrameableIsExact` | realtime-split/realtime-server/src/protocol.rs:30-35 | One encoded message comes back whole iff it is non-empty and has no raw newline |

## Left out

- `api-server`: it forwards HTTP requests field by field to the control plane and maps status codes.
- Sockets, the async runtime, tonic and gRPC framing: a packet is a message and an address; the runtime appears as free interleaving of steps.
- JSON: parsing is an arbitrary partial function and encoding an arbitrary function; the round trip assumes that encoding is non-empty and free of raw newlines, as compact JSON with the string escaping of section 7 of RFC 8259 is, and that parsing inverts it.
- Malformed packets, unknown packet types and packets from addresses without a session: the code drops them without touching any state.
- Texts of error messages and log output: errors are values of one datatype.
- `connection.rs` and `server.rs`: an earlier QUIC path that is not compiled; `broadcast_reliable` (`room.rs:69-84`), which only that path uses, has the same body as the UDP broadcast.
- Overflow of 64-bit timestamps, milliseconds and sequence numbers and of 32-bit ranks and counts: these are natural numbers here. Parameter levels are 8 bits wide and saturate as in the code.
- Delivery order between tasks, and delivery over the network: within a channel messages stay in order, but two broadcasts may be enqueued at different members in different orders, and a sent packet may be lost.
- Recipients.BroadcastReachesMembers: the sequential case only; `Recipients.BroadcastIsDelivered` is the statement for every interleaving.
- That a waiting send does get its turn: the model has no scheduler, so it says which step lets the send go on, not that the step is taken.
- Membership.MembershipImpliesHolder: holds only with at most one join per address under way; the general claim is false, as described above.
- Players that are stranded, sessions of deleted rooms, and late joiners without a layout: the model says what the code does with them and proposes no policy.
- The position and velocity in datagrams, and the stage index a client reports: payloads that the server passes on unread.
- `LobbyState.CoreState` and `Registry.ClientRegistry` keep rooms, players and channels as values in maps; aliasing of shared handles is modelled by ids, not by references.
