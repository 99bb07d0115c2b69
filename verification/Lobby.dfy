/**
 What each section of code that holds the main lock does to the core state, as a function of
 the state, the arguments, the clock readings and the generator's picks.
 */
module Lobby {
  import opened Wrappers
  import opened Types
  import opened Ordering
  import opened Shuffle
  import opened Params

  // ----- rooms and tickets (grpc_service.rs) -----

  function NewRoom(now: Unix): MatchRoom {
    MatchRoom(map[], 0, now, [])
  }

  function CreateRoom(c: Core, mid: Id, now: Unix): Core {
    c.(matches := c.matches[mid := NewRoom(now)])
  }

  /** The characters the standard library trims as white space. */
  predicate IsWhitespace(ch: char) {
    || '\U{0009}' <= ch <= '\U{000D}' || ch == ' ' || ch == '\U{0085}' || ch == '\U{00A0}'
    || ch == '\U{1680}' || '\U{2000}' <= ch <= '\U{200A}' || ch == '\U{2028}' || ch == '\U{2029}'
    || ch == '\U{202F}' || ch == '\U{205F}' || ch == '\U{3000}'
  }

  predicate IsBlank(name: string) {
    forall ch | ch in name :: IsWhitespace(ch)
  }

  function ChosenName(name: string): (r: string)
    ensures !IsBlank(r)
  {
    if IsBlank(name) then
      assert 'p' in "player" by { assert "player"[0] == 'p'; }
      "player"
    else name
  }

  function IssueJoinTicket(c: Core, mid: Id, name: string, pid: Id, token: Token, now: Unix)
    : (Core, Result<Ticket, LobbyError>)
  {
    if mid !in c.matches then (c, Err(MatchNotFound))
    else
      var room := c.matches[mid];
      if |room.players| >= ROOM_MAX_PLAYERS then (c, Err(MatchFull))
      else
        var ticket := Ticket(mid, pid, ChosenName(name), now + TOKEN_TTL_SECS);
        (Core(c.matches[mid := room.(lastActivity := now)], c.tickets[token := ticket]), Ok(ticket))
  }

  /** Rooms removed together with the tickets that name them. */
  function DropRooms(c: Core, gone: set<Id>): Core {
    Core(c.matches - gone,
         map token | token in c.tickets && c.tickets[token].matchId !in gone :: c.tickets[token])
  }

  function DeleteRoom(c: Core, mid: Id): (Core, Result<(), LobbyError>) {
    if mid !in c.matches then (c, Err(MatchNotFound)) else (DropRooms(c, {mid}), Ok(()))
  }

  // ----- tickets (ticket.rs) -----

  /** The ticket is spent before its expiry is looked at. */
  function ConsumeTicket(c: Core, token: Token, now: Unix): (Core, Result<Ticket, LobbyError>) {
    if token !in c.tickets then (c, Err(InvalidToken))
    else
      var ticket := c.tickets[token];
      (c.(tickets := c.tickets - {token}),
       if ticket.expiresAt < now then Err(TokenExpired) else Ok(ticket))
  }

  // ----- players (player.rs) -----

  function NewPlayer(name: string, addr: SocketAddr, tx: ChannelId): PlayerHandle {
    PlayerHandle(name, DEFAULT_PARAMS, 0, None, [], 0, tx, Some(addr))
  }

  function RegisterPlayer(c: Core, mid: Id, pid: Id, name: string, addr: SocketAddr, tx: ChannelId, now: Unix)
    : (Core, Result<PlayerParams, LobbyError>)
  {
    if mid !in c.matches then (c, Err(MatchNotFound))
    else
      var room := c.matches[mid];
      if |room.players| >= ROOM_MAX_PLAYERS && pid !in room.players then (c, Err(MatchFull))
      else
        var player :=
          if pid in room.players
          then room.players[pid].(displayName := name, tx := tx, connection := Some(addr))
          else NewPlayer(name, addr, tx);
        (c.(matches := c.matches[mid := room.(players := room.players[pid := player], lastActivity := now)]),
         Ok(player.params))
  }

  function RemovePlayer(c: Core, mid: Id, pid: Id, now: Unix): Core {
    if mid !in c.matches then c
    else
      var room := c.matches[mid];
      c.(matches := c.matches[mid := room.(players := room.players - {pid}, lastActivity := now)])
  }

  // ----- a match in play (room.rs) -----

  /** Two readings of the clock: one for the cooldown, a later one for the room's activity. */
  function UpdatePlayerParams(
    c: Core, mid: Id, pid: Id, param: ParamKind, direction: ParamDirection, now: Unix, after: Unix)
    : (Core, Result<ParamMutation, LobbyError>)
  {
    if mid !in c.matches then (c, Err(MatchNotFound))
    else
      var room := c.matches[mid];
      if pid !in room.players then (c, Err(PlayerNotFound))
      else
        var player := room.players[pid];
        match ApplyParamChange(player.params, player.nextParamChangeAt, param, direction, now)
        case Err(e) => (c, Err(e))
        case Ok(updated) =>
          var changed := player.(params := updated.params, nextParamChangeAt := updated.nextParamChangeAt);
          (c.(matches := c.matches[mid := room.(players := room.players[pid := changed], lastActivity := after)]),
           Ok(updated))
  }

  /** The first position of `x`, as an iterator's `position` finds it. */
  function Position<T(==)>(xs: seq<T>, x: T): (r: Option<nat>)
    ensures r.Some? ==> r.value < |xs| && xs[r.value] == x && x !in xs[..r.value]
    ensures r.None? ==> x !in xs
  {
    if xs == [] then None
    else if xs[0] == x then Some(0)
    else
      match Position(xs[1..], x)
      case None => assert xs == [xs[0]] + xs[1..]; None
      case Some(i) => assert xs[..i + 1] == [xs[0]] + xs[1..][..i]; Some(i + 1)
  }

  datatype Standing = Standing(rank: nat, finishedCount: nat, totalPlayers: nat)

  function FinishPlayer(c: Core, mid: Id, pid: Id, now: Unix): (Core, Result<Standing, LobbyError>) {
    if mid !in c.matches then (c, Err(MatchNotFound))
    else
      var room := c.matches[mid];
      if room.startedAt == 0 then (c, Err(MatchNotStarted))
      else if pid !in room.players then (c, Err(PlayerNotFound))
      else
        match Position(room.finished, pid)
        case Some(index) => (c, Ok(Standing(index + 1, |room.finished|, |room.players|)))
        case None =>
          var finished := room.finished + [pid];
          (c.(matches := c.matches[mid := room.(finished := finished, lastActivity := now)]),
           Ok(Standing(|finished|, |finished|, |room.players|)))
  }

  /** The generator's answers during one deal: one shuffle of colours, one of stages per player. */
  datatype Picks = Picks(colours: seq<nat>, stages: seq<seq<nat>>)

  predicate Fits(picks: Picks, n: nat) {
    && ValidPicks(picks.colours, ROOM_MAX_PLAYERS)
    && |picks.stages| == n
    && forall i | 0 <= i < n :: ValidPicks(picks.stages[i], MATCH_STAGE_POOL_SIZE)
  }

  function StageOrder(picks: seq<nat>): seq<u8>
    requires ValidPicks(picks, MATCH_STAGE_POOL_SIZE)
  {
    Shuffled(Range(MATCH_STAGE_POOL_SIZE), picks)[..MATCH_STAGE_ORDER_LEN]
  }

  function DealTo(player: PlayerHandle, index: nat, colours: seq<u8>, stages: seq<u8>): PlayerHandle {
    player.(colorIndex := if index < |colours| then Some(colours[index]) else None,
            stageOrder := stages,
            currentStageIndex := 0)
  }

  /** A position of `id` in the list; the only one when the list has no repetitions. */
  ghost function IndexIn(ids: seq<Id>, id: Id): (r: nat)
    requires id in ids
    ensures r < |ids| && ids[r] == id
  {
    var i: nat :| i < |ids| && ids[i] == id;
    i
  }

  /** The players in id order receive the colours and the runs of stages in turn. */
  ghost function DealWith(players: map<Id, PlayerHandle>, colours: seq<u8>, stages: seq<seq<u8>>)
    : (r: map<Id, PlayerHandle>)
    requires |stages| == |players|
    ensures r.Keys == players.Keys
    ensures forall id {:trigger r[id]} :: id in players ==> SameButHand(players[id], r[id])
  {
    var ids := SortedKeys(players.Keys);
    map id | id in players ::
      assert id in Elements(ids);
      var index := IndexIn(ids, id);
      DealTo(players[id], index, colours, stages[index])
  }

  function StageOrders(picks: seq<seq<nat>>): (r: seq<seq<u8>>)
    requires forall i | 0 <= i < |picks| :: ValidPicks(picks[i], MATCH_STAGE_POOL_SIZE)
  {
    seq(|picks|, i requires 0 <= i < |picks| => StageOrder(picks[i]))
  }

  function Colours(picks: seq<nat>): seq<u8>
    requires ValidPicks(picks, ROOM_MAX_PLAYERS)
  {
    Shuffled(Range(ROOM_MAX_PLAYERS), picks)
  }

  ghost function Deal(players: map<Id, PlayerHandle>, picks: Picks): (r: map<Id, PlayerHandle>)
    requires Fits(picks, |players|)
    ensures r.Keys == players.Keys
    ensures forall id {:trigger r[id]} :: id in players ==> SameButHand(players[id], r[id])
  {
    DealWith(players, Colours(picks.colours), StageOrders(picks.stages))
  }

  /** A deal changes nothing about a player but the hand. */
  predicate SameButHand(p: PlayerHandle, q: PlayerHandle) {
    q == p.(colorIndex := q.colorIndex, stageOrder := q.stageOrder, currentStageIndex := q.currentStageIndex)
  }

  function SnapshotOf(id: Id, player: PlayerHandle): PlayerMatchState {
    PlayerMatchState(id, player.displayName,
      if player.colorIndex.Some? then player.colorIndex.value else 0,
      player.stageOrder, player.currentStageIndex)
  }

  ghost function SnapshotPlayers(room: MatchRoom): seq<PlayerMatchState> {
    var ids := SortedKeys(room.players.Keys);
    seq(|room.players|, i requires 0 <= i < |room.players| =>
      assert ids[i] in Elements(ids); SnapshotOf(ids[i], room.players[ids[i]]))
  }

  datatype StartReply = StartReply(startedAt: Unix, justStarted: bool, players: seq<PlayerMatchState>)

  /** Whether a start would deal, and then with how many hands. */
  predicate StartAccepts(c: Core, mid: Id, picks: Picks) {
    mid in c.matches && c.matches[mid].startedAt == 0 ==> Fits(picks, |c.matches[mid].players|)
  }

  ghost function StartMatch(c: Core, mid: Id, now: Unix, picks: Picks): (Core, Result<StartReply, LobbyError>)
    requires StartAccepts(c, mid, picks)
  {
    if mid !in c.matches then (c, Err(MatchNotFound))
    else
      var room := c.matches[mid];
      if room.startedAt == 0 then
        var started := room.(startedAt := now, lastActivity := now, players := Deal(room.players, picks));
        (c.(matches := c.matches[mid := started]), Ok(StartReply(now, true, SnapshotPlayers(started))))
      else
        (c, Ok(StartReply(room.startedAt, false, SnapshotPlayers(room))))
  }

  /** Truncated subtraction, as on unsigned integers. */
  function SaturatingSub(a: nat, b: nat): nat {
    if a >= b then a - b else 0
  }

  predicate IsStale(room: MatchRoom, reading: Unix, timeout: nat) {
    room.startedAt == 0 && SaturatingSub(reading, room.lastActivity) >= timeout
  }

  function StaleRooms(c: Core, reading: Unix, timeout: nat): set<Id> {
    set mid | mid in c.matches && IsStale(c.matches[mid], reading, timeout)
  }

  function SweepStaleRooms(c: Core, reading: Unix, timeout: nat): Core {
    DropRooms(c, StaleRooms(c, reading, timeout))
  }

  // ----- views -----

  function PlayerKey(p: RoomPlayer): string { p.playerId }

  function StateKey(p: PlayerMatchState): string { p.playerId }

  function SummaryKey(s: RoomSummary): string { s.matchId }

  function RoomPlayerOf(id: Id, p: PlayerHandle): RoomPlayer {
    RoomPlayer(id, p.displayName, p.params.gravity, p.params.friction, p.params.speed, p.nextParamChangeAt)
  }

  ghost function RoomPlayers(room: MatchRoom): seq<RoomPlayer> {
    var ids := SortedKeys(room.players.Keys);
    seq(|room.players|, i requires 0 <= i < |room.players| =>
      assert ids[i] in Elements(ids); RoomPlayerOf(ids[i], room.players[ids[i]]))
  }

  ghost function SummaryOf(mid: Id, room: MatchRoom): RoomSummary {
    RoomSummary(mid, ROOM_MAX_PLAYERS, RoomPlayers(room), room.startedAt)
  }

  function OpenRooms(c: Core): set<Id> {
    set mid | mid in c.matches && c.matches[mid].startedAt == 0
  }

  ghost function ListRooms(c: Core): seq<RoomSummary> {
    var ids := SortedKeys(OpenRooms(c));
    seq(|ids|, i requires 0 <= i < |ids| =>
      assert ids[i] in Elements(ids); SummaryOf(ids[i], c.matches[ids[i]]))
  }

  /** Who gets an unreliable packet; `except` is the sender when its own copy is suppressed. */
  function Receivers(players: map<Id, PlayerHandle>, except: Option<Id>): set<Id> {
    set pid | pid in players && Some(pid) != except && players[pid].connection.Some?
  }

  /** The addresses it goes to. */
  function DatagramTargets(room: MatchRoom, except: Option<Id>): set<SocketAddr> {
    set pid | pid in Receivers(room.players, except) :: room.players[pid].connection.value
  }
}
