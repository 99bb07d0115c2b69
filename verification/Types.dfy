/** Optional values and results with an error value. */
module Wrappers {
  datatype Option<+T> = None | Some(value: T)

  datatype Result<+T, +E> = Ok(value: T) | Err(error: E)
}

/** The constants and records shared by the whole realtime server. */
module Types {
  import opened Wrappers

  const ROOM_MAX_PLAYERS: nat := 4
  const MATCH_STAGE_POOL_SIZE: nat := 5
  const MATCH_STAGE_ORDER_LEN: nat := 4
  const TOKEN_TTL_SECS: nat := 3600
  const ROOM_IDLE_TIMEOUT_SECS: nat := 180
  const PARAM_MIN_LEVEL: u8 := 1
  const PARAM_MAX_LEVEL_THREE_STAGE: u8 := 3
  const PARAM_MAX_LEVEL_FRICTION: u8 := 2
  const PARAM_CHANGE_COOLDOWN_SECS: nat := 7
  const CHANNEL_CAPACITY: nat := 1024

  type u8 = x: int | 0 <= x < 256

  /** Match ids, player ids and tokens: strings ordered lexicographically. */
  type Id = string
  type Token = string

  /** Seconds since the epoch; 0 also stands for "not started". */
  type Unix = nat

  /** A reliable channel is named by the join task that created it. */
  type ChannelId = nat

  datatype SocketAddr = SocketAddr(ip: nat, port: nat)

  datatype ParamKind = Gravity | Friction | Speed

  datatype ParamDirection = Increase | Decrease

  datatype PlayerParams = PlayerParams(gravity: u8, friction: u8, speed: u8)

  const DEFAULT_PARAMS := PlayerParams(2, 2, 2)

  datatype ParamMutation = ParamMutation(params: PlayerParams, nextParamChangeAt: Unix)

  /** Every error of the lock-held operations; the wire carries its text. */
  datatype LobbyError =
    | MatchNotFound
    | PlayerNotFound
    | MatchFull
    | MatchNotStarted
    | InvalidToken
    | TokenExpired
    | CooldownActive(nextAllowedAt: Unix)
    | OutOfRange

  datatype Ticket = Ticket(matchId: Id, playerId: Id, displayName: string, expiresAt: Unix)

  datatype PlayerHandle = PlayerHandle(
    displayName: string,
    params: PlayerParams,
    nextParamChangeAt: Unix,
    colorIndex: Option<u8>,
    stageOrder: seq<u8>,
    currentStageIndex: u8,
    tx: ChannelId,
    connection: Option<SocketAddr>)

  datatype MatchRoom = MatchRoom(
    players: map<Id, PlayerHandle>,
    startedAt: Unix,
    lastActivity: Unix,
    finished: seq<Id>)

  /** The state behind the server's main lock. */
  datatype Core = Core(matches: map<Id, MatchRoom>, tickets: map<Token, Ticket>)

  datatype PlayerMatchState = PlayerMatchState(
    playerId: Id,
    displayName: string,
    colorIndex: u8,
    stageOrder: seq<u8>,
    currentStageIndex: u8)

  datatype RoomPlayer = RoomPlayer(
    playerId: Id,
    displayName: string,
    gravity: nat,
    friction: nat,
    speed: nat,
    nextParamChangeAt: Unix)

  datatype RoomSummary = RoomSummary(matchId: Id, maxPlayers: nat, players: seq<RoomPlayer>, startedAt: Unix)

  datatype ServerReliable =
    | JoinOk(matchId: Id, playerId: Id, params: PlayerParams, serverTimeMs: nat)
    | MatchStarted(matchId: Id, startedAt: Unix, players: seq<PlayerMatchState>, serverTimeMs: nat)
    | ParamApplied(fromPlayerId: Id, seqNo: nat, params: PlayerParams, nextParamChangeAt: Unix, serverTimeMs: nat)
    | Error(code: string, reason: LobbyError)
}
