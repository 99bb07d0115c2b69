/**
 What each lock section answers, and what it leaves behind: every answer with the exact case in
 which it is given, every effect with everything that stays as it was.
 */
module Answers {
  import opened Wrappers
  import opened Types
  import opened Params
  import opened Lobby

  /** Room `mid` is there afterwards; no other room and no ticket has changed, come or gone. */
  ghost predicate OnlyRoom(c: Core, d: Core, mid: Id) {
    && d.tickets == c.tickets && mid in d.matches
    && (forall m :: m != mid ==> (m in d.matches <==> m in c.matches))
    && (forall m :: m in c.matches && m != mid ==> d.matches[m] == c.matches[m])
  }

  /** Of the room only player `pid` and the activity stamp, now `at`, may have changed. */
  ghost predicate OnlyPlayer(room: MatchRoom, after: MatchRoom, pid: Id, at: Unix) {
    && after.startedAt == room.startedAt && after.finished == room.finished && after.lastActivity == at
    && (forall p :: p != pid ==> (p in after.players <==> p in room.players))
    && (forall p :: p in room.players && p != pid ==> after.players[p] == room.players[p])
  }

  lemma CreateMeaning(c: Core, mid: Id, now: Unix)
    ensures var d := CreateRoom(c, mid, now);
      OnlyRoom(c, d, mid) && d.matches[mid] == MatchRoom(map[], 0, now, [])
  {
  }

  lemma IssueMeaning(c: Core, mid: Id, name: string, pid: Id, token: Token, now: Unix)
    ensures var (d, r) := IssueJoinTicket(c, mid, name, pid, token, now);
      && (r == Err(MatchNotFound) <==> mid !in c.matches)
      && (r == Err(MatchFull) <==> mid in c.matches && |c.matches[mid].players| >= 4)
      && (r.Ok? <==> mid in c.matches && |c.matches[mid].players| < 4)
      && (r.Err? ==> d == c)
      && (r.Ok? ==>
            && r.value == Ticket(mid, pid, if Trim(name) == "" then "player" else name, now + 3600)
            && d.tickets == c.tickets[token := r.value]
            && OnlyRoom(c, d.(tickets := c.tickets), mid)
            && d.matches[mid] == c.matches[mid].(lastActivity := now))
  {
    BlankIffNothingLeft(name);
  }

  lemma ConsumeMeaning(c: Core, token: Token, now: Unix)
    ensures var (d, r) := ConsumeTicket(c, token, now);
      && (r == Err(InvalidToken) <==> token !in c.tickets)
      && (r == Err(TokenExpired) <==> token in c.tickets && c.tickets[token].expiresAt < now)
      && (r.Ok? <==> token in c.tickets && now <= c.tickets[token].expiresAt)
      && (r.Ok? ==> r.value == c.tickets[token])
      && d.matches == c.matches
      && (forall k :: k in d.tickets <==> k in c.tickets && k != token)
      && (forall k :: k in d.tickets ==> d.tickets[k] == c.tickets[k])
  {
  }

  lemma RegisterMeaning(c: Core, mid: Id, pid: Id, name: string, addr: SocketAddr, tx: ChannelId, now: Unix)
    ensures var (d, r) := RegisterPlayer(c, mid, pid, name, addr, tx, now);
      && (r == Err(MatchNotFound) <==> mid !in c.matches)
      && (r == Err(MatchFull) <==> mid in c.matches && pid !in c.matches[mid].players && |c.matches[mid].players| >= 4)
      && (r.Ok? <==> mid in c.matches && (pid in c.matches[mid].players || |c.matches[mid].players| < 4))
      && (r.Err? ==> d == c)
      && (r.Ok? ==>
            && OnlyRoom(c, d, mid) && OnlyPlayer(c.matches[mid], d.matches[mid], pid, now)
            && pid in d.matches[mid].players && r.value == d.matches[mid].players[pid].params
            && d.matches[mid].players[pid] ==
               if pid in c.matches[mid].players
               then c.matches[mid].players[pid].(displayName := name, tx := tx, connection := Some(addr))
               else PlayerHandle(name, PlayerParams(2, 2, 2), 0, None, [], 0, tx, Some(addr)))
  {
  }

  lemma RemoveMeaning(c: Core, mid: Id, pid: Id, now: Unix)
    ensures var d := RemovePlayer(c, mid, pid, now);
      && (mid !in c.matches ==> d == c)
      && (mid in c.matches ==>
            && OnlyRoom(c, d, mid) && OnlyPlayer(c.matches[mid], d.matches[mid], pid, now)
            && pid !in d.matches[mid].players)
  {
  }

  /** A change of `level` in `direction` stays in range: up to 2 for friction, up to 3 for the others. */
  predicate InRange(params: PlayerParams, param: ParamKind, direction: ParamDirection) {
    1 <= Level(params, param) + (if direction == Increase then 1 else -1) <= (if param.Friction? then 2 else 3)
  }

  /** One parameter moved by one, the others as they were. */
  predicate Moved(before: PlayerParams, after: PlayerParams, param: ParamKind, direction: ParamDirection) {
    var move := if direction == Increase then 1 else -1;
    match param
    case Gravity => after.gravity == before.gravity + move && after == before.(gravity := after.gravity)
    case Friction => after.friction == before.friction + move && after == before.(friction := after.friction)
    case Speed => after.speed == before.speed + move && after == before.(speed := after.speed)
  }

  /** Why a change is refused, if it is. */
  predicate ChangeRefused(
    c: Core, mid: Id, pid: Id, param: ParamKind, direction: ParamDirection, now: Unix, e: LobbyError)
  {
    match e
    case MatchNotFound => mid !in c.matches
    case PlayerNotFound => mid in c.matches && pid !in c.matches[mid].players
    case CooldownActive(at) =>
      mid in c.matches && pid in c.matches[mid].players
      && now < c.matches[mid].players[pid].nextParamChangeAt == at
    case OutOfRange =>
      mid in c.matches && pid in c.matches[mid].players
      && c.matches[mid].players[pid].nextParamChangeAt <= now
      && !InRange(c.matches[mid].players[pid].params, param, direction)
    case _ => false
  }

  predicate ChangeAccepted(c: Core, mid: Id, pid: Id, param: ParamKind, direction: ParamDirection, now: Unix) {
    && mid in c.matches && pid in c.matches[mid].players
    && c.matches[mid].players[pid].nextParamChangeAt <= now
    && InRange(c.matches[mid].players[pid].params, param, direction)
  }

  lemma UpdateMeaning(
    c: Core, mid: Id, pid: Id, param: ParamKind, direction: ParamDirection, now: Unix, after: Unix)
    ensures var (d, r) := UpdatePlayerParams(c, mid, pid, param, direction, now, after);
      && (r.Ok? <==> ChangeAccepted(c, mid, pid, param, direction, now))
      && (forall e :: r == Err(e) <==> ChangeRefused(c, mid, pid, param, direction, now, e))
      && (r.Err? ==> d == c)
      && (r.Ok? ==>
            && OnlyRoom(c, d, mid) && OnlyPlayer(c.matches[mid], d.matches[mid], pid, after)
            && pid in d.matches[mid].players
            && var (p, q) := (c.matches[mid].players[pid], d.matches[mid].players[pid]);
               && Moved(p.params, q.params, param, direction)
               && q == p.(params := r.value.params, nextParamChangeAt := now + 7)
               && r.value.nextParamChangeAt == now + 7)
  {
    if mid in c.matches && pid in c.matches[mid].players {
      var p := c.matches[mid].players[pid];
      ChangeMeaning(p.params, p.nextParamChangeAt, param, direction, now);
    }
  }

  lemma StartMeaning(c: Core, mid: Id, now: Unix, picks: Picks)
    requires StartAccepts(c, mid, picks)
    ensures var (d, r) := StartMatch(c, mid, now, picks);
      && (r == Err(MatchNotFound) <==> mid !in c.matches)
      && (r.Ok? <==> mid in c.matches)
      && (mid !in c.matches || c.matches[mid].startedAt != 0 ==> d == c)
      && (r.Ok? ==>
            && (r.value.justStarted <==> c.matches[mid].startedAt == 0)
            && OnlyRoom(c, d, mid) && r.value.startedAt == d.matches[mid].startedAt
            && r.value.players == SnapshotPlayers(d.matches[mid]))
      && (r.Ok? && r.value.justStarted ==>
            && d.matches[mid] == MatchRoom(d.matches[mid].players, now, now, c.matches[mid].finished)
            && d.matches[mid].players.Keys == c.matches[mid].players.Keys
            && forall p :: p in c.matches[mid].players ==>
                 OnlyHand(c.matches[mid].players[p], d.matches[mid].players[p]))
  {
    if mid in c.matches && c.matches[mid].startedAt == 0 {
      StartedRoom(c, mid, now, picks);
    }
  }

  /** Nothing about the player has changed but the hand. */
  predicate OnlyHand(p: PlayerHandle, q: PlayerHandle) {
    && q.displayName == p.displayName && q.params == p.params && q.nextParamChangeAt == p.nextParamChangeAt
    && q.tx == p.tx && q.connection == p.connection
  }

  lemma StartedRoom(c: Core, mid: Id, now: Unix, picks: Picks)
    requires StartAccepts(c, mid, picks) && mid in c.matches && c.matches[mid].startedAt == 0
    ensures var d := StartMatch(c, mid, now, picks).0;
      && d.matches[mid] == MatchRoom(d.matches[mid].players, now, now, c.matches[mid].finished)
      && d.matches[mid].players.Keys == c.matches[mid].players.Keys
      && forall p :: p in c.matches[mid].players ==> OnlyHand(c.matches[mid].players[p], d.matches[mid].players[p])
  {
    var players := c.matches[mid].players;
    forall p | p in players ensures OnlyHand(players[p], Deal(players, picks)[p]) {
      assert SameButHand(players[p], Deal(players, picks)[p]);
    }
  }

  /** Why a finish is refused, if it is: in this order. */
  predicate FinishRefused(c: Core, mid: Id, pid: Id, e: LobbyError) {
    match e
    case MatchNotFound => mid !in c.matches
    case MatchNotStarted => mid in c.matches && c.matches[mid].startedAt == 0
    case PlayerNotFound => mid in c.matches && c.matches[mid].startedAt != 0 && pid !in c.matches[mid].players
    case _ => false
  }

  lemma FinishMeaning(c: Core, mid: Id, pid: Id, now: Unix)
    ensures var (d, r) := FinishPlayer(c, mid, pid, now);
      && (r.Ok? <==> mid in c.matches && c.matches[mid].startedAt != 0 && pid in c.matches[mid].players)
      && (forall e :: r == Err(e) <==> FinishRefused(c, mid, pid, e))
      && (r.Err? ==> d == c)
      && (r.Ok? ==>
            var (before, list) := (c.matches[mid], d.matches[mid].finished);
            && OnlyRoom(c, d, mid)
            && d.matches[mid].players == before.players && d.matches[mid].startedAt == before.startedAt
            && (pid in before.finished ==> d == c)
            && (pid !in before.finished ==> list == before.finished + [pid] && d.matches[mid].lastActivity == now)
            && 1 <= r.value.rank <= |list| && list[r.value.rank - 1] == pid && pid !in list[..r.value.rank - 1]
            && r.value.finishedCount == |list| && r.value.totalPlayers == |before.players|)
  {
  }

  // ----- names -----

  /** The Unicode characters with the property White_Space, by code point. */
  const WHITE_SPACE: set<int> := {
    0x09, 0x0A, 0x0B, 0x0C, 0x0D, 0x20, 0x85, 0xA0, 0x1680,
    0x2000, 0x2001, 0x2002, 0x2003, 0x2004, 0x2005, 0x2006, 0x2007, 0x2008, 0x2009, 0x200A,
    0x2028, 0x2029, 0x202F, 0x205F, 0x3000}

  lemma WhitespaceMeaning(ch: char)
    ensures IsWhitespace(ch) <==> ch as int in WHITE_SPACE
  {
  }

  /** The name without white space at either end. */
  function Trim(name: string): string {
    if name == "" then ""
    else if name[0] as int in WHITE_SPACE then Trim(name[1..])
    else if name[|name| - 1] as int in WHITE_SPACE then Trim(name[..|name| - 1])
    else name
  }

  /** A name is blank exactly when trimming leaves nothing of it. */
  lemma {:induction false} BlankIffNothingLeft(name: string)
    ensures IsBlank(name) <==> Trim(name) == ""
  {
    if name != "" {
      WhitespaceMeaning(name[0]);
      WhitespaceMeaning(name[|name| - 1]);
      if IsWhitespace(name[0]) {
        assert name == [name[0]] + name[1..];
        BlankIffNothingLeft(name[1..]);
      } else {
        assert name[0] in name;
        if IsWhitespace(name[|name| - 1]) {
          assert name[..|name| - 1][0] == name[0];
          BlankIffNothingLeft(name[..|name| - 1]);
        }
      }
    }
  }
}
