/**
 The lobby as a machine whose steps are the sections of code holding the main lock. The state
 is the core state plus history: where each issued player id is, which ids were ever handed
 out, and a log of what happened.
 */
module World {
  import opened Wrappers
  import opened Types
  import opened Lobby

  /** Where an issued player id is in its life. */
  datatype Life =
    | Waiting(token: Token, mid: Id)                          // its ticket is outstanding
    | Claimed(mid: Id, task: ChannelId)                       // join task `task` consumed the ticket
    | Seated(mid: Id, tx: ChannelId, addr: SocketAddr)        // a player of the room
    | Purged                                                  // its ticket went with the room
    | Rejected                                                // expired, or refused at registration
    | Removed                                                 // left the room, or went with it

  datatype Event =
    | Created(mid: Id, at: Unix)
    | Issued(mid: Id, pid: Id, at: Unix)
    | Consumed(pid: Id)
    | Expired(pid: Id)
    | Admitted(mid: Id, pid: Id, params: PlayerParams, at: Unix)
    | Refused(mid: Id, pid: Id)
    | Left(mid: Id, pid: Id, at: Unix)
    | Changed(mid: Id, pid: Id, param: ParamKind, direction: ParamDirection, at: Unix, touched: Unix)
    | Started(mid: Id, reply: StartReply)
    | Finished(mid: Id, pid: Id, standing: Standing, first: bool, at: Unix)
    | Deleted(mid: Id)
    | Swept(reading: Unix, gone: set<Id>)

  datatype World = World(core: Core, life: map<Id, Life>, mids: set<Id>, tokens: set<Token>, log: seq<Event>)

  datatype Op =
    | Create(mid: Id, now: Unix)
    | Issue(mid: Id, name: string, pid: Id, token: Token, now: Unix)
    | Consume(token: Token, now: Unix, task: ChannelId)
    | Register(mid: Id, pid: Id, name: string, addr: SocketAddr, tx: ChannelId, now: Unix)
    | Remove(mid: Id, pid: Id, now: Unix)
    | Update(mid: Id, pid: Id, param: ParamKind, direction: ParamDirection, now: Unix, after: Unix)
    | Start(mid: Id, now: Unix, picks: Picks)
    | Finish(mid: Id, pid: Id, now: Unix)
    | Delete(mid: Id)
    | Sweep(reading: Unix)

  function Init(): World {
    World(Core(map[], map[]), map[], {}, {}, [])
  }

  /**
   Generated ids are fresh, and a registration spends a claim: its arguments were moved out of
   the ticket that the same join task consumed.
   */
  predicate Permitted(w: World, op: Op) {
    match op
    case Create(mid, _) => mid !in w.mids
    case Issue(_, _, pid, token, _) => pid !in w.life && token !in w.tokens
    case Register(mid, pid, _, _, tx, _) => pid in w.life && w.life[pid] == Claimed(mid, tx)
    case Start(mid, _, picks) => StartAccepts(w.core, mid, picks)
    case _ => true
  }

  ghost function CoreAfter(c: Core, op: Op): Core
    requires op.Start? ==> StartAccepts(c, op.mid, op.picks)
  {
    match op
    case Create(mid, now) => CreateRoom(c, mid, now)
    case Issue(mid, name, pid, token, now) => IssueJoinTicket(c, mid, name, pid, token, now).0
    case Consume(token, now, _) => ConsumeTicket(c, token, now).0
    case Register(mid, pid, name, addr, tx, now) => RegisterPlayer(c, mid, pid, name, addr, tx, now).0
    case Remove(mid, pid, now) => RemovePlayer(c, mid, pid, now)
    case Update(mid, pid, param, direction, now, after) =>
      UpdatePlayerParams(c, mid, pid, param, direction, now, after).0
    case Start(mid, now, picks) => StartMatch(c, mid, now, picks).0
    case Finish(mid, pid, now) => FinishPlayer(c, mid, pid, now).0
    case Delete(mid) => DeleteRoom(c, mid).0
    case Sweep(reading) => SweepStaleRooms(c, reading, ROOM_IDLE_TIMEOUT_SECS)
  }

  /** A dropped room takes its waiting tickets and its players with it. */
  function Doom(life: Life, gone: set<Id>): Life {
    match life
    case Waiting(_, mid) => if mid in gone then Purged else life
    case Seated(mid, _, _) => if mid in gone then Removed else life
    case _ => life
  }

  function DoomAll(life: map<Id, Life>, gone: set<Id>): map<Id, Life> {
    map pid | pid in life :: Doom(life[pid], gone)
  }

  ghost function LifeAfter(w: World, op: Op): map<Id, Life> {
    match op
    case Issue(mid, name, pid, token, now) =>
      if IssueJoinTicket(w.core, mid, name, pid, token, now).1.Ok?
      then w.life[pid := Waiting(token, mid)] else w.life
    case Consume(token, now, task) =>
      if token !in w.core.tickets then w.life
      else
        var ticket := w.core.tickets[token];
        w.life[ticket.playerId :=
          if ConsumeTicket(w.core, token, now).1.Ok? then Claimed(ticket.matchId, task) else Rejected]
    case Register(mid, pid, name, addr, tx, now) =>
      w.life[pid :=
        if RegisterPlayer(w.core, mid, pid, name, addr, tx, now).1.Ok? then Seated(mid, tx, addr) else Rejected]
    case Remove(mid, pid, _) =>
      if mid in w.core.matches && pid in w.core.matches[mid].players then w.life[pid := Removed] else w.life
    case Delete(mid) => if mid in w.core.matches then DoomAll(w.life, {mid}) else w.life
    case Sweep(reading) => DoomAll(w.life, StaleRooms(w.core, reading, ROOM_IDLE_TIMEOUT_SECS))
    case _ => w.life
  }

  ghost function EventsOf(w: World, op: Op): seq<Event>
    requires Permitted(w, op)
  {
    var c := w.core;
    match op
    case Create(mid, now) => [Created(mid, now)]
    case Issue(mid, name, pid, token, now) =>
      if IssueJoinTicket(c, mid, name, pid, token, now).1.Ok? then [Issued(mid, pid, now)] else []
    case Consume(token, now, _) =>
      if token !in c.tickets then []
      else if ConsumeTicket(c, token, now).1.Ok? then [Consumed(c.tickets[token].playerId)]
      else [Expired(c.tickets[token].playerId)]
    case Register(mid, pid, name, addr, tx, now) =>
      (match RegisterPlayer(c, mid, pid, name, addr, tx, now).1
       case Ok(params) => [Admitted(mid, pid, params, now)]
       case Err(_) => [Refused(mid, pid)])
    case Remove(mid, pid, now) => if mid in c.matches then [Left(mid, pid, now)] else []
    case Update(mid, pid, param, direction, now, after) =>
      if UpdatePlayerParams(c, mid, pid, param, direction, now, after).1.Ok?
      then [Changed(mid, pid, param, direction, now, after)] else []
    case Start(mid, now, picks) =>
      (match StartMatch(c, mid, now, picks).1
       case Ok(reply) => [Started(mid, reply)]
       case Err(_) => [])
    case Finish(mid, pid, now) =>
      (match FinishPlayer(c, mid, pid, now).1
       case Ok(standing) => [Finished(mid, pid, standing, pid !in c.matches[mid].finished, now)]
       case Err(_) => [])
    case Delete(mid) => if mid in c.matches then [Deleted(mid)] else []
    case Sweep(reading) => [Swept(reading, StaleRooms(c, reading, ROOM_IDLE_TIMEOUT_SECS))]
  }

  ghost function Do(w: World, op: Op): World
    requires Permitted(w, op)
  {
    World(
      CoreAfter(w.core, op),
      LifeAfter(w, op),
      if op.Create? then w.mids + {op.mid} else w.mids,
      if op.Issue? then w.tokens + {op.token} else w.tokens,
      w.log + EventsOf(w, op))
  }

  ghost predicate Next(w: World, v: World) {
    v == w || exists op :: Permitted(w, op) && v == Do(w, op)
  }

  ghost predicate StepAt(ws: seq<World>, i: nat)
    requires i < |ws| - 1
  {
    Next(ws[i], ws[i + 1])
  }

  /** A run seen at the moments when the lock is free, from the empty server. */
  ghost predicate Trace(ws: seq<World>) {
    && |ws| > 0
    && ws[0] == Init()
    && forall i: nat :: i < |ws| - 1 ==> StepAt(ws, i)
  }

  // ----- vocabulary of the properties -----

  predicate HasRoom(w: World, mid: Id) {
    mid in w.core.matches
  }

  predicate InRoom(w: World, mid: Id, pid: Id) {
    mid in w.core.matches && pid in w.core.matches[mid].players
  }

  function PlayerAt(w: World, mid: Id, pid: Id): PlayerHandle
    requires InRoom(w, mid, pid)
  {
    w.core.matches[mid].players[pid]
  }

  predicate HasTicket(w: World, token: Token, mid: Id, pid: Id) {
    && token in w.core.tickets
    && w.core.tickets[token].playerId == pid
    && w.core.tickets[token].matchId == mid
  }

  /** The stamp an event leaves as the last activity of a room. */
  function Touch(e: Event, mid: Id): Option<Unix> {
    match e
    case Created(m, at) => if m == mid then Some(at) else None
    case Issued(m, _, at) => if m == mid then Some(at) else None
    case Admitted(m, _, _, at) => if m == mid then Some(at) else None
    case Left(m, _, at) => if m == mid then Some(at) else None
    case Changed(m, _, _, _, _, touched) => if m == mid then Some(touched) else None
    case Started(m, reply) => if m == mid && reply.justStarted then Some(reply.startedAt) else None
    case Finished(m, _, _, first, at) => if m == mid && first then Some(at) else None
    case _ => None
  }

  /** A lock section logs at most one event, of its own kind. */
  lemma EventKinds(w: World, op: Op)
    requires Permitted(w, op)
    ensures |EventsOf(w, op)| <= 1
    ensures forall e :: e in EventsOf(w, op) ==>
              && (e.Created? <==> op.Create?) && (e.Issued? <==> op.Issue?)
              && (e.Admitted? ==> op.Register?) && (e.Left? <==> op.Remove?)
              && (e.Changed? <==> op.Update?) && (e.Started? <==> op.Start?)
              && (e.Finished? <==> op.Finish?) && (e.Swept? <==> op.Sweep?)
  {
  }

  /** The log only grows. */
  lemma {:induction false} LogGrows(ws: seq<World>, i: nat, j: nat)
    requires Trace(ws) && i <= j < |ws|
    ensures ws[i].log <= ws[j].log
    decreases j
  {
    if i < j {
      LogGrows(ws, i, j - 1);
      assert StepAt(ws, j - 1);
    }
  }
}
