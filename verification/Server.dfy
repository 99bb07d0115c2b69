/**
 The UDP server around the lobby: sessions by address behind a second lock, channels of
 outgoing messages, and the tasks in flight. A task runs from one lock section to the next, and
 any other step may come in between.
 */
module Server {
  import opened Wrappers
  import opened Types
  import opened Ordering
  import opened Lobby
  import opened World

  datatype Session = Session(matchId: Id, playerId: Id, addr: SocketAddr, tx: ChannelId)

  /** Who owns the receiving half of a channel; sending fails once it is dropped. */
  datatype RxOwner = ByJoin | ByRegistry | ByRemoval(task: nat) | Dropped

  /** A message is a complaint to one player, or the broadcast of the logged event `cause`. */
  datatype Origin = Complaint(pid: Id) | Broadcast(cause: nat)

  datatype Post = Post(mid: Id, origin: Origin, msg: ServerReliable)

  /** `accepted`, `emitted` and `destinations` record what went in, what came out, and to where. */
  datatype Channel = Channel(
    mid: Id, pid: Id, addr: SocketAddr, rx: RxOwner, queue: seq<Post>,
    accepted: seq<Post>, emitted: seq<Post>, destinations: set<SocketAddr>)

  datatype Task =
    | JoinChecked(addr: SocketAddr, token: Token)
    | JoinConsumed(addr: SocketAddr, mid: Id, pid: Id, name: string)
    | JoinRegistered(addr: SocketAddr, mid: Id, pid: Id, params: PlayerParams)
    | JoinInserted(addr: SocketAddr, mid: Id, pid: Id, params: PlayerParams)
    | JoinFailed(addr: SocketAddr)
    | Leaving(session: Session)
    | ParamLooked(session: Session, seqNo: nat, param: ParamKind, direction: ParamDirection)
    | Announcing(mid: Id, cause: nat, msg: ServerReliable)
    | Sending(mid: Id, origin: Origin, targets: seq<ChannelId>, msg: ServerReliable)
    | SweepPending(reading: Unix)
    | Relaying(session: Session, suppress: bool)

  /** A packet sent straight to the socket, past the channels. */
  datatype Packet = Packet(to: SocketAddr, msg: ServerReliable)

  /** A datagram of a session's player and where it went; `suppress` keeps the player itself out. */
  datatype Relay = Relay(session: Session, suppress: bool, to: set<SocketAddr>)

  datatype Server = Server(
    w: World,
    sessions: map<SocketAddr, Session>,
    tasks: map<nat, Task>,
    channels: map<ChannelId, Channel>,
    next: nat,
    direct: seq<Packet>,
    relayed: seq<Relay>)

  datatype Label =
    | Grpc(op: Op)
    | JoinCheck(addr: SocketAddr, token: Token)
    | JoinConsume(task: nat, now: Unix)
    | JoinRegister(task: nat, now: Unix)
    | JoinInsert(task: nat)
    | JoinReply(task: nat, sent: bool, ms: nat)
    | DropSession(task: nat)
    | DropPlayer(task: nat, now: Unix)
    | ParamLookup(addr: SocketAddr, seqNo: nat, param: ParamKind, direction: ParamDirection)
    | ParamUpdate(task: nat, now: Unix, after: Unix, ms: nat)
    | StartRoom(mid: Id, now: Unix, picks: Picks, ms: nat)
    | Fanout(task: nat, order: seq<Id>)
    | Enqueue(task: nat)
    | Drain(addr: SocketAddr)
    | SweepRead(reading: Unix)
    | SweepRun(task: nat)
    | RelayLookup(addr: SocketAddr, suppress: bool)
    | RelayRun(task: nat)

  function Boot(): Server {
    Server(Init(), map[], map[], map[], 0, [], [])
  }

  /** Whether a step can be taken: its task stands before it, and its ids and picks are proper. */
  ghost predicate Enabled(s: Server, l: Label) {
    match l
    case Grpc(op) => (op.Create? || op.Issue? || op.Finish? || op.Delete?) && Permitted(s.w, op)
    case JoinCheck(_, _) => true
    case JoinConsume(t, _) => t in s.tasks && s.tasks[t].JoinChecked?
    case JoinRegister(t, _) =>
      t in s.tasks && s.tasks[t].JoinConsumed? && Permitted(s.w, RegisterOp(s.tasks[t], t, 0))
    case JoinInsert(t) => t in s.tasks && s.tasks[t].JoinRegistered?
    case JoinReply(t, _, _) => t in s.tasks && s.tasks[t].JoinInserted?
    case DropSession(t) => t in s.tasks && s.tasks[t].JoinFailed?
    case DropPlayer(t, _) => t in s.tasks && s.tasks[t].Leaving?
    case ParamLookup(_, _, _, _) => true
    case ParamUpdate(t, _, _, _) => t in s.tasks && s.tasks[t].ParamLooked?
    case StartRoom(mid, now, picks, _) => Permitted(s.w, Start(mid, now, picks))
    case Fanout(t, order) =>
      && t in s.tasks && s.tasks[t].Announcing?
      && (HasRoom(s.w, s.tasks[t].mid) ==> Enumerates(order, s.w.core.matches[s.tasks[t].mid].players.Keys))
    case Enqueue(t) => t in s.tasks && s.tasks[t].Sending? && CanSend(s, s.tasks[t].targets)
    case Drain(addr) => addr in s.sessions
    case SweepRead(_) => true
    case SweepRun(t) => t in s.tasks && s.tasks[t].SweepPending?
    case RelayLookup(_, _) => true
    case RelayRun(t) => t in s.tasks && s.tasks[t].Relaying?
  }

  function RegisterOp(task: Task, t: nat, now: Unix): Op
    requires task.JoinConsumed?
  {
    Register(task.mid, task.pid, task.name, task.addr, t, now)
  }

  predicate IsOpen(s: Server, c: ChannelId) {
    c in s.channels && s.channels[c].rx != Dropped
  }

  /** A send waits while the channel is full; on a closed channel it fails at once. */
  predicate CanSend(s: Server, targets: seq<ChannelId>) {
    targets != [] && IsOpen(s, targets[0]) ==> |s.channels[targets[0]].queue| < CHANNEL_CAPACITY
  }

  function Spawn(s: Server, task: Task): Server {
    s.(tasks := s.tasks[s.next := task], next := s.next + 1)
  }

  function Done(s: Server, t: nat): Server {
    s.(tasks := s.tasks - {t})
  }

  function Become(s: Server, t: nat, task: Task): Server {
    s.(tasks := s.tasks[t := task])
  }

  /** Hand the receiving half of a channel to `owner`. */
  function Give(channels: map<ChannelId, Channel>, c: ChannelId, owner: RxOwner): map<ChannelId, Channel> {
    if c in channels then channels[c := channels[c].(rx := owner)] else channels
  }

  function GiveRx(s: Server, c: ChannelId, owner: RxOwner): Server {
    s.(channels := Give(s.channels, c, owner))
  }

  // ----- join (handle_join and remove_client) -----

  function DoJoinCheck(s: Server, addr: SocketAddr, token: Token): Server {
    if addr in s.sessions then s else Spawn(s, JoinChecked(addr, token))
  }

  ghost function DoJoinConsume(s: Server, t: nat, now: Unix): Server
    requires t in s.tasks && s.tasks[t].JoinChecked?
  {
    var task := s.tasks[t];
    var s' := s.(w := Do(s.w, Consume(task.token, now, t)));
    match ConsumeTicket(s.w.core, task.token, now).1
    case Ok(ticket) => Become(s', t, JoinConsumed(task.addr, ticket.matchId, ticket.playerId, ticket.displayName))
    case Err(e) => Done(s', t).(direct := s.direct + [Packet(task.addr, Error("auth_failed", e))])
  }

  ghost function DoJoinRegister(s: Server, t: nat, now: Unix): Server
    requires Enabled(s, JoinRegister(t, now))
  {
    var task := s.tasks[t];
    var s' := s.(w := Do(s.w, RegisterOp(task, t, now)));
    match RegisterPlayer(s.w.core, task.mid, task.pid, task.name, task.addr, t, now).1
    case Ok(params) =>
      Become(s', t, JoinRegistered(task.addr, task.mid, task.pid, params))
        .(channels := s.channels[t := Channel(task.mid, task.pid, task.addr, ByJoin, [], [], [], {})])
    case Err(e) => Done(s', t).(direct := s.direct + [Packet(task.addr, Error("join_failed", e))])
  }

  /** Inserting replaces, and thereby drops, a session already stored at the address. */
  function DoJoinInsert(s: Server, t: nat): Server
    requires t in s.tasks && s.tasks[t].JoinRegistered?
  {
    var task := s.tasks[t];
    var s1 := if task.addr in s.sessions then GiveRx(s, s.sessions[task.addr].tx, Dropped) else s;
    Become(GiveRx(s1, t, ByRegistry), t, JoinInserted(task.addr, task.mid, task.pid, task.params))
      .(sessions := s.sessions[task.addr := Session(task.mid, task.pid, task.addr, t)])
  }

  function DoJoinReply(s: Server, t: nat, sent: bool, ms: nat): Server
    requires t in s.tasks && s.tasks[t].JoinInserted?
  {
    var task := s.tasks[t];
    if sent
    then Done(s, t).(direct := s.direct + [Packet(task.addr, JoinOk(task.mid, task.pid, task.params, ms))])
    else Become(s, t, JoinFailed(task.addr))
  }

  function DoDropSession(s: Server, t: nat): Server
    requires t in s.tasks && s.tasks[t].JoinFailed?
  {
    var addr := s.tasks[t].addr;
    if addr !in s.sessions then Done(s, t)
    else
      var session := s.sessions[addr];
      Become(GiveRx(s, session.tx, ByRemoval(t)), t, Leaving(session)).(sessions := s.sessions - {addr})
  }

  ghost function DoDropPlayer(s: Server, t: nat, now: Unix): Server
    requires t in s.tasks && s.tasks[t].Leaving?
  {
    var session := s.tasks[t].session;
    Done(GiveRx(s, session.tx, Dropped), t).(w := Do(s.w, Remove(session.matchId, session.playerId, now)))
  }

  // ----- parameter changes and broadcasts -----

  function DoParamLookup(s: Server, addr: SocketAddr, seqNo: nat, param: ParamKind, direction: ParamDirection): Server {
    if addr !in s.sessions then s else Spawn(s, ParamLooked(s.sessions[addr], seqNo, param, direction))
  }

  ghost function DoParamUpdate(s: Server, t: nat, now: Unix, after: Unix, ms: nat): Server
    requires t in s.tasks && s.tasks[t].ParamLooked?
  {
    var task := s.tasks[t];
    var (mid, pid) := (task.session.matchId, task.session.playerId);
    var s' := s.(w := Do(s.w, Update(mid, pid, task.param, task.direction, now, after)));
    match UpdatePlayerParams(s.w.core, mid, pid, task.param, task.direction, now, after).1
    case Ok(updated) =>
      Become(s', t, Announcing(mid, |s.w.log|,
        ParamApplied(pid, task.seqNo, updated.params, updated.nextParamChangeAt, ms)))
    case Err(e) =>
      Become(s', t, Sending(mid, Complaint(pid), [task.session.tx], Error("param_update_failed", e)))
  }

  ghost function DoStartRoom(s: Server, mid: Id, now: Unix, picks: Picks, ms: nat): Server
    requires Permitted(s.w, Start(mid, now, picks))
  {
    var s' := s.(w := Do(s.w, Start(mid, now, picks)));
    match StartMatch(s.w.core, mid, now, picks).1
    case Ok(reply) =>
      if reply.justStarted
      then Spawn(s', Announcing(mid, |s.w.log|, MatchStarted(mid, reply.startedAt, reply.players, ms)))
      else s'
    case Err(_) => s'
  }

  ghost function DoFanout(s: Server, t: nat, order: seq<Id>): Server
    requires Enabled(s, Fanout(t, order))
  {
    var task := s.tasks[t];
    if !HasRoom(s.w, task.mid) then Done(s, t)
    else
      var players := s.w.core.matches[task.mid].players;
      var targets := seq(|order|, i requires 0 <= i < |order| =>
        assert order[i] in Elements(order); players[order[i]].tx);
      Become(s, t, Sending(task.mid, Broadcast(task.cause), targets, task.msg))
  }

  function DoEnqueue(s: Server, t: nat): Server
    requires t in s.tasks && s.tasks[t].Sending?
  {
    var task := s.tasks[t];
    if task.targets == [] then Done(s, t)
    else
      var c := task.targets[0];
      var s' := Become(s, t, task.(targets := task.targets[1..]));
      if !IsOpen(s, c) then s'
      else
        var post := Post(task.mid, task.origin, task.msg);
        var ch := s.channels[c];
        s'.(channels := s.channels[c := ch.(queue := ch.queue + [post], accepted := ch.accepted + [post])])
  }

  /** One turn of the outgoing loop: a message, if any, leaves for the session's address. */
  function DoDrain(s: Server, addr: SocketAddr): Server
    requires addr in s.sessions
  {
    var session := s.sessions[addr];
    if session.tx !in s.channels || s.channels[session.tx].queue == [] then s
    else
      var ch := s.channels[session.tx];
      s.(channels := s.channels[session.tx := ch.(
        queue := ch.queue[1..], emitted := ch.emitted + [ch.queue[0]],
        destinations := ch.destinations + {session.addr})])
  }

  // ----- datagrams (handle_unreliable_message) -----

  /** A position keeps its sender out; a stage progress goes to everyone. */
  function DoRelayLookup(s: Server, addr: SocketAddr, suppress: bool): Server {
    if addr !in s.sessions then s else Spawn(s, Relaying(s.sessions[addr], suppress))
  }

  function Excepted(task: Task): Option<Id>
    requires task.Relaying?
  {
    if task.suppress then Some(task.session.playerId) else None
  }

  /** The player and match copied at the lookup, against the room as it is now. */
  function DoRelayRun(s: Server, t: nat): Server
    requires t in s.tasks && s.tasks[t].Relaying?
  {
    var task := s.tasks[t];
    if !HasRoom(s.w, task.session.matchId) then Done(s, t)
    else
      var to := DatagramTargets(s.w.core.matches[task.session.matchId], Excepted(task));
      Done(s, t).(relayed := s.relayed + [Relay(task.session, task.suppress, to)])
  }

  /** The steps of joins and of the removals that undo them. */
  predicate IsJoinStep(l: Label) {
    || l.JoinCheck? || l.JoinConsume? || l.JoinRegister? || l.JoinInsert? || l.JoinReply?
    || l.DropSession? || l.DropPlayer?
  }

  ghost function JoinStep(s: Server, l: Label): Server
    requires Enabled(s, l) && IsJoinStep(l)
  {
    match l
    case JoinCheck(addr, token) => DoJoinCheck(s, addr, token)
    case JoinConsume(t, now) => DoJoinConsume(s, t, now)
    case JoinRegister(t, now) => DoJoinRegister(s, t, now)
    case JoinInsert(t) => DoJoinInsert(s, t)
    case JoinReply(t, sent, ms) => DoJoinReply(s, t, sent, ms)
    case DropSession(t) => DoDropSession(s, t)
    case DropPlayer(t, now) => DoDropPlayer(s, t, now)
  }

  ghost function OtherStep(s: Server, l: Label): Server
    requires Enabled(s, l) && !IsJoinStep(l)
  {
    match l
    case Grpc(op) => s.(w := Do(s.w, op))
    case ParamLookup(addr, seqNo, param, direction) => DoParamLookup(s, addr, seqNo, param, direction)
    case ParamUpdate(t, now, after, ms) => DoParamUpdate(s, t, now, after, ms)
    case StartRoom(mid, now, picks, ms) => DoStartRoom(s, mid, now, picks, ms)
    case Fanout(t, order) => DoFanout(s, t, order)
    case Enqueue(t) => DoEnqueue(s, t)
    case Drain(addr) => DoDrain(s, addr)
    case SweepRead(reading) => Spawn(s, SweepPending(reading))
    case SweepRun(t) => Done(s, t).(w := Do(s.w, Sweep(s.tasks[t].reading)))
    case RelayLookup(addr, suppress) => DoRelayLookup(s, addr, suppress)
    case RelayRun(t) => DoRelayRun(s, t)
  }

  ghost function Step(s: Server, l: Label): Server
    requires Enabled(s, l)
  {
    if IsJoinStep(l) then JoinStep(s, l) else OtherStep(s, l)
  }
}
