/** Sessions, joins and removals in every interleaving: who holds which player. */
module Sessions {
  import opened Wrappers
  import opened Types
  import opened Lobby
  import opened World
  import opened Identity
  import opened Server

  // ----- what a lock section does to lives -----

  /** No seat is taken, no claim made or spent; a seat is lost only with its room. */
  ghost predicate LivesUndisturbed(w: World, v: World) {
    && AllAdvance(w, v)
    && w.mids <= v.mids
    && (forall mid :: mid in w.mids && HasRoom(v, mid) ==> HasRoom(w, mid))
    && (forall pid :: pid in v.life && (v.life[pid].Seated? || v.life[pid].Claimed?) ==>
          pid in w.life && w.life[pid] == v.life[pid])
    && (forall pid :: pid in w.life && w.life[pid].Claimed? ==> v.life[pid] == w.life[pid])
    && (forall pid :: pid in w.life && w.life[pid].Seated? && HasRoom(v, w.life[pid].mid) ==>
          v.life[pid] == w.life[pid])
  }

  lemma BystandersUndisturbed(w: World, op: Op)
    requires Agree(w) && Permitted(w, op) && !op.Consume? && !op.Register? && !op.Remove?
    ensures LivesUndisturbed(w, Do(w, op))
  {
    StepAdvances(w, op);
    RoomsNotReused(w, op);
  }

  lemma RoomsNotReused(w: World, op: Op)
    requires Permitted(w, op)
    ensures w.mids <= Do(w, op).mids
    ensures forall mid :: mid in w.mids && HasRoom(Do(w, op), mid) ==> HasRoom(w, mid)
  {
  }

  // ----- the invariant -----

  predicate InJoin(task: Task) {
    || task.JoinChecked? || task.JoinConsumed? || task.JoinRegistered? || task.JoinInserted?
    || task.JoinFailed? || task.Leaving?
  }

  ghost predicate NamesFresh(s: Server) {
    && (forall t :: t in s.tasks ==> t < s.next)
    && (forall c :: c in s.channels ==> c < s.next)
    && (forall t :: t in s.tasks && (s.tasks[t].JoinChecked? || s.tasks[t].JoinConsumed?) ==> t !in s.channels)
  }

  /** Claims are exactly the join tasks that hold a consumed ticket. */
  ghost predicate ClaimsHeld(s: Server) {
    && (forall t :: t in s.tasks && s.tasks[t].JoinConsumed? ==>
          s.tasks[t].pid in s.w.life && s.w.life[s.tasks[t].pid] == Claimed(s.tasks[t].mid, t))
    && (forall pid :: pid in s.w.life && s.w.life[pid].Claimed? ==>
          var t := s.w.life[pid].task;
          t in s.tasks && s.tasks[t].JoinConsumed? && s.tasks[t].pid == pid)
  }

  /** Channels and seats: one channel per player ever seated, naming that seat. */
  ghost predicate ChannelsNameSeats(s: Server) {
    && (forall c :: c in s.channels ==>
          var ch := s.channels[c];
          && ch.mid in s.w.mids && ch.pid in s.w.life
          && (s.w.life[ch.pid] == Seated(ch.mid, c, ch.addr) || s.w.life[ch.pid] == Removed)
          && (ch.rx != Dropped && HasRoom(s.w, ch.mid) ==> s.w.life[ch.pid] == Seated(ch.mid, c, ch.addr)))
    && (forall c, d :: c in s.channels && d in s.channels && c != d ==> s.channels[c].pid != s.channels[d].pid)
    && (forall pid :: pid in s.w.life && s.w.life[pid].Seated? ==>
          s.w.life[pid].tx in s.channels && s.channels[s.w.life[pid].tx].pid == pid)
  }

  predicate Names(ch: Channel, session: Session) {
    ch.mid == session.matchId && ch.pid == session.playerId && ch.addr == session.addr
  }

  /** Every registered join holds the receiver of its own channel. */
  ghost predicate JoinsHold(s: Server) {
    forall t :: t in s.tasks && s.tasks[t].JoinRegistered? ==>
      && t in s.channels && s.channels[t].rx == ByJoin
      && s.channels[t].mid == s.tasks[t].mid && s.channels[t].pid == s.tasks[t].pid
      && s.channels[t].addr == s.tasks[t].addr
  }

  ghost predicate SessionsHold(s: Server) {
    forall a :: a in s.sessions ==>
      && s.sessions[a].addr == a && s.sessions[a].tx in s.channels
      && s.channels[s.sessions[a].tx].rx == ByRegistry && Names(s.channels[s.sessions[a].tx], s.sessions[a])
  }

  ghost predicate LeaversHold(s: Server) {
    forall t :: t in s.tasks && s.tasks[t].Leaving? ==>
      && s.tasks[t].session.tx in s.channels
      && s.channels[s.tasks[t].session.tx].rx == ByRemoval(t)
      && Names(s.channels[s.tasks[t].session.tx], s.tasks[t].session)
  }

  /** Every join, session and removal holds the receiver it should. */
  ghost predicate HoldersHold(s: Server) {
    JoinsHold(s) && SessionsHold(s) && LeaversHold(s)
  }

  /** Every receiver is held where it says. */
  ghost predicate OwnersStand(s: Server) {
    forall c :: c in s.channels ==>
      match s.channels[c].rx
      case ByJoin => c in s.tasks && s.tasks[c].JoinRegistered?
      case ByRegistry => s.channels[c].addr in s.sessions && s.sessions[s.channels[c].addr].tx == c
      case ByRemoval(t) => t in s.tasks && s.tasks[t].Leaving? && s.tasks[t].session.tx == c
      case Dropped => true
  }

  ghost predicate ReceiversOwned(s: Server) {
    HoldersHold(s) && OwnersStand(s)
  }

  ghost predicate SessionInv(s: Server) {
    Agree(s.w) && NamesFresh(s) && ClaimsHeld(s) && ChannelsNameSeats(s) && ReceiversOwned(s)
  }

  lemma SessionInvBoot()
    ensures SessionInv(Boot())
  {
  }

  // ----- steps that leave joins alone -----

  ghost predicate SameJoins(s: Server, r: Server) {
    && r.sessions == s.sessions
    && r.channels.Keys == s.channels.Keys
    && (forall c :: c in s.channels ==>
          && r.channels[c].mid == s.channels[c].mid && r.channels[c].pid == s.channels[c].pid
          && r.channels[c].addr == s.channels[c].addr && r.channels[c].rx == s.channels[c].rx)
    && s.next <= r.next
    && (forall t :: t in r.tasks ==> t < r.next)
    && (forall t :: t in s.tasks && InJoin(s.tasks[t]) ==> t in r.tasks && r.tasks[t] == s.tasks[t])
    && (forall t :: t in r.tasks && InJoin(r.tasks[t]) ==> t in s.tasks && r.tasks[t] == s.tasks[t])
  }

  lemma BystanderKeepsChannels(s: Server, r: Server)
    requires ChannelsNameSeats(s) && SameJoins(s, r) && LivesUndisturbed(s.w, r.w)
    ensures ChannelsNameSeats(r)
  {
  }

  lemma BystanderKeepsReceivers(s: Server, r: Server)
    requires ReceiversOwned(s) && SameJoins(s, r)
    ensures ReceiversOwned(r)
  {
  }

  lemma BystanderKeepsClaims(s: Server, r: Server)
    requires NamesFresh(s) && ClaimsHeld(s) && SameJoins(s, r) && LivesUndisturbed(s.w, r.w)
    ensures NamesFresh(r) && ClaimsHeld(r)
  {
  }

  lemma BystanderKeepsSessions(s: Server, r: Server)
    requires SessionInv(s) && SameJoins(s, r) && LivesUndisturbed(s.w, r.w) && Agree(r.w)
    ensures SessionInv(r)
  {
    BystanderKeepsClaims(s, r);
    BystanderKeepsChannels(s, r);
    BystanderKeepsReceivers(s, r);
  }

  lemma SpawnKeepsJoins(s: Server, task: Task)
    requires NamesFresh(s) && !InJoin(task)
    ensures SameJoins(s, Spawn(s, task))
  {
  }

  lemma TaskChangeKeepsJoins(s: Server, r: Server, t: nat)
    requires NamesFresh(s) && t in s.tasks && !InJoin(s.tasks[t])
    requires r.sessions == s.sessions && r.next == s.next && r.channels == s.channels
    requires r.tasks == s.tasks - {t} || (t in r.tasks && !InJoin(r.tasks[t]) && r.tasks == s.tasks[t := r.tasks[t]])
    ensures SameJoins(s, r)
  {
  }

  lemma EnqueueKeepsJoins(s: Server, t: nat)
    requires NamesFresh(s) && t in s.tasks && s.tasks[t].Sending?
    ensures SameJoins(s, DoEnqueue(s, t))
  {
  }

  lemma ParamUpdateKeepsJoins(s: Server, t: nat, now: Unix, after: Unix, ms: nat)
    requires NamesFresh(s) && t in s.tasks && s.tasks[t].ParamLooked?
    ensures SameJoins(s, DoParamUpdate(s, t, now, after, ms))
  {
    TaskChangeKeepsJoins(s, DoParamUpdate(s, t, now, after, ms), t);
  }

  lemma StartRoomSpawns(s: Server, mid: Id, now: Unix, picks: Picks, ms: nat)
    requires Permitted(s.w, Start(mid, now, picks))
    ensures var r := DoStartRoom(s, mid, now, picks, ms);
      var s' := s.(w := r.w);
      r == s' || exists cause, msg :: r == Spawn(s', Announcing(mid, cause, msg))
  {
  }

  lemma StartRoomKeepsJoins(s: Server, mid: Id, now: Unix, picks: Picks, ms: nat)
    requires NamesFresh(s) && Permitted(s.w, Start(mid, now, picks))
    ensures SameJoins(s, DoStartRoom(s, mid, now, picks, ms))
  {
    var r := DoStartRoom(s, mid, now, picks, ms);
    var s' := s.(w := r.w);
    StartRoomSpawns(s, mid, now, picks, ms);
    if r != s' {
      var cause, msg :| r == Spawn(s', Announcing(mid, cause, msg));
      SpawnKeepsJoins(s', Announcing(mid, cause, msg));
    }
  }

  lemma FanoutKeepsJoins(s: Server, t: nat, order: seq<Id>)
    requires NamesFresh(s) && Enabled(s, Fanout(t, order))
    ensures SameJoins(s, DoFanout(s, t, order))
  {
  }

  lemma SameJoinsAfter(s: Server, l: Label)
    requires NamesFresh(s) && Enabled(s, l) && !IsJoinStep(l)
    ensures SameJoins(s, Step(s, l))
  {
    match l
    case Grpc(_) =>
    case ParamLookup(addr, seqNo, param, direction) =>
      if addr in s.sessions { SpawnKeepsJoins(s, ParamLooked(s.sessions[addr], seqNo, param, direction)); }
    case ParamUpdate(t, now, after, ms) => ParamUpdateKeepsJoins(s, t, now, after, ms);
    case StartRoom(mid, now, picks, ms) => StartRoomKeepsJoins(s, mid, now, picks, ms);
    case Fanout(t, order) => FanoutKeepsJoins(s, t, order);
    case Enqueue(t) => EnqueueKeepsJoins(s, t);
    case Drain(_) =>
    case SweepRead(reading) => SpawnKeepsJoins(s, SweepPending(reading));
    case SweepRun(t) => TaskChangeKeepsJoins(s, Step(s, l), t);
    case RelayLookup(addr, suppress) =>
      if addr in s.sessions { SpawnKeepsJoins(s, Relaying(s.sessions[addr], suppress)); }
    case RelayRun(t) => TaskChangeKeepsJoins(s, DoRelayRun(s, t), t);
  }

  /** The lock section a step passes through, if any. */
  function SectionOf(s: Server, l: Label): Option<Op>
    requires (l.JoinConsume? || l.JoinRegister? || l.DropPlayer? || l.ParamUpdate? || l.SweepRun?) ==> l.task in s.tasks
    requires l.JoinConsume? ==> s.tasks[l.task].JoinChecked?
    requires l.JoinRegister? ==> s.tasks[l.task].JoinConsumed?
    requires l.DropPlayer? ==> s.tasks[l.task].Leaving?
    requires l.ParamUpdate? ==> s.tasks[l.task].ParamLooked?
    requires l.SweepRun? ==> s.tasks[l.task].SweepPending?
  {
    match l
    case Grpc(op) => Some(op)
    case JoinConsume(t, now) => Some(Consume(s.tasks[t].token, now, t))
    case JoinRegister(t, now) => Some(RegisterOp(s.tasks[t], t, now))
    case DropPlayer(t, now) => Some(Remove(s.tasks[t].session.matchId, s.tasks[t].session.playerId, now))
    case ParamUpdate(t, now, after, _) =>
      var task := s.tasks[t];
      Some(Update(task.session.matchId, task.session.playerId, task.param, task.direction, now, after))
    case StartRoom(mid, now, picks, _) => Some(Start(mid, now, picks))
    case SweepRun(t) => Some(Sweep(s.tasks[t].reading))
    case _ => None
  }

  /** Every step of the server is one step of the lobby, or none. */
  lemma StepRefinesLobby(s: Server, l: Label)
    requires Enabled(s, l)
    ensures match SectionOf(s, l)
      case Some(op) => Permitted(s.w, op) && Step(s, l).w == Do(s.w, op)
      case None => Step(s, l).w == s.w
    ensures Next(s.w, Step(s, l).w)
  {
  }

  // ----- the steps of joins and removals -----

  lemma SpawnCheckedKeepsReceivers(s: Server, addr: SocketAddr, token: Token)
    requires NamesFresh(s) && ReceiversOwned(s)
    ensures ReceiversOwned(Spawn(s, JoinChecked(addr, token)))
  {
  }

  lemma JoinCheckKeeps(s: Server, addr: SocketAddr, token: Token)
    requires SessionInv(s)
    ensures SessionInv(DoJoinCheck(s, addr, token))
  {
    if addr !in s.sessions {
      SpawnCheckedKeepsReceivers(s, addr, token);
    }
  }

  /** Consuming a ticket turns a waiting id into this task's claim, or ends the task. */
  lemma ConsumeEffect(w: World, token: Token, now: Unix, t: nat)
    requires Agree(w)
    ensures var v := Do(w, Consume(token, now, t));
      var r := ConsumeTicket(w.core, token, now).1;
      && Agree(v) && v.core.matches == w.core.matches && v.mids == w.mids
      && (token !in w.core.tickets ==> v.life == w.life && r.Err?)
      && (token in w.core.tickets ==>
            var ticket := w.core.tickets[token];
            && ticket.playerId in w.life && w.life[ticket.playerId].Waiting?
            && (r.Ok? ==> r.value == ticket)
            && v.life == w.life[ticket.playerId := if r.Ok? then Claimed(ticket.matchId, t) else Rejected])
  {
    AgreeKept(w, Consume(token, now, t));
  }

  ghost predicate ConsumeShape(s: Server, r: Server, t: nat) {
    && t in s.tasks && s.tasks[t].JoinChecked?
    && r.sessions == s.sessions && r.channels == s.channels && r.next == s.next
    && r.w.core.matches == s.w.core.matches && r.w.mids == s.w.mids
    && if t !in r.tasks
       then r.tasks == s.tasks - {t}
            && (r.w.life == s.w.life
                || exists pid :: pid in s.w.life && s.w.life[pid].Waiting? && r.w.life == s.w.life[pid := Rejected])
       else r.tasks[t].JoinConsumed? && r.tasks == s.tasks[t := r.tasks[t]]
            && r.tasks[t].pid in s.w.life && s.w.life[r.tasks[t].pid].Waiting?
            && r.w.life == s.w.life[r.tasks[t].pid := Claimed(r.tasks[t].mid, t)]
  }

  lemma JoinConsumeShape(s: Server, t: nat, now: Unix)
    requires Agree(s.w) && Enabled(s, JoinConsume(t, now))
    ensures ConsumeShape(s, DoJoinConsume(s, t, now), t) && Agree(DoJoinConsume(s, t, now).w)
  {
    ConsumeEffect(s.w, s.tasks[t].token, now, t);
  }

  lemma ConsumeShapeKeepsClaims(s: Server, r: Server, t: nat)
    requires ConsumeShape(s, r, t) && ClaimsHeld(s) && NamesFresh(s)
    ensures ClaimsHeld(r) && NamesFresh(r)
  {
  }

  lemma ConsumeShapeKeepsChannels(s: Server, r: Server, t: nat)
    requires ConsumeShape(s, r, t) && ChannelsNameSeats(s)
    ensures ChannelsNameSeats(r)
  {
  }

  lemma ConsumeShapeKeepsReceivers(s: Server, r: Server, t: nat)
    requires ConsumeShape(s, r, t) && ReceiversOwned(s)
    ensures ReceiversOwned(r)
  {
  }

  lemma JoinConsumeKeeps(s: Server, t: nat, now: Unix)
    requires SessionInv(s) && Enabled(s, JoinConsume(t, now))
    ensures SessionInv(DoJoinConsume(s, t, now))
  {
    var r := DoJoinConsume(s, t, now);
    JoinConsumeShape(s, t, now);
    ConsumeShapeKeepsClaims(s, r, t);
    ConsumeShapeKeepsChannels(s, r, t);
    ConsumeShapeKeepsReceivers(s, r, t);
  }

  /** Registering spends the claim: the id gets the seat, or is rejected. */
  lemma RegisterEffect(w: World, op: Op)
    requires Agree(w) && Permitted(w, op) && op.Register?
    ensures var v := Do(w, op);
      var r := RegisterPlayer(w.core, op.mid, op.pid, op.name, op.addr, op.tx, op.now).1;
      && Agree(v) && v.core.matches.Keys == w.core.matches.Keys && v.mids == w.mids
      && (r.Ok? ==> r.value == DEFAULT_PARAMS)
      && v.life == w.life[op.pid := if r.Ok? then Seated(op.mid, op.tx, op.addr) else Rejected]
  {
    AgreeKept(w, op);
    RegistrationIsNeverARejoin(w, op);
  }

  ghost predicate RegisterShape(s: Server, r: Server, t: nat) {
    && t in s.tasks && s.tasks[t].JoinConsumed?
    && r.sessions == s.sessions && r.next == s.next
    && r.w.core.matches.Keys == s.w.core.matches.Keys && r.w.mids == s.w.mids
    && var was := s.tasks[t];
       if t !in r.tasks
       then r.tasks == s.tasks - {t} && r.channels == s.channels && r.w.life == s.w.life[was.pid := Rejected]
       else r.tasks == s.tasks[t := JoinRegistered(was.addr, was.mid, was.pid, DEFAULT_PARAMS)]
            && r.channels == s.channels[t := Channel(was.mid, was.pid, was.addr, ByJoin, [], [], [], {})]
            && r.w.life == s.w.life[was.pid := Seated(was.mid, t, was.addr)]
  }

  lemma JoinRegisterShape(s: Server, t: nat, now: Unix)
    requires Agree(s.w) && Enabled(s, JoinRegister(t, now))
    ensures RegisterShape(s, DoJoinRegister(s, t, now), t) && Agree(DoJoinRegister(s, t, now).w)
  {
    RegisterEffect(s.w, RegisterOp(s.tasks[t], t, now));
  }

  lemma RegisterShapeKeepsClaims(s: Server, r: Server, t: nat)
    requires RegisterShape(s, r, t) && ClaimsHeld(s) && NamesFresh(s)
    ensures ClaimsHeld(r) && NamesFresh(r)
  {
  }

  lemma RegisterShapeKeepsChannels(s: Server, r: Server, t: nat)
    requires RegisterShape(s, r, t) && Agree(s.w) && ClaimsHeld(s) && NamesFresh(s) && ChannelsNameSeats(s)
    ensures ChannelsNameSeats(r)
  {
    assert forall c :: c in s.channels ==> s.channels[c].pid != s.tasks[t].pid;
  }

  lemma RegisterShapeKeepsReceivers(s: Server, r: Server, t: nat)
    requires RegisterShape(s, r, t) && NamesFresh(s) && ReceiversOwned(s)
    ensures ReceiversOwned(r)
  {
  }

  lemma JoinRegisterKeeps(s: Server, t: nat, now: Unix)
    requires SessionInv(s) && Enabled(s, JoinRegister(t, now))
    ensures SessionInv(DoJoinRegister(s, t, now))
  {
    var r := DoJoinRegister(s, t, now);
    JoinRegisterShape(s, t, now);
    RegisterShapeKeepsClaims(s, r, t);
    RegisterShapeKeepsChannels(s, r, t);
    RegisterShapeKeepsReceivers(s, r, t);
  }

  /** Receivers may change hands, or be dropped, without disturbing names, claims and seats. */
  ghost predicate OnlyHandsChange(s: Server, r: Server, t: nat) {
    && r.w == s.w && r.next == s.next && t in s.tasks
    && (forall u :: u != t ==> (u in r.tasks <==> u in s.tasks) && (u in s.tasks ==> r.tasks[u] == s.tasks[u]))
    && !s.tasks[t].JoinConsumed? && (t in r.tasks ==> !r.tasks[t].JoinConsumed? && !r.tasks[t].JoinChecked?)
    && r.channels.Keys == s.channels.Keys
    && (forall c :: c in s.channels ==>
          && r.channels[c] == s.channels[c].(rx := r.channels[c].rx)
          && (r.channels[c].rx != Dropped ==> s.channels[c].rx != Dropped))
  }

  lemma HandsKeepSeats(s: Server, r: Server, t: nat)
    requires OnlyHandsChange(s, r, t) && NamesFresh(s) && ClaimsHeld(s) && ChannelsNameSeats(s)
    ensures NamesFresh(r) && ClaimsHeld(r) && ChannelsNameSeats(r)
  {
  }

  lemma InsertHands(s: Server, t: nat)
    requires ReceiversOwned(s) && Enabled(s, JoinInsert(t))
    ensures OnlyHandsChange(s, DoJoinInsert(s, t), t)
  {
  }

  ghost predicate InsertShape(s: Server, r: Server, t: nat) {
    && t in s.tasks && s.tasks[t].JoinRegistered? && t in s.channels
    && var was := s.tasks[t];
       && r.tasks == s.tasks[t := JoinInserted(was.addr, was.mid, was.pid, was.params)]
       && r.sessions == s.sessions[was.addr := Session(was.mid, was.pid, was.addr, t)]
       && r.channels.Keys == s.channels.Keys
       && (forall c :: c in s.channels ==> r.channels[c] == s.channels[c].(rx :=
             if c == t then ByRegistry
             else if was.addr in s.sessions && s.sessions[was.addr].tx == c then Dropped
             else s.channels[c].rx))
  }

  lemma JoinInsertShape(s: Server, t: nat)
    requires HoldersHold(s) && Enabled(s, JoinInsert(t))
    ensures InsertShape(s, DoJoinInsert(s, t), t)
  {
  }

  lemma InsertKeepsJoins(s: Server, r: Server, t: nat)
    requires InsertShape(s, r, t) && HoldersHold(s)
    ensures JoinsHold(r) && LeaversHold(r)
  {
  }

  lemma InsertKeepsOwners(s: Server, r: Server, t: nat)
    requires InsertShape(s, r, t) && ReceiversOwned(s)
    ensures OwnersStand(r)
  {
  }

  lemma InsertKeepsReceivers(s: Server, t: nat)
    requires ReceiversOwned(s) && Enabled(s, JoinInsert(t))
    ensures ReceiversOwned(DoJoinInsert(s, t))
  {
    JoinInsertShape(s, t);
    InsertKeepsJoins(s, DoJoinInsert(s, t), t);
    InsertKeepsOwners(s, DoJoinInsert(s, t), t);
  }

  lemma JoinInsertKeeps(s: Server, t: nat)
    requires SessionInv(s) && Enabled(s, JoinInsert(t))
    ensures SessionInv(DoJoinInsert(s, t))
  {
    InsertHands(s, t);
    HandsKeepSeats(s, DoJoinInsert(s, t), t);
    InsertKeepsReceivers(s, t);
  }

  lemma JoinReplyKeeps(s: Server, t: nat, sent: bool, ms: nat)
    requires SessionInv(s) && Enabled(s, JoinReply(t, sent, ms))
    ensures SessionInv(DoJoinReply(s, t, sent, ms))
  {
    HandsKeepSeats(s, DoJoinReply(s, t, sent, ms), t);
    ReplyKeepsReceivers(s, t, sent, ms);
  }

  lemma ReplyKeepsReceivers(s: Server, t: nat, sent: bool, ms: nat)
    requires ReceiversOwned(s) && Enabled(s, JoinReply(t, sent, ms))
    ensures ReceiversOwned(DoJoinReply(s, t, sent, ms))
  {
  }

  /** The dropped session and its receiver move into the removing task. */
  ghost predicate DropShape(s: Server, r: Server, t: nat) {
    && t in s.tasks && s.tasks[t].JoinFailed? && r.w == s.w && r.next == s.next && r.direct == s.direct
    && var addr := s.tasks[t].addr;
       if addr !in s.sessions
       then r.tasks == s.tasks - {t} && r.sessions == s.sessions && r.channels == s.channels
       else
         && r.tasks == s.tasks[t := Leaving(s.sessions[addr])] && r.sessions == s.sessions - {addr}
         && r.channels.Keys == s.channels.Keys
         && forall c :: c in s.channels ==> r.channels[c] == s.channels[c].(rx :=
              if c == s.sessions[addr].tx then ByRemoval(t) else s.channels[c].rx)
  }

  lemma DropSessionShape(s: Server, t: nat)
    requires HoldersHold(s) && Enabled(s, DropSession(t))
    ensures DropShape(s, DoDropSession(s, t), t)
  {
  }

  lemma DropKeepsJoins(s: Server, r: Server, t: nat)
    requires HoldersHold(s) && DropShape(s, r, t)
    ensures JoinsHold(r) && LeaversHold(r)
  {
  }

  lemma DropKeepsOwners(s: Server, r: Server, t: nat)
    requires ReceiversOwned(s) && DropShape(s, r, t)
    ensures OwnersStand(r)
  {
  }

  lemma DropSessionKeeps(s: Server, t: nat)
    requires SessionInv(s) && Enabled(s, DropSession(t))
    ensures SessionInv(DoDropSession(s, t))
  {
    var r := DoDropSession(s, t);
    DropSessionShape(s, t);
    HandsKeepSeats(s, r, t);
    DropKeepsJoins(s, r, t);
    DropKeepsOwners(s, r, t);
  }

  lemma RemoveEffect(w: World, mid: Id, pid: Id, now: Unix)
    requires Agree(w)
    ensures var v := Do(w, Remove(mid, pid, now));
      && Agree(v) && v.core.matches.Keys == w.core.matches.Keys && v.mids == w.mids
      && v.life == (if InRoom(w, mid, pid) then w.life[pid := Removed] else w.life)
      && (InRoom(w, mid, pid) <==> pid in w.life && w.life[pid].Seated? && w.life[pid].mid == mid)
  {
    AgreeKept(w, Remove(mid, pid, now));
    if InRoom(w, mid, pid) {
      assert SeatOf(w, mid, pid) == Some(w.life[pid]);
    }
  }

  /** The removal ends the seat the leaver holds, if the room is still there. */
  ghost predicate LeaveShape(s: Server, r: Server, t: nat) {
    && t in s.tasks && s.tasks[t].Leaving?
    && r.sessions == s.sessions && r.next == s.next && r.tasks == s.tasks - {t}
    && r.w.core.matches.Keys == s.w.core.matches.Keys && r.w.mids == s.w.mids
    && var session := s.tasks[t].session;
       && session.tx in s.channels
       && r.channels == s.channels[session.tx := s.channels[session.tx].(rx := Dropped)]
       && r.w.life == (if HasRoom(s.w, session.matchId) then s.w.life[session.playerId := Removed] else s.w.life)
  }

  lemma DropPlayerShape(s: Server, t: nat, now: Unix)
    requires SessionInv(s) && Enabled(s, DropPlayer(t, now))
    ensures LeaveShape(s, DoDropPlayer(s, t, now), t) && Agree(DoDropPlayer(s, t, now).w)
  {
    var session := s.tasks[t].session;
    var ch := s.channels[session.tx];
    assert ch.rx != Dropped && Names(ch, session);
    RemoveEffect(s.w, session.matchId, session.playerId, now);
  }

  lemma LeaveKeepsClaims(s: Server, r: Server, t: nat)
    requires LeaveShape(s, r, t) && NamesFresh(s) && ClaimsHeld(s) && ChannelsNameSeats(s) && ReceiversOwned(s)
    ensures NamesFresh(r) && ClaimsHeld(r)
  {
    var session := s.tasks[t].session;
    assert Names(s.channels[session.tx], session);
  }

  lemma LeaveKeepsChannels(s: Server, r: Server, t: nat)
    requires LeaveShape(s, r, t) && ChannelsNameSeats(s) && ReceiversOwned(s)
    ensures ChannelsNameSeats(r)
  {
    var session := s.tasks[t].session;
    assert Names(s.channels[session.tx], session);
  }

  lemma LeaveKeepsReceivers(s: Server, r: Server, t: nat)
    requires LeaveShape(s, r, t) && ReceiversOwned(s)
    ensures ReceiversOwned(r)
  {
  }

  lemma DropPlayerKeeps(s: Server, t: nat, now: Unix)
    requires SessionInv(s) && Enabled(s, DropPlayer(t, now))
    ensures SessionInv(DoDropPlayer(s, t, now))
  {
    var r := DoDropPlayer(s, t, now);
    DropPlayerShape(s, t, now);
    LeaveKeepsClaims(s, r, t);
    LeaveKeepsChannels(s, r, t);
    LeaveKeepsReceivers(s, r, t);
  }

  lemma BystanderStepKeeps(s: Server, l: Label)
    requires SessionInv(s) && Enabled(s, l) && !IsJoinStep(l)
    ensures SessionInv(Step(s, l))
  {
    var r := Step(s, l);
    StepRefinesLobby(s, l);
    SameJoinsAfter(s, l);
    BystanderSection(s, l, r.w);
    BystanderKeepsSessions(s, r);
  }

  lemma BystanderSection(s: Server, l: Label, v: World)
    requires Agree(s.w) && Enabled(s, l) && !IsJoinStep(l)
    requires match SectionOf(s, l)
      case Some(op) => Permitted(s.w, op) && v == Do(s.w, op)
      case None => v == s.w
    ensures LivesUndisturbed(s.w, v) && Agree(v)
  {
    match SectionOf(s, l) {
      case Some(op) => BystandersUndisturbed(s.w, op); AgreeKept(s.w, op);
      case None =>
    }
  }

  lemma StepKeepsSessionInv(s: Server, l: Label)
    requires SessionInv(s) && Enabled(s, l)
    ensures SessionInv(Step(s, l))
  {
    if IsJoinStep(l) {
      JoinStepKeeps(s, l);
    } else {
      BystanderStepKeeps(s, l);
    }
  }

  lemma JoinStepKeeps(s: Server, l: Label)
    requires SessionInv(s) && Enabled(s, l) && IsJoinStep(l)
    ensures SessionInv(JoinStep(s, l))
  {
    match l
    case JoinCheck(addr, token) => JoinCheckKeeps(s, addr, token);
    case JoinConsume(t, now) => JoinConsumeKeeps(s, t, now);
    case JoinRegister(t, now) => JoinRegisterKeeps(s, t, now);
    case JoinInsert(t) => JoinInsertKeeps(s, t);
    case JoinReply(t, sent, ms) => JoinReplyKeeps(s, t, sent, ms);
    case DropSession(t) => DropSessionKeeps(s, t);
    case DropPlayer(t, now) => DropPlayerKeeps(s, t, now);
  }
}
