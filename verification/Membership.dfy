/** Sessions against rooms: what agrees unconditionally, what needs one join per address. */
module Membership {
  import opened Wrappers
  import opened Types
  import opened World
  import opened Identity
  import opened Lifetime
  import opened Server
  import opened Sessions

  ghost predicate RunStep(ss: seq<Server>, ls: seq<Label>, i: nat)
    requires i < |ls| < |ss|
  {
    Enabled(ss[i], ls[i]) && ss[i + 1] == Step(ss[i], ls[i])
  }

  /** A run of the whole server: any interleaving of the steps of its tasks. */
  ghost predicate Run(ss: seq<Server>, ls: seq<Label>) {
    && |ss| == |ls| + 1
    && ss[0] == Boot()
    && forall i: nat :: i < |ls| ==> RunStep(ss, ls, i)
  }

  // ----- everything reachable -----

  /** Parameters handed to joins are the defaults, in flight and on the wire. */
  ghost predicate JoinsGetDefaults(s: Server) {
    && (forall t :: t in s.tasks && (s.tasks[t].JoinRegistered? || s.tasks[t].JoinInserted?) ==>
          s.tasks[t].params == DEFAULT_PARAMS)
    && (forall i :: 0 <= i < |s.direct| && s.direct[i].msg.JoinOk? ==> s.direct[i].msg.params == DEFAULT_PARAMS)
  }

  lemma DefaultsAfterConsume(s: Server, t: nat, now: Unix)
    requires JoinsGetDefaults(s) && Enabled(s, JoinConsume(t, now))
    ensures JoinsGetDefaults(DoJoinConsume(s, t, now))
  {
  }

  lemma DefaultsAfterRegister(s: Server, t: nat, now: Unix)
    requires SessionInv(s) && JoinsGetDefaults(s) && Enabled(s, JoinRegister(t, now))
    ensures JoinsGetDefaults(DoJoinRegister(s, t, now))
  {
    RegisterEffect(s.w, RegisterOp(s.tasks[t], t, now));
  }

  lemma DefaultsAfterCheck(s: Server, addr: SocketAddr, token: Token)
    requires JoinsGetDefaults(s)
    ensures JoinsGetDefaults(DoJoinCheck(s, addr, token))
  {
  }

  lemma DefaultsAfterInsert(s: Server, t: nat)
    requires JoinsGetDefaults(s) && Enabled(s, JoinInsert(t))
    ensures JoinsGetDefaults(DoJoinInsert(s, t))
  {
  }

  lemma DefaultsAfterDrop(s: Server, t: nat)
    requires JoinsGetDefaults(s) && Enabled(s, DropSession(t))
    ensures JoinsGetDefaults(DoDropSession(s, t))
  {
  }

  lemma DefaultsAfterOthers(s: Server, r: Server)
    requires JoinsGetDefaults(s) && SameJoins(s, r) && r.direct == s.direct
    ensures JoinsGetDefaults(r)
  {
  }

  lemma DefaultsKept(s: Server, l: Label)
    requires SessionInv(s) && JoinsGetDefaults(s) && Enabled(s, l)
    ensures JoinsGetDefaults(Step(s, l))
  {
    if !IsJoinStep(l) {
      SameJoinsAfter(s, l);
      DirectUntouched(s, l);
      DefaultsAfterOthers(s, Step(s, l));
    } else {
      DefaultsAfterJoins(s, l);
    }
  }

  lemma DefaultsAfterJoins(s: Server, l: Label)
    requires SessionInv(s) && JoinsGetDefaults(s) && Enabled(s, l) && IsJoinStep(l)
    ensures JoinsGetDefaults(JoinStep(s, l))
  {
    match l
    case JoinCheck(addr, token) => DefaultsAfterCheck(s, addr, token);
    case JoinConsume(t, now) => DefaultsAfterConsume(s, t, now);
    case JoinRegister(t, now) => DefaultsAfterRegister(s, t, now);
    case JoinInsert(t) => DefaultsAfterInsert(s, t);
    case JoinReply(t, sent, ms) =>
    case DropSession(t) => DefaultsAfterDrop(s, t);
    case DropPlayer(t, now) =>
  }

  lemma DirectUntouched(s: Server, l: Label)
    requires Enabled(s, l) && !IsJoinStep(l)
    ensures Step(s, l).direct == s.direct
  {
    match l
    case Grpc(_) =>
    case ParamLookup(_, _, _, _) =>
    case ParamUpdate(_, _, _, _) =>
    case StartRoom(_, _, _, _) =>
    case Fanout(_, _) =>
    case Enqueue(_) =>
    case Drain(_) =>
    case SweepRead(_) =>
    case SweepRun(_) =>
    case RelayLookup(_, _) =>
    case RelayRun(_) =>
  }

  /** Every state of every run satisfies the session invariant and all lobby invariants. */
  lemma {:induction false} EveryReachableServer(ss: seq<Server>, ls: seq<Label>, i: nat)
    requires Run(ss, ls) && i < |ss|
    ensures SessionInv(ss[i]) && LobbyInv(ss[i].w) && JoinsGetDefaults(ss[i])
  {
    if i == 0 {
      SessionInvBoot();
      LobbyInvInit();
    } else {
      EveryReachableServer(ss, ls, i - 1);
      RunStepKeeps(ss, ls, i - 1);
    }
  }

  lemma RunStepKeeps(ss: seq<Server>, ls: seq<Label>, i: nat)
    requires Run(ss, ls) && i < |ls|
    requires SessionInv(ss[i]) && LobbyInv(ss[i].w) && JoinsGetDefaults(ss[i])
    ensures SessionInv(ss[i + 1]) && LobbyInv(ss[i + 1].w) && JoinsGetDefaults(ss[i + 1])
  {
    assert RunStep(ss, ls, i);
    ServerStepKeeps(ss[i], ls[i]);
  }

  lemma SessionInvAlways(ss: seq<Server>, ls: seq<Label>, i: nat)
    requires Run(ss, ls) && i < |ss|
    ensures SessionInv(ss[i])
  {
    EveryReachableServer(ss, ls, i);
  }

  lemma ServerStepKeeps(s: Server, l: Label)
    requires SessionInv(s) && LobbyInv(s.w) && JoinsGetDefaults(s) && Enabled(s, l)
    ensures SessionInv(Step(s, l)) && LobbyInv(Step(s, l).w) && JoinsGetDefaults(Step(s, l))
  {
    StepKeepsSessionInv(s, l);
    StepRefinesLobby(s, l);
    NextKeepsLobbyInv(s.w, Step(s, l).w);
    DefaultsKept(s, l);
  }

  /** The lobby states of a run of the server form a run of the lobby. */
  lemma RunProjects(ss: seq<Server>, ls: seq<Label>)
    requires Run(ss, ls)
    ensures Trace(seq(|ss|, i requires 0 <= i < |ss| => ss[i].w))
  {
    var ws := seq(|ss|, i requires 0 <= i < |ss| => ss[i].w);
    forall i: nat | i < |ws| - 1 ensures StepAt(ws, i) {
      assert RunStep(ss, ls, i);
      StepRefinesLobby(ss[i], ls[i]);
    }
  }

  /** A join that consumed a ticket can always go on to register. */
  lemma ClaimIsPermitted(s: Server, t: nat, now: Unix)
    requires SessionInv(s) && t in s.tasks && s.tasks[t].JoinConsumed?
    ensures Enabled(s, JoinRegister(t, now))
  {
  }

  // ----- a session implies membership -----

  /**
   In every reachable state a session is stored under its own address, and unless its match is
   gone its player is in that room, connected at that address, sending into that session's
   channel. No player has two sessions.
   */
  lemma SessionImpliesMembership(s: Server, a: SocketAddr)
    requires SessionInv(s) && a in s.sessions
    ensures var session := s.sessions[a];
      && session.addr == a
      && (HasRoom(s.w, session.matchId) ==>
            && InRoom(s.w, session.matchId, session.playerId)
            && PlayerAt(s.w, session.matchId, session.playerId).connection == Some(a)
            && PlayerAt(s.w, session.matchId, session.playerId).tx == session.tx)
    ensures forall b :: b in s.sessions && s.sessions[b].playerId == s.sessions[a].playerId ==> a == b
  {
  }

  // ----- who holds a player -----

  ghost predicate JoinHolds(s: Server, t: nat, pid: Id) {
    t in s.tasks && s.tasks[t].JoinRegistered? && s.tasks[t].pid == pid
  }

  ghost predicate SessionHolds(s: Server, a: SocketAddr, pid: Id) {
    a in s.sessions && s.sessions[a].playerId == pid
  }

  ghost predicate RemovalHolds(s: Server, t: nat, pid: Id) {
    t in s.tasks && s.tasks[t].Leaving? && s.tasks[t].session.playerId == pid
  }

  ghost predicate Held(s: Server, pid: Id) {
    (exists t :: JoinHolds(s, t, pid)) || (exists a :: SessionHolds(s, a, pid)) || (exists t :: RemovalHolds(s, t, pid))
  }

  /** A member of a room that no join, session or removal will ever act for again. */
  ghost predicate Stranded(s: Server, mid: Id, pid: Id) {
    InRoom(s.w, mid, pid) && !Held(s, pid)
  }

  /** The channel of a seated player. */
  ghost function SeatChannel(s: Server, mid: Id, pid: Id): (c: ChannelId)
    requires SessionInv(s) && InRoom(s.w, mid, pid)
    ensures c in s.channels && s.channels[c].pid == pid && s.channels[c].mid == mid
    ensures s.w.life[pid] == Seated(mid, c, s.channels[c].addr)
    ensures PlayerAt(s.w, mid, pid).tx == c
    ensures PlayerAt(s.w, mid, pid).connection == Some(s.channels[c].addr)
  {
    assert SeatOf(s.w, mid, pid) == Some(s.w.life[pid]);
    PlayerAt(s.w, mid, pid).tx
  }

  /** No player is held twice, by holders of the same or of different kinds. */
  lemma HeldAtMostOnce(s: Server, pid: Id)
    requires SessionInv(s)
    ensures forall t, u :: JoinHolds(s, t, pid) && JoinHolds(s, u, pid) ==> t == u
    ensures forall a, b :: SessionHolds(s, a, pid) && SessionHolds(s, b, pid) ==> a == b
    ensures forall t, u :: RemovalHolds(s, t, pid) && RemovalHolds(s, u, pid) ==> t == u
    ensures forall t, a :: !(JoinHolds(s, t, pid) && SessionHolds(s, a, pid))
    ensures forall t, u :: !(JoinHolds(s, t, pid) && RemovalHolds(s, u, pid))
    ensures forall a, t :: !(SessionHolds(s, a, pid) && RemovalHolds(s, t, pid))
  {
  }

  /** A seated player is held exactly while the receiver of its channel is alive. */
  lemma HeldIffReceiverAlive(s: Server, mid: Id, pid: Id)
    requires SessionInv(s) && InRoom(s.w, mid, pid)
    ensures Held(s, pid) <==> s.channels[SeatChannel(s, mid, pid)].rx != Dropped
  {
    var c := SeatChannel(s, mid, pid);
    forall a | SessionHolds(s, a, pid) ensures s.sessions[a].tx == c {
      assert Names(s.channels[s.sessions[a].tx], s.sessions[a]);
    }
    forall t | RemovalHolds(s, t, pid) ensures s.tasks[t].session.tx == c {
      assert Names(s.channels[s.tasks[t].session.tx], s.tasks[t].session);
    }
    match s.channels[c].rx
    case ByJoin => assert JoinHolds(s, c, pid);
    case ByRegistry => SessionOfChannel(s, c); assert SessionHolds(s, s.channels[c].addr, pid);
    case ByRemoval(t) =>
      assert Names(s.channels[c], s.tasks[t].session);
      assert RemovalHolds(s, t, pid);
    case Dropped =>
  }

  lemma SessionOfChannel(s: Server, c: ChannelId)
    requires ReceiversOwned(s) && c in s.channels && s.channels[c].rx == ByRegistry
    ensures s.channels[c].addr in s.sessions && Names(s.channels[c], s.sessions[s.channels[c].addr])
  {
  }

  // ----- exactly which step strands a player -----

  /** The step inserts a session over a live one whose player stays behind. */
  ghost predicate Overwrites(s: Server, l: Label, mid: Id, pid: Id)
    requires Enabled(s, l)
  {
    && l.JoinInsert? && s.tasks[l.task].addr in s.sessions
    && var old_ := s.sessions[s.tasks[l.task].addr];
       old_.playerId == pid && old_.matchId == mid && InRoom(s.w, mid, pid)
  }

  /**
   After any step the stranded players are those stranded before whose room is still there, and
   the one whose session the step overwrote. So a player is stranded by nothing but an insert
   at an address already in the registry, and then stays in its room as long as the room.
   */
  lemma StrandedExactlyByOverwrite(s: Server, l: Label, mid: Id, pid: Id)
    requires SessionInv(s) && Enabled(s, l)
    ensures Stranded(Step(s, l), mid, pid) <==>
            (Stranded(s, mid, pid) && HasRoom(Step(s, l).w, mid)) || Overwrites(s, l, mid, pid)
  {
    if !IsJoinStep(l) {
      StrandedByOthers(s, l, mid, pid);
    } else {
      StrandedByJoins(s, l, mid, pid);
    }
  }

  lemma StrandedByOthers(s: Server, l: Label, mid: Id, pid: Id)
    requires SessionInv(s) && Enabled(s, l) && !IsJoinStep(l)
    ensures Stranded(Step(s, l), mid, pid) <==> Stranded(s, mid, pid) && HasRoom(Step(s, l).w, mid)
  {
    StepKeepsSessionInv(s, l);
    SameJoinsAfter(s, l);
    StepRefinesLobby(s, l);
    BystanderSection(s, l, Step(s, l).w);
    StrandedUndisturbed(s, Step(s, l), mid, pid);
  }

  /** Seats, told by the lives that the invariant ties to the rooms. */
  lemma SeatsAreLives(w: World, mid: Id, pid: Id)
    requires Agree(w)
    ensures InRoom(w, mid, pid) <==> pid in w.life && w.life[pid].Seated? && w.life[pid].mid == mid
    ensures pid in w.life && w.life[pid].Seated? ==> HasRoom(w, w.life[pid].mid)
  {
  }

  ghost predicate DeadSeat(s: Server, mid: Id, pid: Id) {
    && pid in s.w.life && s.w.life[pid].Seated? && s.w.life[pid].mid == mid
    && s.w.life[pid].tx in s.channels && s.channels[s.w.life[pid].tx].rx == Dropped
  }

  lemma StrandedIsDeadSeat(s: Server, mid: Id, pid: Id)
    requires SessionInv(s)
    ensures Stranded(s, mid, pid) <==> DeadSeat(s, mid, pid)
  {
    SeatsAreLives(s.w, mid, pid);
    if InRoom(s.w, mid, pid) {
      HeldIffReceiverAlive(s, mid, pid);
    }
  }

  lemma StrandedUndisturbed(s: Server, r: Server, mid: Id, pid: Id)
    requires SessionInv(s) && SessionInv(r) && SameJoins(s, r) && LivesUndisturbed(s.w, r.w)
    ensures Stranded(r, mid, pid) <==> Stranded(s, mid, pid) && HasRoom(r.w, mid)
  {
    StrandedIsDeadSeat(s, mid, pid);
    StrandedIsDeadSeat(r, mid, pid);
    SeatsAreLives(r.w, mid, pid);
  }

  lemma StrandedByJoins(s: Server, l: Label, mid: Id, pid: Id)
    requires SessionInv(s) && Enabled(s, l) && IsJoinStep(l)
    ensures Stranded(Step(s, l), mid, pid) <==>
            (Stranded(s, mid, pid) && HasRoom(Step(s, l).w, mid)) || Overwrites(s, l, mid, pid)
  {
    StepKeepsSessionInv(s, l);
    StrandedIsDeadSeat(s, mid, pid);
    StrandedIsDeadSeat(Step(s, l), mid, pid);
    SeatsAreLives(s.w, mid, pid);
    DeadSeatsByJoins(s, l, mid, pid);
  }

  lemma DeadSeatsByJoins(s: Server, l: Label, mid: Id, pid: Id)
    requires SessionInv(s) && Enabled(s, l) && IsJoinStep(l)
    ensures DeadSeat(JoinStep(s, l), mid, pid) <==>
            (DeadSeat(s, mid, pid) && HasRoom(JoinStep(s, l).w, mid)) || Overwrites(s, l, mid, pid)
  {
    SeatsAreLives(s.w, mid, pid);
    match l
    case JoinCheck(addr, token) => DeadSeatsOnCheck(s, addr, token, mid, pid);
    case JoinConsume(t, now) => DeadSeatsOnConsume(s, t, now, mid, pid);
    case JoinRegister(t, now) => DeadSeatsOnRegister(s, t, now, mid, pid);
    case JoinInsert(t) => DeadSeatsOnInsert(s, t, mid, pid);
    case JoinReply(t, sent, ms) => DeadSeatsOnReply(s, t, sent, ms, mid, pid);
    case DropSession(t) => DeadSeatsAfterDrop(s, t, mid, pid);
    case DropPlayer(t, now) => DeadSeatsOnLeave(s, t, now, mid, pid);
  }

  lemma DeadSeatsOnCheck(s: Server, addr: SocketAddr, token: Token, mid: Id, pid: Id)
    ensures DeadSeat(DoJoinCheck(s, addr, token), mid, pid) <==> DeadSeat(s, mid, pid)
    ensures DoJoinCheck(s, addr, token).w == s.w
  {
  }

  lemma DeadSeatsOnReply(s: Server, t: nat, sent: bool, ms: nat, mid: Id, pid: Id)
    requires Enabled(s, JoinReply(t, sent, ms))
    ensures DeadSeat(DoJoinReply(s, t, sent, ms), mid, pid) <==> DeadSeat(s, mid, pid)
    ensures DoJoinReply(s, t, sent, ms).w == s.w
  {
  }

  lemma DeadSeatsOnConsume(s: Server, t: nat, now: Unix, mid: Id, pid: Id)
    requires SessionInv(s) && Enabled(s, JoinConsume(t, now))
    ensures DeadSeat(DoJoinConsume(s, t, now), mid, pid) <==> DeadSeat(s, mid, pid)
    ensures HasRoom(DoJoinConsume(s, t, now).w, mid) <==> HasRoom(s.w, mid)
  {
    JoinConsumeShape(s, t, now);
    DeadSeatsAfterConsume(s, DoJoinConsume(s, t, now), t, mid, pid);
  }

  lemma DeadSeatsOnRegister(s: Server, t: nat, now: Unix, mid: Id, pid: Id)
    requires SessionInv(s) && Enabled(s, JoinRegister(t, now))
    ensures DeadSeat(DoJoinRegister(s, t, now), mid, pid) <==> DeadSeat(s, mid, pid)
    ensures HasRoom(DoJoinRegister(s, t, now).w, mid) <==> HasRoom(s.w, mid)
  {
    JoinRegisterShape(s, t, now);
    DeadSeatsAfterRegister(s, DoJoinRegister(s, t, now), t, mid, pid);
  }

  lemma DeadSeatsOnInsert(s: Server, t: nat, mid: Id, pid: Id)
    requires SessionInv(s) && Enabled(s, JoinInsert(t))
    ensures DeadSeat(DoJoinInsert(s, t), mid, pid) <==> DeadSeat(s, mid, pid) || Overwrites(s, JoinInsert(t), mid, pid)
  {
    JoinInsertShape(s, t);
    DeadSeatsAfterInsert(s, DoJoinInsert(s, t), t, mid, pid);
  }

  lemma DeadSeatsOnLeave(s: Server, t: nat, now: Unix, mid: Id, pid: Id)
    requires SessionInv(s) && Enabled(s, DropPlayer(t, now))
    ensures DeadSeat(DoDropPlayer(s, t, now), mid, pid) <==>
            DeadSeat(s, mid, pid) && HasRoom(DoDropPlayer(s, t, now).w, mid)
  {
    DropPlayerShape(s, t, now);
    DeadSeatsAfterLeave(s, DoDropPlayer(s, t, now), t, mid, pid);
  }

  lemma DeadSeatsAfterConsume(s: Server, r: Server, t: nat, mid: Id, pid: Id)
    requires SessionInv(s) && ConsumeShape(s, r, t)
    ensures DeadSeat(r, mid, pid) <==> DeadSeat(s, mid, pid)
  {
  }

  lemma DeadSeatsAfterRegister(s: Server, r: Server, t: nat, mid: Id, pid: Id)
    requires SessionInv(s) && RegisterShape(s, r, t)
    ensures DeadSeat(r, mid, pid) <==> DeadSeat(s, mid, pid)
  {
  }

  lemma DeadSeatsAfterInsert(s: Server, r: Server, t: nat, mid: Id, pid: Id)
    requires Agree(s.w) && ChannelsNameSeats(s) && HoldersHold(s) && InsertShape(s, r, t) && r.w == s.w
    ensures DeadSeat(r, mid, pid) <==>
            DeadSeat(s, mid, pid) || Overwrites(s, JoinInsert(t), mid, pid)
  {
    var addr := s.tasks[t].addr;
    SeatsAreLives(s.w, mid, pid);
    assert s.channels[t].rx == ByJoin;
    if addr in s.sessions {
      SessionNamesChannel(s, addr);
    }
  }

  lemma SessionNamesChannel(s: Server, a: SocketAddr)
    requires HoldersHold(s) && a in s.sessions
    ensures var session := s.sessions[a];
      && session.tx in s.channels && s.channels[session.tx].rx == ByRegistry
      && Names(s.channels[session.tx], session)
  {
  }

  lemma DeadSeatsAfterDrop(s: Server, t: nat, mid: Id, pid: Id)
    requires SessionInv(s) && Enabled(s, DropSession(t))
    ensures DeadSeat(DoDropSession(s, t), mid, pid) <==> DeadSeat(s, mid, pid)
  {
  }

  lemma DeadSeatsAfterLeave(s: Server, r: Server, t: nat, mid: Id, pid: Id)
    requires SessionInv(s) && LeaveShape(s, r, t)
    ensures DeadSeat(r, mid, pid) <==> DeadSeat(s, mid, pid) && HasRoom(r.w, mid)
  {
  }

  // ----- one join per address -----

  /** Between the address check and the insert. */
  predicate InWindow(task: Task) {
    task.JoinChecked? || task.JoinConsumed? || task.JoinRegistered?
  }

  /** At most one join per address is between its check and its insert. */
  ghost predicate OneJoinPerAddr(s: Server) {
    forall t, u ::
      (t in s.tasks && u in s.tasks && InWindow(s.tasks[t]) && InWindow(s.tasks[u])
       && s.tasks[t].addr == s.tasks[u].addr) ==> t == u
  }

  /** Joins under way face a free address; joins past the insert find their own session there. */
  ghost predicate OwnSessions(s: Server) {
    && (forall t :: t in s.tasks && InWindow(s.tasks[t]) ==> s.tasks[t].addr !in s.sessions)
    && (forall t :: t in s.tasks && (s.tasks[t].JoinInserted? || s.tasks[t].JoinFailed?) ==>
          s.tasks[t].addr in s.sessions && s.sessions[s.tasks[t].addr].tx == t)
  }

  lemma OwnSessionsAfterConsume(s: Server, r: Server, t: nat, now: Unix)
    requires OwnSessions(s) && Enabled(s, JoinConsume(t, now)) && r == DoJoinConsume(s, t, now)
    ensures OwnSessions(r)
  {
  }

  lemma OwnSessionsAfterRegister(s: Server, r: Server, t: nat)
    requires OwnSessions(s) && RegisterShape(s, r, t)
    ensures OwnSessions(r)
  {
  }

  lemma OwnSessionsAfterInsert(s: Server, r: Server, t: nat)
    requires OwnSessions(s) && OneJoinPerAddr(s) && InsertShape(s, r, t)
    ensures OwnSessions(r)
  {
  }

  lemma OwnSessionsAfterCheck(s: Server, addr: SocketAddr, token: Token)
    requires OwnSessions(s) && NamesFresh(s)
    ensures OwnSessions(DoJoinCheck(s, addr, token))
  {
  }

  lemma OwnSessionsAfterReply(s: Server, t: nat, sent: bool, ms: nat)
    requires OwnSessions(s) && Enabled(s, JoinReply(t, sent, ms))
    ensures OwnSessions(DoJoinReply(s, t, sent, ms))
  {
  }

  lemma OwnSessionsAfterDrop(s: Server, t: nat)
    requires OwnSessions(s) && Enabled(s, DropSession(t))
    ensures OwnSessions(DoDropSession(s, t))
  {
  }

  lemma OwnSessionsAfterLeave(s: Server, r: Server, t: nat)
    requires OwnSessions(s) && LeaveShape(s, r, t)
    ensures OwnSessions(r)
  {
  }

  lemma OwnSessionsAfterOthers(s: Server, r: Server)
    requires OwnSessions(s) && SameJoins(s, r)
    ensures OwnSessions(r)
  {
  }

  lemma OwnSessionsKept(s: Server, l: Label)
    requires SessionInv(s) && OwnSessions(s) && OneJoinPerAddr(s) && Enabled(s, l)
    ensures OwnSessions(Step(s, l))
  {
    if IsJoinStep(l) {
      OwnSessionsAfterJoins(s, l);
    } else {
      SameJoinsAfter(s, l);
      OwnSessionsAfterOthers(s, Step(s, l));
    }
  }

  lemma OwnSessionsAfterJoins(s: Server, l: Label)
    requires SessionInv(s) && OwnSessions(s) && OneJoinPerAddr(s) && Enabled(s, l) && IsJoinStep(l)
    ensures OwnSessions(JoinStep(s, l))
  {
    var r := JoinStep(s, l);
    match l
    case JoinCheck(addr, token) => OwnSessionsAfterCheck(s, addr, token);
    case JoinConsume(t, now) => OwnSessionsAfterConsume(s, r, t, now);
    case JoinRegister(t, now) => JoinRegisterShape(s, t, now); OwnSessionsAfterRegister(s, r, t);
    case JoinInsert(t) => JoinInsertShape(s, t); OwnSessionsAfterInsert(s, r, t);
    case JoinReply(t, sent, ms) => OwnSessionsAfterReply(s, t, sent, ms);
    case DropSession(t) => OwnSessionsAfterDrop(s, t);
    case DropPlayer(t, now) => DropPlayerShape(s, t, now); OwnSessionsAfterLeave(s, r, t);
  }

  /**
   As long as at most one join per address has been under way, every member of every room is
   held by a join, a session or a removal, and a failing join finds its own session to drop.
   */
  lemma {:induction false} MembershipImpliesHolder(ss: seq<Server>, ls: seq<Label>, i: nat)
    requires Run(ss, ls) && i < |ss|
    requires forall k :: 0 <= k < i ==> OneJoinPerAddr(ss[k])
    ensures OwnSessions(ss[i]) && AllHeld(ss[i])
  {
    if i == 0 {
    } else {
      MembershipImpliesHolder(ss, ls, i - 1);
      SessionInvAlways(ss, ls, i - 1);
      RunStepHolds(ss, ls, i - 1);
    }
  }

  lemma RunStepHolds(ss: seq<Server>, ls: seq<Label>, i: nat)
    requires Run(ss, ls) && i < |ls|
    requires SessionInv(ss[i]) && OwnSessions(ss[i]) && OneJoinPerAddr(ss[i]) && AllHeld(ss[i])
    ensures OwnSessions(ss[i + 1]) && AllHeld(ss[i + 1])
  {
    assert RunStep(ss, ls, i);
    AllHeldKept(ss[i], ls[i]);
  }

  ghost predicate AllHeld(s: Server) {
    forall mid, pid :: InRoom(s.w, mid, pid) ==> Held(s, pid)
  }

  lemma AllHeldKept(s: Server, l: Label)
    requires SessionInv(s) && OwnSessions(s) && OneJoinPerAddr(s) && AllHeld(s) && Enabled(s, l)
    ensures OwnSessions(Step(s, l)) && AllHeld(Step(s, l))
  {
    var r := Step(s, l);
    OwnSessionsKept(s, l);
    forall mid, pid | InRoom(r.w, mid, pid) ensures Held(r, pid) {
      StrandedExactlyByOverwrite(s, l, mid, pid);
    }
  }

  /**
   The rollback of a failed join removes the session stored at its address, whoever's it is. It
   takes the join's own player exactly if the stored session is still the one the join inserted.
   */
  lemma RollbackTakesOwnPlayerIff(s: Server, t: nat)
    requires SessionInv(s) && t in s.tasks && s.tasks[t].JoinFailed? && t in s.channels
    ensures var r := DoDropSession(s, t);
      var addr := s.tasks[t].addr;
      && (t in r.tasks && r.tasks[t].Leaving? <==> addr in s.sessions)
      && (addr in s.sessions ==>
            && r.tasks[t].session == s.sessions[addr] && r.sessions == s.sessions - {addr}
            && (r.tasks[t].session.playerId == s.channels[t].pid <==> s.sessions[addr].tx == t))
  {
  }

  /** With one join per address that is always so. */
  lemma RollbackRemovesOwnPlayer(s: Server, t: nat)
    requires SessionInv(s) && OwnSessions(s) && t in s.tasks && s.tasks[t].JoinFailed?
    ensures var r := DoDropSession(s, t);
      && t in r.tasks && r.tasks[t].Leaving?
      && r.tasks[t].session.tx == t && r.tasks[t].session.playerId == s.channels[t].pid
      && r.sessions == s.sessions - {s.tasks[t].addr}
  {
  }

  // ----- stranded players over a run -----

  ghost predicate OverwrittenAt(ss: seq<Server>, ls: seq<Label>, k: nat, mid: Id, pid: Id)
    requires Run(ss, ls) && k < |ls|
  {
    RunStep(ss, ls, k) && Overwrites(ss[k], ls[k], mid, pid)
  }

  ghost predicate EverOverwritten(ss: seq<Server>, ls: seq<Label>, n: nat, mid: Id, pid: Id)
    requires Run(ss, ls) && n < |ss|
  {
    exists k: nat :: k < n && OverwrittenAt(ss, ls, k, mid, pid)
  }

  /** In any run a player is stranded exactly if an insert overwrote its session and its room is still there. */
  lemma {:induction false} StrandedIffOverwritten(ss: seq<Server>, ls: seq<Label>, n: nat, mid: Id, pid: Id)
    requires Run(ss, ls) && n < |ss|
    ensures Stranded(ss[n], mid, pid) <==> HasRoom(ss[n].w, mid) && EverOverwritten(ss, ls, n, mid, pid)
  {
    if n == 0 {
    } else {
      StrandedIffOverwritten(ss, ls, n - 1, mid, pid);
      StrandedIffNext(ss, ls, n - 1, mid, pid);
    }
  }

  lemma StrandedIffNext(ss: seq<Server>, ls: seq<Label>, n: nat, mid: Id, pid: Id)
    requires Run(ss, ls) && n < |ls|
    requires Stranded(ss[n], mid, pid) <==> HasRoom(ss[n].w, mid) && EverOverwritten(ss, ls, n, mid, pid)
    ensures Stranded(ss[n + 1], mid, pid) <==>
            HasRoom(ss[n + 1].w, mid) && EverOverwritten(ss, ls, n + 1, mid, pid)
  {
    SessionInvAlways(ss, ls, n);
    StrandedNext(ss, ls, n, mid, pid);
    OverwrittenNext(ss, ls, n, mid, pid);
    if k: nat :| k < n && OverwrittenAt(ss, ls, k, mid, pid) {
      OverwrittenRoomIsKnown(ss, ls, k, n, mid, pid);
    }
  }

  lemma OverwrittenNext(ss: seq<Server>, ls: seq<Label>, n: nat, mid: Id, pid: Id)
    requires Run(ss, ls) && n < |ls|
    ensures EverOverwritten(ss, ls, n + 1, mid, pid) <==>
            EverOverwritten(ss, ls, n, mid, pid) || OverwrittenAt(ss, ls, n, mid, pid)
  {
    if EverOverwritten(ss, ls, n, mid, pid) {
      var k: nat :| k < n && OverwrittenAt(ss, ls, k, mid, pid);
      assert k < n + 1;
    }
  }

  lemma StrandedNext(ss: seq<Server>, ls: seq<Label>, n: nat, mid: Id, pid: Id)
    requires Run(ss, ls) && n < |ls| && SessionInv(ss[n])
    ensures Stranded(ss[n + 1], mid, pid) <==>
            (Stranded(ss[n], mid, pid) && HasRoom(ss[n + 1].w, mid)) || OverwrittenAt(ss, ls, n, mid, pid)
    ensures OverwrittenAt(ss, ls, n, mid, pid) ==> HasRoom(ss[n + 1].w, mid)
    ensures ss[n].w.mids <= ss[n + 1].w.mids
    ensures mid in ss[n].w.mids && HasRoom(ss[n + 1].w, mid) ==> HasRoom(ss[n].w, mid)
  {
    assert RunStep(ss, ls, n);
    StrandedExactlyByOverwrite(ss[n], ls[n], mid, pid);
    StepReusesNoRoom(ss[n], ls[n]);
  }

  lemma StepReusesNoRoom(s: Server, l: Label)
    requires Enabled(s, l)
    ensures s.w.mids <= Step(s, l).w.mids
    ensures forall mid :: mid in s.w.mids && HasRoom(Step(s, l).w, mid) ==> HasRoom(s.w, mid)
  {
    StepRefinesLobby(s, l);
    if SectionOf(s, l).Some? {
      RoomsNotReused(s.w, SectionOf(s, l).value);
    }
  }

  lemma {:induction false} OverwrittenRoomIsKnown(
    ss: seq<Server>, ls: seq<Label>, k: nat, n: nat, mid: Id, pid: Id)
    requires Run(ss, ls) && k < n < |ss| && OverwrittenAt(ss, ls, k, mid, pid)
    ensures mid in ss[n].w.mids
    decreases n
  {
    if k < n - 1 {
      OverwrittenRoomIsKnown(ss, ls, k, n - 1, mid, pid);
    }
    KnownNext(ss, ls, n - 1, mid, pid);
  }

  lemma KnownNext(ss: seq<Server>, ls: seq<Label>, n: nat, mid: Id, pid: Id)
    requires Run(ss, ls) && n < |ls|
    ensures mid in ss[n].w.mids || OverwrittenAt(ss, ls, n, mid, pid) ==> mid in ss[n + 1].w.mids
  {
    SessionInvAlways(ss, ls, n);
    StrandedNext(ss, ls, n, mid, pid);
    RoomsAreKnown(ss, ls, n + 1);
  }

  lemma RoomsAreKnown(ss: seq<Server>, ls: seq<Label>, n: nat)
    requires Run(ss, ls) && n < |ss|
    ensures ss[n].w.core.matches.Keys <= ss[n].w.mids
  {
    SessionInvAlways(ss, ls, n);
  }
}
