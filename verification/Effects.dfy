/**
 What each step of the server does, case by case: the guards speak of the state before the step,
 and whatever is not named stays as it was.
 */
module Effects {
  import opened Wrappers
  import opened Types
  import opened Ordering
  import opened Lobby
  import opened Answers
  import opened World
  import opened Identity
  import opened Server
  import opened Sessions
  import opened Sweeping
  import opened Echo

  // ----- joins -----

  predicate TicketGood(c: Core, token: Token, now: Unix) {
    token in c.tickets && now <= c.tickets[token].expiresAt
  }

  /** A join from an address with a session is ignored; any other becomes a task. */
  lemma JoinCheckMeaning(s: Server, addr: SocketAddr, token: Token)
    ensures var r := Step(s, JoinCheck(addr, token));
      && (addr in s.sessions ==> r == s)
      && (addr !in s.sessions ==>
            r == s.(tasks := s.tasks[s.next := JoinChecked(addr, token)], next := s.next + 1))
  {
  }

  /** A good ticket moves into the task; a bad one ends it with exactly one packet saying why. */
  lemma JoinConsumeMeaning(s: Server, t: nat, now: Unix)
    requires Enabled(s, JoinConsume(t, now))
    ensures var r := Step(s, JoinConsume(t, now));
      var (addr, token, c) := (s.tasks[t].addr, s.tasks[t].token, s.w.core);
      && r.w.core == ConsumeTicket(c, token, now).0
      && (TicketGood(c, token, now) ==>
            var ticket := c.tickets[token];
            r == s.(w := r.w, tasks :=
              s.tasks[t := JoinConsumed(addr, ticket.matchId, ticket.playerId, ticket.displayName)]))
      && (!TicketGood(c, token, now) ==>
            r == s.(w := r.w, tasks := s.tasks - {t}, direct := s.direct + [Packet(addr,
              Error("auth_failed", if token in c.tickets then TokenExpired else InvalidToken))]))
  {
    ConsumeMeaning(s.w.core, s.tasks[t].token, now);
    assert Step(s, JoinConsume(t, now)) == DoJoinConsume(s, t, now);
  }

  predicate SeatFree(c: Core, mid: Id, pid: Id) {
    mid in c.matches && (pid in c.matches[mid].players || |c.matches[mid].players| < 4)
  }

  /** With a seat to be had the player is seated with a channel of its own; otherwise one packet says why not. */
  lemma JoinRegisterMeaning(s: Server, t: nat, now: Unix)
    requires SessionInv(s) && Enabled(s, JoinRegister(t, now))
    ensures var r := Step(s, JoinRegister(t, now));
      var (was, c) := (s.tasks[t], s.w.core);
      && (SeatFree(c, was.mid, was.pid) ==>
            && r == s.(w := r.w,
                 tasks := s.tasks[t := JoinRegistered(was.addr, was.mid, was.pid, PlayerParams(2, 2, 2))],
                 channels := s.channels[t := Channel(was.mid, was.pid, was.addr, ByJoin, [], [], [], {})])
            && OnlyRoom(c, r.w.core, was.mid)
            && r.w.core.matches[was.mid] == c.matches[was.mid].(lastActivity := now, players :=
                 c.matches[was.mid].players[was.pid :=
                   PlayerHandle(was.name, PlayerParams(2, 2, 2), 0, None, [], 0, t, Some(was.addr))]))
      && (!SeatFree(c, was.mid, was.pid) ==>
            && r.w.core == c
            && r == s.(w := r.w, tasks := s.tasks - {t}, direct := s.direct + [Packet(was.addr,
                 Error("join_failed", if was.mid in c.matches then MatchFull else MatchNotFound))]))
  {
    var was := s.tasks[t];
    RegisterMeaning(s.w.core, was.mid, was.pid, was.name, was.addr, t, now);
    RegistrationIsNeverARejoin(s.w, RegisterOp(was, t, now));
    assert Step(s, JoinRegister(t, now)) == DoJoinRegister(s, t, now);
  }

  /** The session is stored at its address; the one it replaces, if any, loses its receiver. */
  lemma JoinInsertMeaning(s: Server, t: nat)
    requires SessionInv(s) && Enabled(s, JoinInsert(t))
    ensures var r := Step(s, JoinInsert(t));
      var was := s.tasks[t];
      && r == s.(tasks := r.tasks, sessions := r.sessions, channels := r.channels)
      && r.tasks == s.tasks[t := JoinInserted(was.addr, was.mid, was.pid, was.params)]
      && r.sessions == s.sessions[was.addr := Session(was.mid, was.pid, was.addr, t)]
      && r.channels.Keys == s.channels.Keys
      && (forall c :: c in s.channels ==>
            r.channels[c] == s.channels[c].(rx :=
              if c == t then ByRegistry
              else if was.addr in s.sessions && s.sessions[was.addr].tx == c then Dropped
              else s.channels[c].rx))
  {
    JoinInsertShape(s, t);
  }

  /** Sent, the reply is the one packet, and the join is over; not sent, the join turns into its removal. */
  lemma JoinReplyMeaning(s: Server, t: nat, sent: bool, ms: nat)
    requires Enabled(s, JoinReply(t, sent, ms))
    ensures var r := Step(s, JoinReply(t, sent, ms));
      var was := s.tasks[t];
      r == if sent
           then s.(tasks := s.tasks - {t},
                   direct := s.direct + [Packet(was.addr, JoinOk(was.mid, was.pid, was.params, ms))])
           else s.(tasks := s.tasks[t := JoinFailed(was.addr)])
  {
  }

  /** The session stored at the address, if any, leaves the registry and is to be removed. */
  lemma DropSessionMeaning(s: Server, t: nat)
    requires SessionInv(s) && Enabled(s, DropSession(t))
    ensures var r := Step(s, DropSession(t));
      var addr := s.tasks[t].addr;
      && r == s.(tasks := r.tasks, sessions := s.sessions - {addr}, channels := r.channels)
      && (addr !in s.sessions ==> r.tasks == s.tasks - {t} && r.channels == s.channels)
      && (addr in s.sessions ==>
            && r.tasks == s.tasks[t := Leaving(s.sessions[addr])]
            && r.channels.Keys == s.channels.Keys
            && forall c :: c in s.channels ==> r.channels[c] == s.channels[c].(rx :=
                 if c == s.sessions[addr].tx then ByRemoval(t) else s.channels[c].rx))
  {
    DropSessionShape(s, t);
  }

  /** Without the room nothing happens in the lobby; with it, exactly that member leaves. */
  ghost predicate LeavesRoom(c: Core, d: Core, mid: Id, pid: Id, now: Unix) {
    && (mid !in c.matches ==> d == c)
    && (mid in c.matches ==>
          && OnlyRoom(c, d, mid) && pid in c.matches[mid].players
          && d.matches[mid] ==
             c.matches[mid].(players := c.matches[mid].players - {pid}, lastActivity := now))
  }

  lemma LeaverLeaves(s: Server, session: Session, now: Unix)
    requires SessionInv(s) && session.tx in s.channels && s.channels[session.tx].rx != Dropped
    requires Names(s.channels[session.tx], session)
    ensures var c := s.w.core;
      LeavesRoom(c, RemovePlayer(c, session.matchId, session.playerId, now), session.matchId, session.playerId, now)
  {
    if HasRoom(s.w, session.matchId) { LiveChannelIsMember(s, session.tx); }
  }

  /** The removed session's player is gone from its room, and its channel is closed. */
  lemma DropPlayerMeaning(s: Server, t: nat, now: Unix)
    requires SessionInv(s) && Enabled(s, DropPlayer(t, now))
    ensures var r := Step(s, DropPlayer(t, now));
      var session := s.tasks[t].session;
      && session.tx in s.channels
      && r == s.(w := r.w, tasks := s.tasks - {t},
                 channels := s.channels[session.tx := s.channels[session.tx].(rx := Dropped)])
      && LeavesRoom(s.w.core, r.w.core, session.matchId, session.playerId, now)
  {
    var session := s.tasks[t].session;
    assert Names(s.channels[session.tx], session);
    LeaverLeaves(s, session, now);
    assert Step(s, DropPlayer(t, now)) == DoDropPlayer(s, t, now);
  }

  // ----- looking up a session -----

  /** A message from an address without a session is ignored. */
  lemma LookupMeaning(
    s: Server, addr: SocketAddr, seqNo: nat, param: ParamKind, direction: ParamDirection, suppress: bool)
    ensures var (p, q) := (Step(s, ParamLookup(addr, seqNo, param, direction)), Step(s, RelayLookup(addr, suppress)));
      && (addr !in s.sessions ==> p == q == s)
      && (addr in s.sessions ==>
            && p == s.(tasks := s.tasks[s.next := ParamLooked(s.sessions[addr], seqNo, param, direction)],
                       next := s.next + 1)
            && q == s.(tasks := s.tasks[s.next := Relaying(s.sessions[addr], suppress)], next := s.next + 1))
  {
  }

  // ----- announcements -----

  /**
   A change of a member that is due and in range is logged, and is to be announced to the match
   with the new levels and stamp; any other is logged nowhere and becomes an error to the sender
   alone, which names the one reason for it.
   */
  lemma ParamUpdateMeaning(s: Server, t: nat, now: Unix, after: Unix, ms: nat)
    requires Enabled(s, ParamUpdate(t, now, after, ms))
    ensures var r := Step(s, ParamUpdate(t, now, after, ms));
      var (was, c) := (s.tasks[t], s.w.core);
      var (mid, pid, k) := (was.session.matchId, was.session.playerId, |s.w.log|);
      var accepted := ChangeAccepted(c, mid, pid, was.param, was.direction, now);
      && t in r.tasks && r == s.(w := r.w, tasks := s.tasks[t := r.tasks[t]])
      && (accepted <==> r.tasks[t].Announcing?)
      && (accepted <==> r.w.log == s.w.log + [Changed(mid, pid, was.param, was.direction, now, after)])
      && (!accepted <==> r.w.log == s.w.log)
      && (accepted ==>
            && InRoom(r.w, mid, pid)
            && r.tasks[t] == Announcing(mid, k,
                 ParamApplied(pid, was.seqNo, PlayerAt(r.w, mid, pid).params, now + 7, ms))
            && Moved(c.matches[mid].players[pid].params, PlayerAt(r.w, mid, pid).params, was.param, was.direction))
      && (forall e ::
            r.tasks[t] == Sending(mid, Complaint(pid), [was.session.tx], Error("param_update_failed", e))
            <==> ChangeRefused(c, mid, pid, was.param, was.direction, now, e))
  {
    var was := s.tasks[t];
    var (mid, pid) := (was.session.matchId, was.session.playerId);
    UpdateMeaning(s.w.core, mid, pid, was.param, was.direction, now, after);
    assert Step(s, ParamUpdate(t, now, after, ms)) == DoParamUpdate(s, t, now, after, ms);
  }

  /**
   The first start of a match with a room is logged and is to be announced to the match, with the
   stamp and the roster the room has from then on; any other start is announced to nobody.
   */
  lemma StartRoomMeaning(s: Server, mid: Id, now: Unix, picks: Picks, ms: nat)
    requires Enabled(s, StartRoom(mid, now, picks, ms))
    ensures var r := Step(s, StartRoom(mid, now, picks, ms));
      var first := HasRoom(s.w, mid) && s.w.core.matches[mid].startedAt == 0;
      && r == s.(w := r.w, tasks := r.tasks, next := r.next)
      && (HasRoom(r.w, mid) <==> HasRoom(s.w, mid))
      && (first ==>
            var room := r.w.core.matches[mid];
            && r.tasks == s.tasks[s.next := Announcing(mid, |s.w.log|,
                 MatchStarted(mid, room.startedAt, SnapshotPlayers(room), ms))]
            && r.next == s.next + 1 && room.startedAt == now
            && r.w.log == s.w.log + [Started(mid, StartReply(now, true, SnapshotPlayers(room)))])
      && (!first ==> r.tasks == s.tasks && r.next == s.next && r.w.core == s.w.core)
  {
    StartMeaning(s.w.core, mid, now, picks);
    assert Step(s, StartRoom(mid, now, picks, ms)) == DoStartRoom(s, mid, now, picks, ms);
  }

  /**
   The recipients are the channels of the members when the broadcast is fanned out, one for each
   in the map's order; without the room the broadcast ends.
   */
  lemma FanoutMeaning(s: Server, t: nat, order: seq<Id>)
    requires Enabled(s, Fanout(t, order))
    ensures var r := Step(s, Fanout(t, order));
      var (mid, cause, msg) := (s.tasks[t].mid, s.tasks[t].cause, s.tasks[t].msg);
      && (!HasRoom(s.w, mid) ==> r == s.(tasks := s.tasks - {t}))
      && (HasRoom(s.w, mid) ==>
            && t in r.tasks && r.tasks[t].Sending? && |r.tasks[t].targets| == |order|
            && r == s.(tasks := s.tasks[t := Sending(mid, Origin.Broadcast(cause), r.tasks[t].targets, msg)])
            && forall i :: 0 <= i < |order| ==>
                 InRoom(s.w, mid, order[i]) && r.tasks[t].targets[i] == PlayerAt(s.w, mid, order[i]).tx)
  {
    var mid := s.tasks[t].mid;
    assert Step(s, Fanout(t, order)) == DoFanout(s, t, order);
    if HasRoom(s.w, mid) {
      forall i | 0 <= i < |order| ensures InRoom(s.w, mid, order[i]) {
        assert order[i] in Elements(order);
      }
    }
  }

  /** One send: the next target, if its receiver is alive, has the message at the end of its queue. */
  lemma EnqueueMeaning(s: Server, t: nat)
    requires Enabled(s, Enqueue(t))
    ensures var r := Step(s, Enqueue(t));
      var was := s.tasks[t];
      && (was.targets == [] ==> r == s.(tasks := s.tasks - {t}))
      && (was.targets != [] ==>
            var c := was.targets[0];
            && r == s.(tasks := s.tasks[t := Sending(was.mid, was.origin, was.targets[1..], was.msg)],
                       channels := r.channels)
            && (c !in s.channels || s.channels[c].rx == Dropped ==> r.channels == s.channels)
            && (c in s.channels && s.channels[c].rx != Dropped ==>
                  var (ch, post) := (s.channels[c], Post(was.mid, was.origin, was.msg));
                  r.channels == s.channels[c :=
                    ch.(queue := ch.queue + [post], accepted := ch.accepted + [post])]))
  {
  }

  /** The oldest message has left for `to`; the rest waits as before. */
  predicate OneLeft(ch: Channel, after: Channel, to: SocketAddr) {
    && ch.queue != [] && [ch.queue[0]] + after.queue == ch.queue
    && after.emitted == ch.emitted + [ch.queue[0]] && after.destinations == ch.destinations + {to}
    && after.accepted == ch.accepted && after.rx == ch.rx
    && after.mid == ch.mid && after.pid == ch.pid && after.addr == ch.addr
  }

  lemma QueueMoves(s: Server, addr: SocketAddr)
    requires addr in s.sessions && s.sessions[addr].addr == addr && s.sessions[addr].tx in s.channels
    ensures var (r, c) := (DoDrain(s, addr), s.sessions[addr].tx);
      && r == s.(channels := r.channels) && c in r.channels && r.channels == s.channels[c := r.channels[c]]
      && if s.channels[c].queue == [] then r == s else OneLeft(s.channels[c], r.channels[c], addr)
  {
  }

  /** One turn of the outgoing loop takes the oldest message of the session's channel to its address. */
  lemma DrainMeaning(s: Server, addr: SocketAddr)
    requires SessionInv(s) && Enabled(s, Drain(addr))
    ensures var (r, c) := (Step(s, Drain(addr)), s.sessions[addr].tx);
      && c in s.channels && c in r.channels
      && r == s.(channels := r.channels) && r.channels == s.channels[c := r.channels[c]]
      && if s.channels[c].queue == [] then r == s else OneLeft(s.channels[c], r.channels[c], addr)
  {
    assert Names(s.channels[s.sessions[addr].tx], s.sessions[addr]);
    QueueMoves(s, addr);
    assert Step(s, Drain(addr)) == DoDrain(s, addr);
  }

  // ----- datagrams -----

  /**
   A position is sent to every address occupied in the match by another player than the one found
   at the lookup, a stage progress to every occupied address; without the room to none.
   */
  lemma RelayMeaning(s: Server, t: nat)
    requires SessionInv(s) && Enabled(s, RelayRun(t))
    ensures var r := Step(s, RelayRun(t));
      var (session, suppress) := (s.tasks[t].session, s.tasks[t].suppress);
      && r == s.(tasks := s.tasks - {t}, relayed := r.relayed)
      && (!HasRoom(s.w, session.matchId) ==> r.relayed == s.relayed)
      && (HasRoom(s.w, session.matchId) ==>
            && |r.relayed| == |s.relayed| + 1
            && var to := r.relayed[|s.relayed|].to;
               && r.relayed == s.relayed + [Relay(session, suppress, to)]
               && (forall a :: a in to <==>
                     Occupied(s, session.matchId, if suppress then Some(session.playerId) else None, a))
               && (forall a :: a in to <==>
                     exists pid :: ConnectedAt(s.w, session.matchId, pid, a)
                                   && !(suppress && pid == session.playerId)))
  {
    var session := s.tasks[t].session;
    assert Step(s, RelayRun(t)) == DoRelayRun(s, t);
    if HasRoom(s.w, session.matchId) {
      var except := if s.tasks[t].suppress then Some(session.playerId) else None;
      var to := DatagramTargets(s.w.core.matches[session.matchId], except);
      forall a ensures a in to <==> Occupied(s, session.matchId, except, a) {
        ReachedIffOccupied(s, session.matchId, except, a);
      }
      forall a ensures a in to <==>
        exists pid :: ConnectedAt(s.w, session.matchId, pid, a)
                      && !(s.tasks[t].suppress && pid == session.playerId)
      {
        if a in to {
          var pid := MemberReached(s.w, session.matchId, except, a);
        }
        if pid :| ConnectedAt(s.w, session.matchId, pid, a) && !(s.tasks[t].suppress && pid == session.playerId) {
          MemberIsReached(s.w, session.matchId, except, pid, a);
        }
      }
    }
  }

  // ----- the log -----

  /** Each lock section logs one event exactly when it takes effect, and otherwise none. */
  lemma LogMeaning(w: World, op: Op)
    requires Permitted(w, op)
    ensures var (c, more) := (w.core, Do(w, op).log[|w.log|..]);
      && w.log <= Do(w, op).log
      && match op
         case Create(mid, now) => more == [Created(mid, now)]
         case Issue(mid, _, pid, _, now) =>
           more == if mid in c.matches && |c.matches[mid].players| < 4 then [Issued(mid, pid, now)] else []
         case Consume(token, now, _) =>
           more == if token !in c.tickets then []
                  else if TicketGood(c, token, now) then [Consumed(c.tickets[token].playerId)]
                  else [Expired(c.tickets[token].playerId)]
         case Register(mid, pid, _, _, _, now) =>
           if SeatFree(c, mid, pid)
           then |more| == 1 && more[0].Admitted? && more == [Admitted(mid, pid, more[0].params, now)]
           else more == [Refused(mid, pid)]
         case Remove(mid, pid, now) => more == if mid in c.matches then [Left(mid, pid, now)] else []
         case Update(mid, pid, param, direction, now, after) =>
           more == if ChangeAccepted(c, mid, pid, param, direction, now)
                  then [Changed(mid, pid, param, direction, now, after)] else []
         case Start(mid, _, _) =>
           if mid in c.matches
           then |more| == 1 && more[0].Started? && more == [Started(mid, more[0].reply)]
                && (more[0].reply.justStarted <==> c.matches[mid].startedAt == 0)
           else more == []
         case Finish(mid, pid, now) =>
           if mid in c.matches && c.matches[mid].startedAt != 0 && pid in c.matches[mid].players
           then |more| == 1 && more[0].Finished?
                && more == [Finished(mid, pid, more[0].standing, pid !in c.matches[mid].finished, now)]
           else more == []
         case Delete(mid) => more == if mid in c.matches then [Deleted(mid)] else []
         case Sweep(reading) =>
           |more| == 1 && more[0].Swept? && more == [Swept(reading, more[0].gone)]
           && more[0].gone == c.matches.Keys - Do(w, op).core.matches.Keys
  {
    var c := w.core;
    match op
    case Issue(mid, name, pid, token, now) => IssueMeaning(c, mid, name, pid, token, now);
    case Consume(token, now, _) => ConsumeMeaning(c, token, now);
    case Register(mid, pid, name, addr, tx, now) => RegisterMeaning(c, mid, pid, name, addr, tx, now);
    case Update(mid, pid, param, direction, now, after) => UpdateMeaning(c, mid, pid, param, direction, now, after);
    case Start(mid, now, picks) => StartMeaning(c, mid, now, picks);
    case Finish(mid, pid, now) => FinishMeaning(c, mid, pid, now);
    case _ =>
  }

  // ----- calls that pass through one lock section, and sweeps -----

  lemma GrpcMeaning(s: Server, op: Op)
    requires Enabled(s, Grpc(op))
    ensures var r := Step(s, Grpc(op));
      && r == s.(w := r.w) && r.w.log == s.w.log + EventsOf(s.w, op)
      && match op
         case Create(mid, now) => r.w.core == CreateRoom(s.w.core, mid, now)
         case Issue(mid, name, pid, token, now) => r.w.core == IssueJoinTicket(s.w.core, mid, name, pid, token, now).0
         case Finish(mid, pid, now) => r.w.core == FinishPlayer(s.w.core, mid, pid, now).0
         case Delete(mid) => r.w.core == DeleteRoom(s.w.core, mid).0
         case _ => true
  {
  }

  /** The reading is kept until the lock is taken; the sweep then uses it, whatever the clock says by then. */
  lemma SweepStepsMeaning(s: Server, reading: Unix, t: nat)
    requires NamesFresh(s)
    ensures Step(s, SweepRead(reading)) == s.(tasks := s.tasks[s.next := SweepPending(reading)], next := s.next + 1)
    ensures Enabled(s, SweepRun(t)) ==>
      var r := Step(s, SweepRun(t));
      var was := s.tasks[t].reading;
      && r == s.(w := r.w, tasks := s.tasks - {t})
      && (forall mid :: HasRoom(r.w, mid) <==>
            HasRoom(s.w, mid) && (s.w.core.matches[mid].startedAt != 0
                                  || was < s.w.core.matches[mid].lastActivity + 180))
      && (forall mid :: HasRoom(r.w, mid) ==> r.w.core.matches[mid] == s.w.core.matches[mid])
  {
    if Enabled(s, SweepRun(t)) {
      SweepMeaning(s.w.core, s.tasks[t].reading, 180);
    }
  }
}
