/** Where a client's datagrams go, and when its own positions come back to it. */
module Echo {
  import opened Wrappers
  import opened Types
  import opened Lobby
  import opened World
  import opened Identity
  import opened Server
  import opened Sessions
  import opened Membership
  import opened Delivery

  // ----- who is at an address of a match -----

  /** The session of the address is of the match, for another player than the excepted one. */
  ghost predicate SessionAt(s: Server, mid: Id, except: Option<Id>, a: SocketAddr) {
    a in s.sessions && s.sessions[a].matchId == mid && Some(s.sessions[a].playerId) != except
  }

  /** A join from the address has a seat in the match, but no session yet. */
  ghost predicate JoinAt(s: Server, t: nat, mid: Id, except: Option<Id>, a: SocketAddr) {
    && t in s.tasks && s.tasks[t].JoinRegistered? && s.tasks[t].mid == mid && s.tasks[t].addr == a
    && Some(s.tasks[t].pid) != except
  }

  /** A removal has dropped a session of the address, but not yet the seat in the match. */
  ghost predicate RemovalAt(s: Server, t: nat, mid: Id, except: Option<Id>, a: SocketAddr) {
    && t in s.tasks && s.tasks[t].Leaving?
    && s.tasks[t].session.matchId == mid && s.tasks[t].session.addr == a
    && Some(s.tasks[t].session.playerId) != except
  }

  /** A player of the match was left behind at the address. */
  ghost predicate StrandedAt(s: Server, pid: Id, mid: Id, except: Option<Id>, a: SocketAddr) {
    Stranded(s, mid, pid) && ConnectedAt(s.w, mid, pid, a) && Some(pid) != except
  }

  ghost predicate ConnectedAt(w: World, mid: Id, pid: Id, a: SocketAddr) {
    InRoom(w, mid, pid) && PlayerAt(w, mid, pid).connection == Some(a)
  }

  ghost predicate Occupied(s: Server, mid: Id, except: Option<Id>, a: SocketAddr) {
    || SessionAt(s, mid, except, a)
    || (exists t :: JoinAt(s, t, mid, except, a))
    || (exists t :: RemovalAt(s, t, mid, except, a))
    || (exists pid :: StrandedAt(s, pid, mid, except, a))
  }

  /** A datagram for a match reaches exactly the addresses that are occupied in it. */
  lemma ReachedIffOccupied(s: Server, mid: Id, except: Option<Id>, a: SocketAddr)
    requires SessionInv(s) && HasRoom(s.w, mid)
    ensures a in DatagramTargets(s.w.core.matches[mid], except) <==> Occupied(s, mid, except, a)
  {
    if a in DatagramTargets(s.w.core.matches[mid], except) {
      var pid := MemberReached(s.w, mid, except, a);
      MemberOccupies(s, mid, except, a, pid);
    }
    if SessionAt(s, mid, except, a) {
      SessionImpliesMembership(s, a);
      MemberIsReached(s.w, mid, except, s.sessions[a].playerId, a);
    }
    if t :| JoinAt(s, t, mid, except, a) {
      LiveChannelIsMember(s, t);
      MemberIsReached(s.w, mid, except, s.tasks[t].pid, a);
    }
    if t :| RemovalAt(s, t, mid, except, a) {
      assert Names(s.channels[s.tasks[t].session.tx], s.tasks[t].session);
      LiveChannelIsMember(s, s.tasks[t].session.tx);
      MemberIsReached(s.w, mid, except, s.tasks[t].session.playerId, a);
    }
    if pid :| StrandedAt(s, pid, mid, except, a) {
      MemberIsReached(s.w, mid, except, pid, a);
    }
  }

  lemma MemberReached(w: World, mid: Id, except: Option<Id>, a: SocketAddr) returns (pid: Id)
    requires HasRoom(w, mid) && a in DatagramTargets(w.core.matches[mid], except)
    ensures Some(pid) != except && ConnectedAt(w, mid, pid, a)
  {
    var players := w.core.matches[mid].players;
    pid :| pid in Receivers(players, except) && players[pid].connection.value == a;
  }

  lemma MemberIsReached(w: World, mid: Id, except: Option<Id>, pid: Id, a: SocketAddr)
    requires HasRoom(w, mid) && Some(pid) != except && ConnectedAt(w, mid, pid, a)
    ensures a in DatagramTargets(w.core.matches[mid], except)
  {
    assert pid in Receivers(w.core.matches[mid].players, except);
  }

  lemma MemberOccupies(s: Server, mid: Id, except: Option<Id>, a: SocketAddr, pid: Id)
    requires SessionInv(s) && Some(pid) != except && ConnectedAt(s.w, mid, pid, a)
    ensures Occupied(s, mid, except, a)
  {
    var c := SeatChannel(s, mid, pid);
    match s.channels[c].rx
    case ByJoin => assert JoinAt(s, c, mid, except, a);
    case ByRegistry => SessionOfChannel(s, c); assert SessionAt(s, mid, except, a);
    case ByRemoval(t) =>
      assert Names(s.channels[c], s.tasks[t].session);
      assert RemovalAt(s, t, mid, except, a);
    case Dropped =>
      HeldIffReceiverAlive(s, mid, pid);
      assert StrandedAt(s, pid, mid, except, a);
  }

  lemma LiveChannelIsMember(s: Server, c: ChannelId)
    requires SessionInv(s) && c in s.channels && s.channels[c].rx != Dropped && HasRoom(s.w, s.channels[c].mid)
    ensures ConnectedAt(s.w, s.channels[c].mid, s.channels[c].pid, s.channels[c].addr)
  {
    var ch := s.channels[c];
    SeatsAreLives(s.w, ch.mid, ch.pid);
    assert SeatOf(s.w, ch.mid, ch.pid) == Some(s.w.life[ch.pid]);
  }

  /** Positions sent from the address now, and sent on at once, would come back to it. */
  ghost predicate Echoes(s: Server, a: SocketAddr) {
    && a in s.sessions && HasRoom(s.w, s.sessions[a].matchId)
    && Occupied(s, s.sessions[a].matchId, Some(s.sessions[a].playerId), a)
  }

  // ----- a position on its way back -----

  /** The datagram just sent went to the address it had come from. */
  ghost predicate CameBack(r: Server) {
    r.relayed != [] && r.relayed[|r.relayed| - 1].session.addr in r.relayed[|r.relayed| - 1].to
  }

  /**
   A position comes back to the address it was sent from exactly if, when it is sent on, that
   address is occupied in the match by another player than the one found at the lookup: by the
   session stored there now, a join, a removal or a stranded player.
   */
  lemma EchoMeansGhostMember(s: Server, t: nat)
    requires SessionInv(s) && Enabled(s, RelayRun(t)) && HasRoom(s.w, s.tasks[t].session.matchId)
    ensures var r := Step(s, RelayRun(t));
      var session := s.tasks[t].session;
      && |r.relayed| == |s.relayed| + 1
      && (CameBack(r) <==>
            Occupied(s, session.matchId, if s.tasks[t].suppress then Some(session.playerId) else None, session.addr))
  {
    var session := s.tasks[t].session;
    ReachedIffOccupied(s, session.matchId, Excepted(s.tasks[t]), session.addr);
    assert Step(s, RelayRun(t)) == DoRelayRun(s, t);
  }

  /** While joins from one address never overlap nobody is stranded, so three causes are left. */
  lemma EchoWithoutOverlap(s: Server, mid: Id, except: Option<Id>, a: SocketAddr)
    requires SessionInv(s) && AllHeld(s)
    ensures Occupied(s, mid, except, a) <==>
      || SessionAt(s, mid, except, a)
      || (exists t :: JoinAt(s, t, mid, except, a))
      || (exists t :: RemovalAt(s, t, mid, except, a))
  {
  }

  /** And if the session found at the lookup is still the one stored, only a pending removal is left. */
  lemma EchoMeansPendingRemoval(s: Server, a: SocketAddr)
    requires SessionInv(s) && OwnSessions(s) && AllHeld(s) && a in s.sessions
    ensures var (mid, self) := (s.sessions[a].matchId, s.sessions[a].playerId);
      Occupied(s, mid, Some(self), a) <==> exists t :: RemovalAt(s, t, mid, Some(self), a)
  {
  }

  // ----- datagrams stay in their match -----

  /** A player was seated in the match at the address; for a position, another player than the sender. */
  ghost predicate ReachedSeat(s: Server, relay: Relay, a: SocketAddr) {
    exists c :: SeatedThere(s, relay, a, c)
  }

  predicate SeatedThere(s: Server, relay: Relay, a: SocketAddr, c: ChannelId) {
    && c in s.channels && s.channels[c].mid == relay.session.matchId && s.channels[c].addr == a
    && (relay.suppress ==> s.channels[c].pid != relay.session.playerId)
  }

  ghost predicate RelayedInMatch(s: Server) {
    forall i, a :: 0 <= i < |s.relayed| && a in s.relayed[i].to ==> ReachedSeat(s, s.relayed[i], a)
  }

  /** Channels keep the seats they name. */
  ghost predicate SeatsKept(s: Server, r: Server) {
    forall c :: c in s.channels ==>
      && c in r.channels && r.channels[c].mid == s.channels[c].mid
      && r.channels[c].pid == s.channels[c].pid && r.channels[c].addr == s.channels[c].addr
  }

  lemma StepKeepsSeats(s: Server, l: Label)
    requires SessionInv(s) && Enabled(s, l)
    ensures SeatsKept(s, Step(s, l))
  {
    if IsJoinStep(l) {
      JoinStepsAreQuiet(s, l);
    } else {
      SameJoinsAfter(s, l);
    }
  }

  lemma JoinsRelayNothing(s: Server, l: Label)
    requires Enabled(s, l) && IsJoinStep(l)
    ensures JoinStep(s, l).relayed == s.relayed
  {
  }

  lemma OthersRelayNothing(s: Server, l: Label)
    requires Enabled(s, l) && !IsJoinStep(l) && !l.RelayRun?
    ensures OtherStep(s, l).relayed == s.relayed
  {
  }

  lemma RelayedSeatsKept(s: Server, r: Server)
    requires RelayedInMatch(s) && SeatsKept(s, r) && r.relayed == s.relayed
    ensures RelayedInMatch(r)
  {
    forall i, a | 0 <= i < |r.relayed| && a in r.relayed[i].to ensures ReachedSeat(r, r.relayed[i], a) {
      assert ReachedSeat(s, s.relayed[i], a);
      var c :| SeatedThere(s, s.relayed[i], a, c);
      assert SeatedThere(r, r.relayed[i], a, c);
    }
  }

  lemma RelayStaysInMatch(s: Server, t: nat)
    requires SessionInv(s) && RelayedInMatch(s) && Enabled(s, RelayRun(t))
    ensures RelayedInMatch(DoRelayRun(s, t))
  {
    var r := DoRelayRun(s, t);
    var (mid, except) := (s.tasks[t].session.matchId, Excepted(s.tasks[t]));
    RelayedSeatsKept(s, r.(relayed := s.relayed));
    if HasRoom(s.w, mid) {
      var relay := r.relayed[|s.relayed|];
      forall a | a in relay.to ensures ReachedSeat(r, relay, a) {
        var pid := MemberReached(s.w, mid, except, a);
        var c := SeatChannel(s, mid, pid);
        assert SeatedThere(r, relay, a, c);
      }
      forall i, a | 0 <= i < |s.relayed| && a in s.relayed[i].to ensures ReachedSeat(r, s.relayed[i], a) {
        var c :| SeatedThere(s, s.relayed[i], a, c);
        assert SeatedThere(r, s.relayed[i], a, c);
      }
    }
  }

  lemma StepRelaysInMatch(s: Server, l: Label)
    requires SessionInv(s) && RelayedInMatch(s) && Enabled(s, l)
    ensures RelayedInMatch(Step(s, l))
  {
    if l.RelayRun? {
      RelayStaysInMatch(s, l.task);
    } else {
      StepKeepsSeats(s, l);
      if IsJoinStep(l) { JoinsRelayNothing(s, l); } else { OthersRelayNothing(s, l); }
      RelayedSeatsKept(s, Step(s, l));
    }
  }

  /** In every run a player's datagrams go only to addresses seated in its match, its positions to other players. */
  lemma {:induction false} DatagramsStayInMatch(ss: seq<Server>, ls: seq<Label>, n: nat)
    requires Run(ss, ls) && n < |ss|
    ensures RelayedInMatch(ss[n])
  {
    if n > 0 {
      DatagramsStayInMatch(ss, ls, n - 1);
      SessionInvAlways(ss, ls, n - 1);
      RunStepRelays(ss, ls, n - 1);
    }
  }

  lemma RunStepRelays(ss: seq<Server>, ls: seq<Label>, i: nat)
    requires Run(ss, ls) && i < |ls| && SessionInv(ss[i]) && RelayedInMatch(ss[i])
    ensures RelayedInMatch(ss[i + 1])
  {
    assert RunStep(ss, ls, i);
    StepRelaysInMatch(ss[i], ls[i]);
  }
}
