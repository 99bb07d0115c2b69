/** A join from its first packet to its session, when nothing refuses it. */
module Journey {
  import opened Types
  import opened Lobby
  import opened World
  import opened Identity
  import opened Server
  import opened Sessions
  import opened Membership

  lemma RunExtends(ss: seq<Server>, ls: seq<Label>, l: Label) returns (tt: seq<Server>, ks: seq<Label>)
    requires Run(ss, ls) && Enabled(ss[|ls|], l)
    ensures tt == ss + [Step(ss[|ls|], l)] && ks == ls + [l]
    ensures Run(tt, ks)
  {
    tt, ks := ss + [Step(ss[|ls|], l)], ls + [l];
    forall i: nat | i < |ks| ensures RunStep(tt, ks, i) {
      if i < |ls| { assert RunStep(ss, ls, i); }
    }
  }

  /** The address is free, the ticket good at the reading, and the match there with a seat left. */
  predicate CanJoin(s: Server, a: SocketAddr, token: Token, now: Unix) {
    && a !in s.sessions && token in s.w.core.tickets
    && var ticket := s.w.core.tickets[token];
       && now <= ticket.expiresAt && HasRoom(s.w, ticket.matchId)
       && |s.w.core.matches[ticket.matchId].players| < ROOM_MAX_PLAYERS
  }

  /** Consuming a good ticket only takes the ticket and moves the task on. */
  ghost predicate Consumed(s: Server, r: Server, t: nat)
    requires t in s.tasks && s.tasks[t].JoinChecked? && s.tasks[t].token in s.w.core.tickets
  {
    var ticket := s.w.core.tickets[s.tasks[t].token];
    && r.tasks == s.tasks[t := JoinConsumed(s.tasks[t].addr, ticket.matchId, ticket.playerId, ticket.displayName)]
    && r.sessions == s.sessions && r.next == s.next
    && r.w.core == s.w.core.(tickets := s.w.core.tickets - {s.tasks[t].token})
  }

  /** Registering adds the player to the room, and changes no other player and no other room. */
  ghost predicate Registered(s: Server, r: Server, t: nat, now: Unix)
    requires t in s.tasks && s.tasks[t].JoinConsumed? && HasRoom(s.w, s.tasks[t].mid)
  {
    var was := s.tasks[t];
    var room := s.w.core.matches[was.mid];
    && r.tasks == s.tasks[t := JoinRegistered(was.addr, was.mid, was.pid, DEFAULT_PARAMS)]
    && r.sessions == s.sessions && r.next == s.next
    && was.pid !in room.players
    && r.w.core == s.w.core.(matches := s.w.core.matches[was.mid := room.(
         players := room.players[was.pid := NewPlayer(was.name, was.addr, t)], lastActivity := now)])
  }

  lemma Registers(s: Server, t: nat, now: Unix)
    requires SessionInv(s) && t in s.tasks && s.tasks[t].JoinConsumed? && HasRoom(s.w, s.tasks[t].mid)
    requires |s.w.core.matches[s.tasks[t].mid].players| < ROOM_MAX_PLAYERS
    ensures Enabled(s, JoinRegister(t, now)) && Registered(s, Step(s, JoinRegister(t, now)), t, now)
  {
    ClaimIsPermitted(s, t, now);
    RegistrationIsNeverARejoin(s.w, RegisterOp(s.tasks[t], t, now));
  }

  /** Storing the session changes neither the lobby nor another address. */
  ghost predicate Inserted(s: Server, r: Server, t: nat)
    requires t in s.tasks && s.tasks[t].JoinRegistered?
  {
    var was := s.tasks[t];
    && r.tasks == s.tasks[t := JoinInserted(was.addr, was.mid, was.pid, was.params)]
    && r.sessions == s.sessions[was.addr := Session(was.mid, was.pid, was.addr, t)]
    && r.next == s.next && r.w == s.w
  }

  /** What the four steps of a join have made of the server. */
  ghost predicate Joined(s: Server, r: Server, a: SocketAddr, token: Token, now: Unix)
    requires CanJoin(s, a, token, now)
  {
    var ticket := s.w.core.tickets[token];
    var mid, pid := ticket.matchId, ticket.playerId;
    var room := s.w.core.matches[mid];
    && r.tasks == s.tasks[s.next := JoinInserted(a, mid, pid, DEFAULT_PARAMS)]
    && r.sessions == s.sessions[a := Session(mid, pid, a, s.next)]
    && r.next == s.next + 1
    && pid !in room.players
    && r.w.core == Core(
         s.w.core.matches[mid := room.(
           players := room.players[pid := NewPlayer(ticket.displayName, a, s.next)], lastActivity := now)],
         s.w.core.tickets - {token})
  }

  predicate NoneInWindow(s: Server) {
    forall t :: t in s.tasks ==> !InWindow(s.tasks[t])
  }

  /** At most one join per address was under way at any time. */
  ghost predicate NoOverlap(ss: seq<Server>) {
    forall k :: 0 <= k < |ss| ==> OneJoinPerAddr(ss[k])
  }

  lemma CheckRun(ss: seq<Server>, ls: seq<Label>, a: SocketAddr, token: Token)
    returns (tt: seq<Server>, ks: seq<Label>)
    requires Run(ss, ls) && a !in ss[|ls|].sessions
    ensures Run(tt, ks) && tt == ss + [Spawn(ss[|ls|], JoinChecked(a, token))]
  {
    tt, ks := RunExtends(ss, ls, JoinCheck(a, token));
  }

  lemma ConsumeRun(ss: seq<Server>, ls: seq<Label>, t: nat, now: Unix)
    returns (tt: seq<Server>, ks: seq<Label>)
    requires Run(ss, ls)
    requires var s := ss[|ls|];
      && t in s.tasks && s.tasks[t].JoinChecked? && s.tasks[t].token in s.w.core.tickets
      && now <= s.w.core.tickets[s.tasks[t].token].expiresAt
    ensures Run(tt, ks) && |tt| == |ss| + 1 && ss <= tt && Consumed(ss[|ls|], tt[|ks|], t)
  {
    tt, ks := RunExtends(ss, ls, JoinConsume(t, now));
  }

  lemma RegisterRun(ss: seq<Server>, ls: seq<Label>, t: nat, now: Unix)
    returns (tt: seq<Server>, ks: seq<Label>)
    requires Run(ss, ls)
    requires var s := ss[|ls|];
      && t in s.tasks && s.tasks[t].JoinConsumed? && HasRoom(s.w, s.tasks[t].mid)
      && |s.w.core.matches[s.tasks[t].mid].players| < ROOM_MAX_PLAYERS
    ensures Run(tt, ks) && |tt| == |ss| + 1 && ss <= tt && Registered(ss[|ls|], tt[|ks|], t, now)
  {
    SessionInvAlways(ss, ls, |ls|);
    Registers(ss[|ls|], t, now);
    tt, ks := RunExtends(ss, ls, JoinRegister(t, now));
  }

  lemma InsertRun(ss: seq<Server>, ls: seq<Label>, t: nat)
    returns (tt: seq<Server>, ks: seq<Label>)
    requires Run(ss, ls) && t in ss[|ls|].tasks && ss[|ls|].tasks[t].JoinRegistered?
    ensures Run(tt, ks) && tt == ss + [Step(ss[|ls|], JoinInsert(t))] && Inserted(ss[|ls|], tt[|ks|], t)
  {
    tt, ks := RunExtends(ss, ls, JoinInsert(t));
  }

  /**
   Progress: in any reachable state, a join from a free address with a good ticket for a match
   with a free seat gets the seat and the session if its four steps come next.
   */
  lemma JoinGoesThrough(ss: seq<Server>, ls: seq<Label>, a: SocketAddr, token: Token, now: Unix)
    returns (tt: seq<Server>, ks: seq<Label>)
    requires Run(ss, ls) && CanJoin(ss[|ls|], a, token, now)
    ensures Run(tt, ks) && |tt| == |ss| + 4 && ss <= tt
    ensures Joined(ss[|ls|], tt[|ks|], a, token, now)
    ensures NoOverlap(ss) && NoneInWindow(ss[|ls|]) ==> NoOverlap(tt)
  {
    var s := ss[|ls|];
    var t := s.next;
    NextIsNew(ss, ls);
    tt, ks := CheckRun(ss, ls, a, token);
    var s1 := tt[|ks|];
    tt, ks := ConsumeRun(tt, ks, t, now);
    var s2 := tt[|ks|];
    tt, ks := RegisterRun(tt, ks, t, now);
    var s3 := tt[|ks|];
    tt, ks := InsertRun(tt, ks, t);
    FourSteps(s, s1, s2, s3, tt[|ks|], a, token, now);
    assert tt == ss + [s1, s2, s3, tt[|ks|]];
  }

  lemma NextIsNew(ss: seq<Server>, ls: seq<Label>)
    requires Run(ss, ls)
    ensures ss[|ls|].next !in ss[|ls|].tasks
  {
    SessionInvAlways(ss, ls, |ls|);
  }

  lemma FourSteps(
    s: Server, s1: Server, s2: Server, s3: Server, s4: Server, a: SocketAddr, token: Token, now: Unix)
    requires CanJoin(s, a, token, now) && s.next !in s.tasks
    requires s1 == Spawn(s, JoinChecked(a, token))
    requires Consumed(s1, s2, s.next) && Registered(s2, s3, s.next, now) && Inserted(s3, s4, s.next)
    ensures Joined(s, s4, a, token, now)
    ensures NoneInWindow(s) ==> OneJoinPerAddr(s1) && OneJoinPerAddr(s2) && OneJoinPerAddr(s3) && OneJoinPerAddr(s4)
  {
  }

  lemma ReplyRun(ss: seq<Server>, ls: seq<Label>, t: nat, sent: bool, ms: nat)
    returns (tt: seq<Server>, ks: seq<Label>)
    requires Run(ss, ls) && t in ss[|ls|].tasks && ss[|ls|].tasks[t].JoinInserted?
    ensures Run(tt, ks) && tt == ss + [DoJoinReply(ss[|ls|], t, sent, ms)] && ls <= ks
  {
    tt, ks := RunExtends(ss, ls, JoinReply(t, sent, ms));
  }

  lemma DropRun(ss: seq<Server>, ls: seq<Label>, t: nat)
    returns (tt: seq<Server>, ks: seq<Label>)
    requires Run(ss, ls) && t in ss[|ls|].tasks && ss[|ls|].tasks[t].JoinFailed?
    ensures Run(tt, ks) && tt == ss + [DoDropSession(ss[|ls|], t)] && ls <= ks
  {
    tt, ks := RunExtends(ss, ls, DropSession(t));
  }

  lemma LeaveRun(ss: seq<Server>, ls: seq<Label>, t: nat, now: Unix)
    returns (tt: seq<Server>, ks: seq<Label>)
    requires Run(ss, ls) && t in ss[|ls|].tasks && ss[|ls|].tasks[t].Leaving?
    ensures Run(tt, ks) && tt == ss + [DoDropPlayer(ss[|ls|], t, now)] && ls <= ks
  {
    tt, ks := RunExtends(ss, ls, DropPlayer(t, now));
  }

  /** The reply to a join is lost and the session at its address is taken back. */
  ghost predicate TakenBack(s: Server, r: Server, t: nat)
    requires t in s.tasks && s.tasks[t].JoinInserted? && s.tasks[t].addr in s.sessions
  {
    var a := s.tasks[t].addr;
    && r.tasks == s.tasks[t := Leaving(s.sessions[a])] && r.sessions == s.sessions - {a}
    && r.next == s.next && r.w == s.w && r.direct == s.direct
  }

  lemma LostReply(ss: seq<Server>, ls: seq<Label>, t: nat)
    returns (tt: seq<Server>, ks: seq<Label>)
    requires Run(ss, ls) && t in ss[|ls|].tasks && ss[|ls|].tasks[t].JoinInserted?
    requires ss[|ls|].tasks[t].addr in ss[|ls|].sessions
    ensures Run(tt, ks) && |tt| == |ss| + 2 && ss <= tt && ls <= ks && TakenBack(ss[|ls|], tt[|ks|], t)
    ensures NoOverlap(ss) && NoneInWindow(ss[|ls|]) ==> NoOverlap(tt)
  {
    tt, ks := ReplyRun(ss, ls, t, false, 0);
    tt, ks := DropRun(tt, ks, t);
  }
}
