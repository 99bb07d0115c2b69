/** Runs from an empty server that show what the exact conditions leave possible. */
module Scenarios {
  import opened Wrappers
  import opened Types
  import opened Lobby
  import opened World
  import opened Server
  import opened Sessions
  import opened Membership
  import opened Echo
  import opened Journey
  import opened Race

  // ----- positions that come back -----

  /** A position looked up and sent on with nothing in between. */
  lemma RelayAtOnce(ss: seq<Server>, ls: seq<Label>, a: SocketAddr)
    returns (tt: seq<Server>, ks: seq<Label>)
    requires Run(ss, ls) && Echoes(ss[|ls|], a)
    ensures Run(tt, ks) && |tt| == |ss| + 2 && ss <= tt && tt[|ss|].w == ss[|ls|].w
    ensures CameBack(tt[|ks|]) && Relayed(ss[|ls|], tt[|ks|])
    ensures NoOverlap(ss) ==> NoOverlap(tt)
  {
    SentOnAtOnce(ss, ls, a);
    tt, ks := LookupRun(ss, ls, a);
    tt, ks := RelayedRun(tt, ks, ss[|ls|].next);
  }

  /** Sending a datagram on changes nothing else. */
  ghost predicate Relayed(s: Server, r: Server) {
    r.tasks == s.tasks && r.sessions == s.sessions && r.w == s.w
  }

  lemma SentOnAtOnce(ss: seq<Server>, ls: seq<Label>, a: SocketAddr)
    requires Run(ss, ls) && Echoes(ss[|ls|], a)
    ensures var s := ss[|ls|];
      var r := DoRelayRun(Spawn(s, Relaying(s.sessions[a], true)), s.next);
      && CameBack(r) && Relayed(s, r)
      && (OneJoinPerAddr(s) ==> OneJoinPerAddr(r) && OneJoinPerAddr(Spawn(s, Relaying(s.sessions[a], true))))
  {
    SessionInvAlways(ss, ls, |ls|);
    EchoIsTarget(ss[|ls|], a);
    SentOn(ss[|ls|], a);
  }

  lemma EchoIsTarget(s: Server, a: SocketAddr)
    requires SessionInv(s) && Echoes(s, a)
    ensures s.next !in s.tasks && s.sessions[a].addr == a
    ensures a in DatagramTargets(s.w.core.matches[s.sessions[a].matchId], Some(s.sessions[a].playerId))
  {
    ReachedIffOccupied(s, s.sessions[a].matchId, Some(s.sessions[a].playerId), a);
    SessionImpliesMembership(s, a);
  }

  lemma SentOn(s: Server, a: SocketAddr)
    requires a in s.sessions && s.next !in s.tasks && s.sessions[a].addr == a && HasRoom(s.w, s.sessions[a].matchId)
    requires a in DatagramTargets(s.w.core.matches[s.sessions[a].matchId], Some(s.sessions[a].playerId))
    ensures var looked := Spawn(s, Relaying(s.sessions[a], true));
      var r := DoRelayRun(looked, s.next);
      && CameBack(r) && Relayed(s, r)
      && (OneJoinPerAddr(s) ==> OneJoinPerAddr(r) && OneJoinPerAddr(looked))
  {
    var r := DoRelayRun(Spawn(s, Relaying(s.sessions[a], true)), s.next);
    assert r.tasks == s.tasks;
  }

  lemma LookupRun(ss: seq<Server>, ls: seq<Label>, a: SocketAddr)
    returns (tt: seq<Server>, ks: seq<Label>)
    requires Run(ss, ls) && a in ss[|ls|].sessions
    ensures Run(tt, ks) && tt == ss + [Spawn(ss[|ls|], Relaying(ss[|ls|].sessions[a], true))]
  {
    tt, ks := RunExtends(ss, ls, RelayLookup(a, true));
  }

  lemma RelayedRun(ss: seq<Server>, ls: seq<Label>, t: nat)
    returns (tt: seq<Server>, ks: seq<Label>)
    requires Run(ss, ls) && t in ss[|ls|].tasks && ss[|ls|].tasks[t].Relaying?
    ensures Run(tt, ks) && tt == ss + [DoRelayRun(ss[|ls|], t)]
  {
    tt, ks := RunExtends(ss, ls, RelayRun(t));
  }

  /** Two joins that race from one address: the player who stays hears its own positions. */
  lemma RacingJoinsEcho() returns (ss: seq<Server>, ls: seq<Label>)
    ensures Run(ss, ls) && CameBack(ss[|ls|]) && Stranded(ss[|ls|], "m", "p")
  {
    ss, ls := TwoJoinsFromOneAddressStrandAPlayer();
    var n := |ls|;
    ss, ls := RelayAtOnce(ss, ls, HOST);
    StrandedStays(ss, ls, n, "m", "p");
    StrandedStays(ss, ls, n + 1, "m", "p");
  }

  /**
   One join at a time is not enough against echoes: a client whose reply was lost joins again from
   the same address while the removal of its first player is still pending.
   */
  lemma LateRemovalEchoes() returns (ss: seq<Server>, ls: seq<Label>)
    ensures Run(ss, ls) && NoOverlap(ss) && CameBack(ss[|ls|])
    ensures RemovalAt(ss[|ls|], 0, "m", Some("q"), HOST)
  {
    ss, ls := RejoinedEarly();
    assert RemovalAt(ss[|ls|], 0, "m", Some("q"), HOST);
    ss, ls := RelayAtOnce(ss, ls, HOST);
  }

  /**
   Nor does anything have to be wrong when the position is sent on: looked up for a first player,
   it comes back because another player has joined from the address since. No join, removal or
   stranded player is there then.
   */
  lemma LateRelayComesBack() returns (ss: seq<Server>, ls: seq<Label>)
    ensures Run(ss, ls) && NoOverlap(ss) && CameBack(ss[|ls|])
    ensures var s := ss[|ls|];
      && SessionAt(s, "m", Some("p"), HOST)
      && (forall t :: !JoinAt(s, t, "m", None, HOST) && !RemovalAt(s, t, "m", None, HOST))
      && (forall pid :: !StrandedAt(s, pid, "m", None, HOST))
  {
    ss, ls := RejoinedWithRelay();
    var s := ss[|ls|];
    SessionInvAlways(ss, ls, |ls|);
    assert SessionAt(s, "m", Some("p"), HOST);
    ReachedIffOccupied(s, "m", Some("p"), HOST);
    ss, ls := RelayedRun(ss, ls, 1);
    assert NoOverlap(ss);
    NobodyStranded(ss, ls);
  }

  lemma NobodyStranded(ss: seq<Server>, ls: seq<Label>)
    requires Run(ss, ls) && NoOverlap(ss)
    ensures AllHeld(ss[|ls|])
  {
    MembershipImpliesHolder(ss, ls, |ls|);
  }

  lemma RejoinedWithRelay() returns (ss: seq<Server>, ls: seq<Label>)
    ensures Run(ss, ls) && NoOverlap(ss) && HasRoom(ss[|ls|].w, "m")
    ensures ss[|ls|].sessions == map[HOST := Session("m", "q", HOST, 2)]
    ensures ss[|ls|].tasks ==
      map[1 := Relaying(Session("m", "p", HOST, 0), true), 2 := JoinInserted(HOST, "m", "q", DEFAULT_PARAMS)]
  {
    ss, ls := LeftWithRelay();
    ss, ls := JoinGoesThrough(ss, ls, HOST, "u", 1);
  }

  lemma LeftWithRelay() returns (ss: seq<Server>, ls: seq<Label>)
    ensures Run(ss, ls) && NoOverlap(ss) && CanJoin(ss[|ls|], HOST, "u", 1)
    ensures var s := ss[|ls|];
      && s.next == 2 && s.tasks == map[1 := Relaying(Session("m", "p", HOST, 0), true)] && s.sessions == map[]
      && s.w.core.tickets == map["u" := TICKET_Q]
  {
    ss, ls := LeavingWithRelay();
    var s := ss[|ls|];
    ss, ls := LeaveRun(ss, ls, 0, 1);
    assert ss[|ls|].w.core == RemovePlayer(s.w.core, "m", "p", 1);
    assert s.w.core.matches["m"].players - {"p"} == map[];
  }

  lemma LeavingWithRelay() returns (ss: seq<Server>, ls: seq<Label>)
    ensures Run(ss, ls) && NoOverlap(ss)
    ensures var s := ss[|ls|];
      && s.tasks == map[0 := Leaving(Session("m", "p", HOST, 0)), 1 := Relaying(Session("m", "p", HOST, 0), true)]
      && s.next == 2 && s.sessions == map[] && s.w.core.tickets == map["u" := TICKET_Q]
      && HasRoom(s.w, "m") && s.w.core.matches["m"].players == map["p" := NewPlayer("player", HOST, 0)]
  {
    ss, ls := FirstJoined();
    ss, ls := LookupRun(ss, ls, HOST);
    ss, ls := LostReply(ss, ls, 0);
  }

  lemma RejoinedEarly() returns (ss: seq<Server>, ls: seq<Label>)
    ensures Run(ss, ls) && NoOverlap(ss) && HasRoom(ss[|ls|].w, "m")
    ensures ss[|ls|].sessions == map[HOST := Session("m", "q", HOST, 1)]
    ensures ss[|ls|].tasks ==
      map[0 := Leaving(Session("m", "p", HOST, 0)), 1 := JoinInserted(HOST, "m", "q", DEFAULT_PARAMS)]
  {
    ss, ls := FirstTakenBack();
    ss, ls := JoinGoesThrough(ss, ls, HOST, "u", 1);
  }

  lemma FirstTakenBack() returns (ss: seq<Server>, ls: seq<Label>)
    ensures Run(ss, ls) && NoOverlap(ss) && CanJoin(ss[|ls|], HOST, "u", 1)
    ensures var s := ss[|ls|];
      && s.next == 1 && s.tasks == map[0 := Leaving(Session("m", "p", HOST, 0))] && s.sessions == map[]
      && s.w.core.tickets == map["u" := TICKET_Q]
  {
    ss, ls := FirstJoined();
    ss, ls := LostReply(ss, ls, 0);
  }

  lemma FirstJoined() returns (ss: seq<Server>, ls: seq<Label>)
    ensures Run(ss, ls) && NoOverlap(ss)
    ensures var s := ss[|ls|];
      && s.next == 1 && s.tasks == map[0 := JoinInserted(HOST, "m", "p", DEFAULT_PARAMS)]
      && s.sessions == map[HOST := Session("m", "p", HOST, 0)]
      && s.w.core.tickets == map["u" := TICKET_Q]
      && HasRoom(s.w, "m") && s.w.core.matches["m"].players == map["p" := NewPlayer("player", HOST, 0)]
  {
    ss, ls := TwoTickets();
    ss, ls := JoinGoesThrough(ss, ls, HOST, "t", 1);
  }

  // ----- a rollback that takes another join's player -----

  lemma StrandedStays(ss: seq<Server>, ls: seq<Label>, n: nat, mid: Id, pid: Id)
    requires Run(ss, ls) && n < |ls| && Stranded(ss[n], mid, pid) && HasRoom(ss[n + 1].w, mid)
    ensures Stranded(ss[n + 1], mid, pid)
  {
    SessionInvAlways(ss, ls, n);
    StrandedNext(ss, ls, n, mid, pid);
  }

  /**
   After two joins have raced from one address, the second one is welcomed; then the first one's
   reply is lost, and its rollback removes the second one's player. Its own player stays behind.
   */
  lemma RollbackTakesTheOthersPlayer() returns (ss: seq<Server>, ls: seq<Label>)
    ensures Run(ss, ls)
    ensures var s := ss[|ls|];
      && Packet(HOST, JoinOk("m", "q", DEFAULT_PARAMS, 0)) in s.direct && HOST !in s.sessions
      && HasRoom(s.w, "m") && !InRoom(s.w, "m", "q") && Stranded(s, "m", "p")
  {
    ss, ls := WelcomedThenDropped();
    var s := ss[|ls|];
    var n := |ls|;
    ss, ls := LeaveRun(ss, ls, 0, 2);
    StrandedStays(ss, ls, n, "m", "p");
  }

  lemma WelcomedThenDropped() returns (ss: seq<Server>, ls: seq<Label>)
    ensures Run(ss, ls)
    ensures var s := ss[|ls|];
      && s.tasks == map[0 := Leaving(Session("m", "q", HOST, 1))] && HOST !in s.sessions
      && Packet(HOST, JoinOk("m", "q", DEFAULT_PARAMS, 0)) in s.direct
      && HasRoom(s.w, "m") && Stranded(s, "m", "p")
  {
    ss, ls := TwoJoinsFromOneAddressStrandAPlayer();
    var n := |ls|;
    ss, ls := ReplyRun(ss, ls, 1, true, 0);
    var s := ss[|ls|];
    assert s.direct[|s.direct| - 1] == Packet(HOST, JoinOk("m", "q", DEFAULT_PARAMS, 0));
    assert s.tasks == map[0 := JoinInserted(HOST, "m", "p", DEFAULT_PARAMS)];
    StrandedStays(ss, ls, n, "m", "p");
    ss, ls := ReplyRun(ss, ls, 0, false, 0);
    StrandedStays(ss, ls, n + 1, "m", "p");
    ss, ls := DropRun(ss, ls, 0);
    StrandedStays(ss, ls, n + 2, "m", "p");
  }

  // ----- a finish that is refused when repeated -----

  const ONE_HAND := Picks([0, 0, 0, 0], [[0, 0, 0, 0, 0]])

  /** The player of the only join is in the started match, its reply still under way. */
  ghost predicate Playing(s: Server, finished: seq<Id>) {
    && s.sessions == map[HOST := Session("m", "p", HOST, 0)]
    && 0 in s.tasks && s.tasks[0] == JoinInserted(HOST, "m", "p", DEFAULT_PARAMS)
    && HasRoom(s.w, "m") && s.w.core.matches["m"].startedAt == 2
    && s.w.core.matches["m"].players.Keys == {"p"} && s.w.core.matches["m"].finished == finished
  }

  lemma JoinedAlone() returns (ss: seq<Server>, ls: seq<Label>)
    ensures Run(ss, ls) && Lobbying(ss[|ls|])
  {
    ss, ls := OneTicket();
    ss, ls := JoinGoesThrough(ss, ls, HOST, "t", 1);
  }

  ghost predicate Lobbying(s: Server) {
    && s.sessions == map[HOST := Session("m", "p", HOST, 0)] && s.next == 1
    && s.tasks == map[0 := JoinInserted(HOST, "m", "p", DEFAULT_PARAMS)]
    && HasRoom(s.w, "m") && s.w.core.matches["m"].startedAt == 0 && s.w.core.matches["m"].finished == []
    && s.w.core.matches["m"].players == map["p" := NewPlayer("player", HOST, 0)]
  }

  lemma StartsRoom(c: Core)
    requires "m" in c.matches && c.matches["m"].startedAt == 0 && c.matches["m"].players.Keys == {"p"}
    ensures StartAccepts(c, "m", ONE_HAND)
    ensures var d := StartMatch(c, "m", 2, ONE_HAND).0;
      && "m" in d.matches && d.matches["m"].startedAt == 2 && d.matches["m"].finished == c.matches["m"].finished
      && d.matches["m"].players.Keys == {"p"}
  {
    assert |c.matches["m"].players| == |c.matches["m"].players.Keys|;
  }

  lemma StartsAlone(s: Server)
    requires Lobbying(s)
    ensures Enabled(s, StartRoom("m", 2, ONE_HAND, 0))
    ensures Playing(DoStartRoom(s, "m", 2, ONE_HAND, 0), [])
  {
    StartsRoom(s.w.core);
    StartTouchesOnly(s, "m", 2, ONE_HAND, 0);
  }

  lemma StartTouchesOnly(s: Server, mid: Id, now: Unix, picks: Picks, ms: nat)
    requires Permitted(s.w, Start(mid, now, picks))
    ensures var r := DoStartRoom(s, mid, now, picks, ms);
      && r.w == Do(s.w, Start(mid, now, picks)) && r.sessions == s.sessions
      && (forall t :: t in s.tasks && t != s.next ==> t in r.tasks && r.tasks[t] == s.tasks[t])
  {
    StartRoomSpawns(s, mid, now, picks, ms);
  }

  lemma StartedAlone() returns (ss: seq<Server>, ls: seq<Label>)
    ensures Run(ss, ls) && Playing(ss[|ls|], [])
  {
    ss, ls := JoinedAlone();
    StartsAlone(ss[|ls|]);
    ss, ls := RunExtends(ss, ls, StartRoom("m", 2, ONE_HAND, 0));
  }

  lemma FinishesFirst(s: Server)
    requires Playing(s, [])
    ensures var l := Grpc(Finish("m", "p", 3));
      && Enabled(s, l) && Playing(Step(s, l), ["p"])
      && FinishPlayer(s.w.core, "m", "p", 3).1 == Ok(Standing(1, 1, 1))
  {
    var players := s.w.core.matches["m"].players;
    assert |players| == |players.Keys|;
  }

  /**
   A player finishes first in state `k`; the reply to its join is then lost and its seat taken
   back; a repeated finish is refused, although the match is still there and lists the player.
   */
  lemma RepeatedFinishRefused() returns (ss: seq<Server>, ls: seq<Label>, k: nat)
    ensures Run(ss, ls) && k < |ls| && ls[k] == Grpc(Finish("m", "p", 3))
    ensures FinishPlayer(ss[k].w.core, "m", "p", 3).1 == Ok(Standing(1, 1, 1))
    ensures var c := ss[|ls|].w.core;
      "m" in c.matches && c.matches["m"].finished == ["p"] && FinishPlayer(c, "m", "p", 4).1 == Err(PlayerNotFound)
  {
    ss, ls := StartedAlone();
    k := |ls|;
    FinishesFirst(ss[k]);
    ss, ls := RunExtends(ss, ls, Grpc(Finish("m", "p", 3)));
    ss, ls := LostReply(ss, ls, 0);
    ss, ls := LeaveRun(ss, ls, 0, 3);
  }
}
