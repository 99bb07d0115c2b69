/** Two joins from one address, interleaved: a run that leaves a player behind. */
module Race {
  import opened Wrappers
  import opened Types
  import opened Lobby
  import opened World
  import opened Server
  import opened Sessions
  import opened Membership
  import opened Echo
  import opened Journey

  const HOST := SocketAddr(1, 1)
  const TICKET_P := Ticket("m", "p", "player", 3601)
  const TICKET_Q := Ticket("m", "q", "player", 3601)

  /** One match and some tickets for it, before any packet has arrived. */
  ghost predicate Unjoined(s: Server, tickets: map<Token, Ticket>, pids: set<Id>) {
    && s.w.core == Core(map["m" := NewRoom(1)], tickets)
    && s.w.life.Keys == pids && s.w.tokens == tickets.Keys
    && s.tasks == map[] && s.sessions == map[] && s.next == 0
  }

  /** Issuing a ticket, in the terms of the lobby alone. */
  lemma IssuesTicket(w: World, pid: Id, token: Token, tickets: map<Token, Ticket>)
    requires w.core == Core(map["m" := NewRoom(1)], tickets) && pid !in w.life && token !in w.tokens
    requires w.tokens == tickets.Keys
    ensures var op := Op.Issue("m", "", pid, token, 1);
      && Permitted(w, op)
      && var v := Do(w, op);
         && v.core == Core(map["m" := NewRoom(1)], tickets[token := Ticket("m", pid, "player", 3601)])
         && v.life.Keys == w.life.Keys + {pid} && v.tokens == w.tokens + {token}
  {
    IssuesInLobby(pid, token, tickets);
  }

  lemma IssuesInLobby(pid: Id, token: Token, tickets: map<Token, Ticket>)
    ensures var ticket := Ticket("m", pid, "player", 3601);
      IssueJoinTicket(Core(map["m" := NewRoom(1)], tickets), "m", "", pid, token, 1)
      == (Core(map["m" := NewRoom(1)], tickets[token := ticket]), Ok(ticket))
  {
    var matches := map["m" := NewRoom(1)];
    assert matches["m" := NewRoom(1)] == matches;
  }

  lemma IssueFirst(s: Server)
    requires Unjoined(s, map[], {})
    ensures var l := Grpc(Issue("m", "", "p", "t", 1));
      Enabled(s, l) && Unjoined(Step(s, l), map["t" := TICKET_P], {"p"})
  {
    IssuesTicket(s.w, "p", "t", map[]);
  }

  lemma IssueSecond(s: Server)
    requires Unjoined(s, map["t" := TICKET_P], {"p"})
    ensures var l := Grpc(Issue("m", "", "q", "u", 1));
      Enabled(s, l) && Unjoined(Step(s, l), map["t" := TICKET_P, "u" := TICKET_Q], {"p", "q"})
  {
    IssuesTicket(s.w, "q", "u", map["t" := TICKET_P]);
  }

  /** Whenever two registered joins share an address, inserting both strands the first one's player. */
  lemma SecondInsertStrands(s: Server, t: nat, u: nat)
    requires SessionInv(s) && t != u && Enabled(s, JoinInsert(t)) && Enabled(s, JoinInsert(u))
    requires s.tasks[t].addr == s.tasks[u].addr && InRoom(s.w, s.tasks[t].mid, s.tasks[t].pid)
    ensures Enabled(Step(s, JoinInsert(t)), JoinInsert(u))
    ensures Stranded(Step(Step(s, JoinInsert(t)), JoinInsert(u)), s.tasks[t].mid, s.tasks[t].pid)
  {
    var r := Step(s, JoinInsert(t));
    StepKeepsSessionInv(s, JoinInsert(t));
    JoinInsertShape(s, t);
    StrandedExactlyByOverwrite(r, JoinInsert(u), s.tasks[t].mid, s.tasks[t].pid);
  }

  lemma InsertBoth(ss: seq<Server>, ls: seq<Label>, t: nat, u: nat)
    returns (tt: seq<Server>, ks: seq<Label>)
    requires Run(ss, ls) && t != u && Enabled(ss[|ls|], JoinInsert(t)) && Enabled(ss[|ls|], JoinInsert(u))
    requires var s := ss[|ls|];
      s.tasks[t].addr == s.tasks[u].addr && InRoom(s.w, s.tasks[t].mid, s.tasks[t].pid)
    ensures Run(tt, ks) && |tt| == |ss| + 2 && Inserted(ss[|ls|], tt[|ss|], t)
    ensures u in tt[|ss|].tasks && tt[|ss|].tasks[u].JoinRegistered? && Inserted(tt[|ss|], tt[|ks|], u)
    ensures Stranded(tt[|ks|], ss[|ls|].tasks[t].mid, ss[|ls|].tasks[t].pid)
  {
    SessionInvAlways(ss, ls, |ls|);
    SecondInsertStrands(ss[|ls|], t, u);
    tt, ks := InsertRun(ss, ls, t);
    tt, ks := InsertRun(tt, ks, u);
  }

  lemma NewMatch() returns (ss: seq<Server>, ls: seq<Label>)
    ensures Run(ss, ls) && NoOverlap(ss) && Unjoined(ss[|ls|], map[], {})
  {
    ss, ls := [Boot()], [];
    ss, ls := RunExtends(ss, ls, Grpc(Create("m", 1)));
    assert ss[0].tasks == map[] && ss[1].tasks == map[];
  }

  lemma OneTicket() returns (ss: seq<Server>, ls: seq<Label>)
    ensures Run(ss, ls) && NoOverlap(ss) && Unjoined(ss[|ls|], map["t" := TICKET_P], {"p"})
  {
    ss, ls := NewMatch();
    IssueFirst(ss[|ls|]);
    ss, ls := RunExtends(ss, ls, Grpc(Issue("m", "", "p", "t", 1)));
  }

  /** One match and two tickets for it. */
  lemma TwoTickets() returns (ss: seq<Server>, ls: seq<Label>)
    ensures Run(ss, ls) && NoOverlap(ss)
    ensures Unjoined(ss[|ls|], map["t" := TICKET_P, "u" := TICKET_Q], {"p", "q"})
  {
    ss, ls := OneTicket();
    IssueSecond(ss[|ls|]);
    ss, ls := RunExtends(ss, ls, Grpc(Issue("m", "", "q", "u", 1)));
  }

  /** Two joins from one address have their seats, and no session is stored yet. */
  ghost predicate BothSeated(s: Server) {
    && s.tasks == map[0 := JoinRegistered(HOST, "m", "p", DEFAULT_PARAMS),
                      1 := JoinRegistered(HOST, "m", "q", DEFAULT_PARAMS)]
    && s.sessions == map[] && ConnectedAt(s.w, "m", "p", HOST)
  }

  lemma BothChecked() returns (ss: seq<Server>, ls: seq<Label>)
    ensures Run(ss, ls)
    ensures var s := ss[|ls|];
      && s.tasks == map[0 := JoinChecked(HOST, "t"), 1 := JoinChecked(HOST, "u")] && s.sessions == map[]
      && s.w.core == Core(map["m" := NewRoom(1)], map["t" := TICKET_P, "u" := TICKET_Q])
  {
    ss, ls := TwoTickets();
    ss, ls := CheckRun(ss, ls, HOST, "t");
    ss, ls := CheckRun(ss, ls, HOST, "u");
  }

  lemma BothConsumed() returns (ss: seq<Server>, ls: seq<Label>)
    ensures Run(ss, ls)
    ensures var s := ss[|ls|];
      && s.tasks == map[0 := JoinConsumed(HOST, "m", "p", "player"), 1 := JoinConsumed(HOST, "m", "q", "player")]
      && s.sessions == map[] && s.w.core.matches == map["m" := NewRoom(1)]
  {
    ss, ls := BothChecked();
    ss, ls := ConsumeRun(ss, ls, 0, 1);
    assert ss[|ls|].w.core.tickets["u"] == TICKET_Q;
    ss, ls := ConsumeRun(ss, ls, 1, 1);
  }

  lemma BothRegistered() returns (ss: seq<Server>, ls: seq<Label>)
    ensures Run(ss, ls) && BothSeated(ss[|ls|])
  {
    ss, ls := BothConsumed();
    ss, ls := RegisterRun(ss, ls, 0, 1);
    assert ss[|ls|].w.core.matches["m"].players == map["p" := NewPlayer("player", HOST, 0)];
    ss, ls := RegisterRun(ss, ls, 1, 1);
    assert PlayerAt(ss[|ls|].w, "m", "p") == NewPlayer("player", HOST, 0);
  }

  /** The first player is left behind, and the second hears its own positions. */
  ghost predicate LeftBehind(s: Server) {
    && s.tasks == map[0 := JoinInserted(HOST, "m", "p", DEFAULT_PARAMS),
                      1 := JoinInserted(HOST, "m", "q", DEFAULT_PARAMS)]
    && s.sessions == map[HOST := Session("m", "q", HOST, 1)]
    && Stranded(s, "m", "p") && Echoes(s, HOST)
  }

  /** A run from boot that leaves a player in a room which no task will ever remove alone. */
  lemma TwoJoinsFromOneAddressStrandAPlayer() returns (ss: seq<Server>, ls: seq<Label>)
    ensures Run(ss, ls) && LeftBehind(ss[|ls|])
  {
    ss, ls := BothRegistered();
    ss, ls := InsertBoth(ss, ls, 0, 1);
    StrandedEchoes(ss, ls);
  }

  lemma StrandedEchoes(ss: seq<Server>, ls: seq<Label>)
    requires Run(ss, ls) && HOST in ss[|ls|].sessions && ss[|ls|].sessions[HOST].matchId == "m"
    requires Stranded(ss[|ls|], "m", "p") && ConnectedAt(ss[|ls|].w, "m", "p", HOST)
    ensures Echoes(ss[|ls|], HOST)
  {
    SessionInvAlways(ss, ls, |ls|);
    var self := ss[|ls|].sessions[HOST].playerId;
    assert SessionHolds(ss[|ls|], HOST, self);
    assert StrandedAt(ss[|ls|], "p", "m", Some(self), HOST);
  }
}
