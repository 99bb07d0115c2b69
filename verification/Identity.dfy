/** Player ids are linear: each is in one place, moves forward only, and is never seen twice. */
module Identity {
  import opened Wrappers
  import opened Types
  import opened Lobby
  import opened World

  /** The history agrees with the core state in both directions. */
  ghost predicate Agree(w: World) {
    && w.core.matches.Keys <= w.mids
    && w.core.tickets.Keys <= w.tokens
    && (forall token :: token in w.core.tickets ==>
          var ticket := w.core.tickets[token];
          ticket.playerId in w.life && w.life[ticket.playerId] == Waiting(token, ticket.matchId))
    && (forall pid :: pid in w.life && w.life[pid].Waiting? ==>
          HasTicket(w, w.life[pid].token, w.life[pid].mid, pid) && w.life[pid].mid in w.core.matches)
    && (forall pid :: pid in w.life && w.life[pid].Claimed? ==> w.life[pid].mid in w.mids)
    && (forall mid, pid :: InRoom(w, mid, pid) ==>
          pid in w.life && SeatOf(w, mid, pid) == Some(w.life[pid]))
    && (forall pid :: pid in w.life && w.life[pid].Seated? ==> InRoom(w, w.life[pid].mid, pid))
  }

  ghost function SeatOf(w: World, mid: Id, pid: Id): Option<Life>
    requires InRoom(w, mid, pid)
  {
    var p := PlayerAt(w, mid, pid);
    match p.connection
    case Some(addr) => Some(Seated(mid, p.tx, addr))
    case None => None
  }

  /** Seats stay as they are when rooms, members and connections do. */
  ghost predicate SameSeats(w: World, v: World) {
    && v.core.matches.Keys == w.core.matches.Keys
    && v.life == w.life
    && (forall mid, pid :: InRoom(v, mid, pid) <==> InRoom(w, mid, pid))
    && (forall mid, pid :: InRoom(w, mid, pid) ==>
          && PlayerAt(v, mid, pid).tx == PlayerAt(w, mid, pid).tx
          && PlayerAt(v, mid, pid).connection == PlayerAt(w, mid, pid).connection)
  }

  lemma UpdateKeepsSeats(w: World, op: Op)
    requires Permitted(w, op) && op.Update?
    ensures SameSeats(w, Do(w, op)) && Do(w, op).core.tickets == w.core.tickets
  {
  }

  lemma StartKeepsSeats(w: World, op: Op)
    requires Permitted(w, op) && op.Start?
    ensures SameSeats(w, Do(w, op)) && Do(w, op).core.tickets == w.core.tickets
  {
    var v := Do(w, op);
    if HasRoom(w, op.mid) && w.core.matches[op.mid].startedAt == 0 {
      var before, after := w.core.matches[op.mid].players, v.core.matches[op.mid].players;
      assert after == Deal(before, op.picks);
      assert v.core.matches == w.core.matches[op.mid := v.core.matches[op.mid]];
    } else {
      assert v.core == w.core;
    }
  }

  lemma FinishKeepsSeats(w: World, op: Op)
    requires Permitted(w, op) && op.Finish?
    ensures SameSeats(w, Do(w, op)) && Do(w, op).core.tickets == w.core.tickets
  {
  }

  lemma AgreeSameSeats(w: World, v: World)
    requires Agree(w) && SameSeats(w, v)
    requires v.core.tickets == w.core.tickets && v.mids == w.mids && v.tokens == w.tokens
    ensures Agree(v)
  {
  }

  lemma AgreeCreate(w: World, op: Op)
    requires Agree(w) && Permitted(w, op) && op.Create?
    ensures Agree(Do(w, op))
  {
    assert forall m, p :: InRoom(Do(w, op), m, p) <==> InRoom(w, m, p);
  }

  lemma AgreeNewTicket(w: World, v: World, mid: Id, pid: Id, token: Token, ticket: Ticket, room: MatchRoom)
    requires Agree(w) && HasRoom(w, mid) && pid !in w.life && token !in w.tokens
    requires ticket.matchId == mid && ticket.playerId == pid && room.players == w.core.matches[mid].players
    requires v.core == Core(w.core.matches[mid := room], w.core.tickets[token := ticket])
    requires v.life == w.life[pid := Waiting(token, mid)]
    requires v.mids == w.mids && v.tokens == w.tokens + {token}
    ensures Agree(v)
  {
    NewTicketKeepsSeats(w, v, mid, pid, token, room);
  }

  lemma NewTicketKeepsSeats(w: World, v: World, mid: Id, pid: Id, token: Token, room: MatchRoom)
    requires Agree(w) && HasRoom(w, mid) && pid !in w.life
    requires room.players == w.core.matches[mid].players && v.core.matches == w.core.matches[mid := room]
    requires v.life == w.life[pid := Waiting(token, mid)]
    ensures forall m, p :: InRoom(v, m, p) ==> p in v.life && SeatOf(v, m, p) == Some(v.life[p])
    ensures forall p :: p in v.life && v.life[p].Seated? ==> InRoom(v, v.life[p].mid, p)
  {
    assert forall m, p :: InRoom(v, m, p) <==> InRoom(w, m, p);
    assert forall m, p :: InRoom(w, m, p) ==> p != pid;
  }

  lemma AgreeIssue(w: World, op: Op)
    requires Agree(w) && Permitted(w, op) && op.Issue?
    ensures Agree(Do(w, op))
  {
    var v := Do(w, op);
    if v.life == w.life {
      assert v.core == w.core;
      assert forall m, p :: InRoom(v, m, p) <==> InRoom(w, m, p);
    } else {
      AgreeNewTicket(w, v, op.mid, op.pid, op.token, v.core.tickets[op.token], v.core.matches[op.mid]);
    }
  }

  lemma AgreeConsume(w: World, op: Op)
    requires Agree(w) && Permitted(w, op) && op.Consume?
    ensures Agree(Do(w, op))
  {
    assert forall m, p :: InRoom(Do(w, op), m, p) <==> InRoom(w, m, p);
  }

  lemma AgreeSeat(w: World, v: World, mid: Id, pid: Id, room: MatchRoom, player: PlayerHandle, addr: SocketAddr)
    requires Agree(w) && HasRoom(w, mid) && pid in w.life && w.life[pid] == Claimed(mid, player.tx)
    requires player.connection == Some(addr)
    requires room.players == w.core.matches[mid].players[pid := player]
    requires v.core == w.core.(matches := w.core.matches[mid := room])
    requires v.life == w.life[pid := Seated(mid, player.tx, addr)]
    requires v.mids == w.mids && v.tokens == w.tokens
    ensures Agree(v)
  {
    forall m, p | InRoom(w, m, p) ensures p != pid {
      SeatIsLife(w, m, p);
    }
    assert forall m, p :: InRoom(v, m, p) <==> InRoom(w, m, p) || (m == mid && p == pid);
  }

  lemma AgreeRegister(w: World, op: Op)
    requires Agree(w) && Permitted(w, op) && op.Register?
    ensures Agree(Do(w, op))
  {
    var v := Do(w, op);
    if HasRoom(w, op.mid) && v.life[op.pid].Seated? {
      var room := v.core.matches[op.mid];
      AgreeSeat(w, v, op.mid, op.pid, room, room.players[op.pid], op.addr);
    } else {
      assert v.core == w.core && v.life == w.life[op.pid := Rejected];
      assert forall m, p :: InRoom(v, m, p) <==> InRoom(w, m, p);
    }
  }

  lemma AgreeRemove(w: World, op: Op)
    requires Agree(w) && Permitted(w, op) && op.Remove?
    ensures Agree(Do(w, op))
  {
    var v := Do(w, op);
    if InRoom(w, op.mid, op.pid) {
      AgreeUnseat(w, v, op.mid, op.pid, v.core.matches[op.mid]);
    } else {
      assert forall m, p :: InRoom(v, m, p) <==> InRoom(w, m, p);
      AgreeSameSeats(w, v);
    }
  }

  lemma AgreeUnseat(w: World, v: World, mid: Id, pid: Id, room: MatchRoom)
    requires Agree(w) && InRoom(w, mid, pid)
    requires room.players == w.core.matches[mid].players - {pid}
    requires v.core == w.core.(matches := w.core.matches[mid := room])
    requires v.life == w.life[pid := Removed] && v.mids == w.mids && v.tokens == w.tokens
    ensures Agree(v)
  {
    forall m, p ensures InRoom(v, m, p) <==> InRoom(w, m, p) && p != pid {
      SeatIsLife(w, m, p);
      SeatIsLife(w, mid, pid);
    }
  }

  lemma SeatIsLife(w: World, mid: Id, pid: Id)
    requires Agree(w)
    ensures InRoom(w, mid, pid) ==> pid in w.life && w.life[pid].Seated? && w.life[pid].mid == mid
  {
    if InRoom(w, mid, pid) {
      assert SeatOf(w, mid, pid) == Some(w.life[pid]);
    }
  }

  lemma AgreeDropRooms(w: World, v: World, gone: set<Id>)
    requires Agree(w)
    requires v.core == DropRooms(w.core, gone) && v.life == DoomAll(w.life, gone)
    requires v.mids == w.mids && v.tokens == w.tokens
    ensures Agree(v)
  {
    assert forall m, p :: InRoom(v, m, p) <==> InRoom(w, m, p) && m !in gone;
    forall token | token in v.core.tickets
      ensures var ticket := v.core.tickets[token];
        ticket.playerId in v.life && v.life[ticket.playerId] == Waiting(token, ticket.matchId)
    {
      assert token in w.core.tickets;
    }
    forall pid | pid in v.life && v.life[pid].Waiting?
      ensures HasTicket(v, v.life[pid].token, v.life[pid].mid, pid) && v.life[pid].mid in v.core.matches
    {
      assert v.life[pid] == w.life[pid];
    }
    forall pid | pid in v.life && v.life[pid].Seated?
      ensures InRoom(v, v.life[pid].mid, pid)
    {
      assert v.life[pid] == w.life[pid];
    }
  }

  lemma AgreeDrop(w: World, op: Op)
    requires Agree(w) && Permitted(w, op) && (op.Delete? || op.Sweep?)
    ensures Agree(Do(w, op))
  {
    var v := Do(w, op);
    match op
    case Delete(mid) =>
      if mid in w.core.matches {
        AgreeDropRooms(w, v, {mid});
      } else {
        assert forall m, p :: InRoom(v, m, p) <==> InRoom(w, m, p);
      }
    case Sweep(reading) =>
      AgreeDropRooms(w, v, StaleRooms(w.core, reading, ROOM_IDLE_TIMEOUT_SECS));
  }

  lemma AgreeKept(w: World, op: Op)
    requires Agree(w) && Permitted(w, op)
    ensures Agree(Do(w, op))
  {
    match op
    case Create(_, _) => AgreeCreate(w, op);
    case Issue(_, _, _, _, _) => AgreeIssue(w, op);
    case Consume(_, _, _) => AgreeConsume(w, op);
    case Register(_, _, _, _, _, _) => AgreeRegister(w, op);
    case Remove(_, _, _) => AgreeRemove(w, op);
    case Update(_, _, _, _, _, _) => UpdateKeepsSeats(w, op); AgreeSameSeats(w, Do(w, op));
    case Start(_, _, _) => StartKeepsSeats(w, op); AgreeSameSeats(w, Do(w, op));
    case Finish(_, _, _) => FinishKeepsSeats(w, op); AgreeSameSeats(w, Do(w, op));
    case Delete(_) => AgreeDrop(w, op);
    case Sweep(_) => AgreeDrop(w, op);
  }

  // ----- ids only move forward -----

  predicate Advances(a: Life, b: Life) {
    || a == b
    || (a.Waiting? && (b.Purged? || b.Rejected? || b.Removed? || ((b.Claimed? || b.Seated?) && b.mid == a.mid)))
    || (a.Claimed? && (b.Rejected? || b.Removed? || (b.Seated? && b.mid == a.mid && b.tx == a.task)))
    || (a.Seated? && b.Removed?)
  }

  ghost predicate AllAdvance(w: World, v: World) {
    forall pid :: pid in w.life ==> pid in v.life && Advances(w.life[pid], v.life[pid])
  }

  lemma StepAdvances(w: World, op: Op)
    requires Agree(w) && Permitted(w, op)
    ensures AllAdvance(w, Do(w, op))
  {
    if op.Remove? && InRoom(w, op.mid, op.pid) {
      assert SeatOf(w, op.mid, op.pid) == Some(w.life[op.pid]);
    }
  }

  lemma NextAgrees(w: World, v: World)
    requires Agree(w) && Next(w, v)
    ensures Agree(v) && AllAdvance(w, v)
  {
    if v != w {
      var op :| Permitted(w, op) && v == Do(w, op);
      AgreeKept(w, op);
      StepAdvances(w, op);
    }
  }

  lemma {:induction false} TraceAgrees(ws: seq<World>, i: nat)
    requires Trace(ws) && i < |ws|
    ensures Agree(ws[i])
  {
    if i > 0 {
      TraceAgrees(ws, i - 1);
      assert StepAt(ws, i - 1);
      NextAgrees(ws[i - 1], ws[i]);
    }
  }

  /** Over any run no id moves backwards or to another match. */
  lemma {:induction false} LifeOnlyAdvances(ws: seq<World>, i: nat, j: nat)
    requires Trace(ws) && i <= j < |ws|
    ensures AllAdvance(ws[i], ws[j])
    decreases j
  {
    if i < j {
      LifeOnlyAdvances(ws, i, j - 1);
      TraceAgrees(ws, j - 1);
      assert StepAt(ws, j - 1);
      NextAgrees(ws[j - 1], ws[j]);
      AdvancesCompose(ws[i], ws[j - 1], ws[j]);
    }
  }

  lemma AdvancesCompose(u: World, v: World, w: World)
    requires AllAdvance(u, v) && AllAdvance(v, w)
    ensures AllAdvance(u, w)
  {
  }

  /** A token that is gone stays gone, so no ticket is consumed twice. */
  lemma {:induction false} SpentTokensStaySpent(ws: seq<World>, i: nat, j: nat, token: Token)
    requires Trace(ws) && i <= j < |ws|
    requires token in ws[i].tokens && token !in ws[i].core.tickets
    ensures token in ws[j].tokens && token !in ws[j].core.tickets
    decreases j
  {
    if i < j {
      SpentTokensStaySpent(ws, i, j - 1, token);
      assert StepAt(ws, j - 1);
      NextKeepsSpent(ws[j - 1], ws[j], token);
    }
  }

  lemma NextKeepsSpent(w: World, v: World, token: Token)
    requires Next(w, v) && token in w.tokens && token !in w.core.tickets
    ensures token in v.tokens && token !in v.core.tickets
  {
  }

  // ----- one place per id, stated on the core state alone -----

  /** No two tickets, no two seats, and no ticket and seat together share a player id. */
  lemma OnePlacePerId(w: World, pid: Id)
    requires Agree(w)
    ensures forall t, u, m, n :: HasTicket(w, t, m, pid) && HasTicket(w, u, n, pid) ==> t == u
    ensures forall m, n :: InRoom(w, m, pid) && InRoom(w, n, pid) ==> m == n
    ensures forall t, m, n :: !(HasTicket(w, t, m, pid) && InRoom(w, n, pid))
    ensures pid in w.life && w.life[pid].Claimed? ==>
              forall t, m :: !HasTicket(w, t, m, pid) && !InRoom(w, m, pid)
    ensures forall t, m :: HasTicket(w, t, m, pid) ==> HasRoom(w, m)
  {
  }

  // ----- conservation -----

  datatype Stage = AtWaiting | AtClaimed | AtSeated | AtPurged | AtRejected | AtRemoved

  function StageOf(life: Life): Stage {
    match life
    case Waiting(_, _) => AtWaiting
    case Claimed(_, _) => AtClaimed
    case Seated(_, _, _) => AtSeated
    case Purged => AtPurged
    case Rejected => AtRejected
    case Removed => AtRemoved
  }

  ghost function IdsAt(life: map<Id, Life>, stage: Stage): set<Id> {
    set pid | pid in life && StageOf(life[pid]) == stage
  }

  ghost function TotalPlayers(matches: map<Id, MatchRoom>): nat
    decreases |matches.Keys|
  {
    if matches.Keys == {} then 0
    else
      var mid :| mid in matches.Keys;
      assert (matches - {mid}).Keys == matches.Keys - {mid};
      |matches[mid].players| + TotalPlayers(matches - {mid})
  }

  ghost function PlayerIds(matches: map<Id, MatchRoom>): set<Id> {
    set mid, pid | mid in matches && pid in matches[mid].players :: pid
  }

  ghost predicate Holds(matches: map<Id, MatchRoom>, mid: Id, pid: Id) {
    mid in matches && pid in matches[mid].players
  }

  lemma {:induction false} RoomSizesAddUp(matches: map<Id, MatchRoom>)
    requires forall m, n, pid :: Holds(matches, m, pid) && Holds(matches, n, pid) ==> m == n
    ensures |PlayerIds(matches)| == TotalPlayers(matches)
    decreases |matches.Keys|
  {
    if matches.Keys == {} {
      assert PlayerIds(matches) == {};
    } else {
      var mid :| mid in matches.Keys && TotalPlayers(matches) == |matches[mid].players| + TotalPlayers(matches - {mid});
      var rest := matches - {mid};
      assert rest.Keys == matches.Keys - {mid};
      assert forall m, pid :: Holds(rest, m, pid) <==> Holds(matches, m, pid) && m != mid;
      RoomSizesAddUp(rest);
      var here, others := matches[mid].players.Keys, PlayerIds(rest);
      assert forall pid :: pid in here <==> Holds(matches, mid, pid);
      forall pid | pid in others ensures pid !in here && pid in PlayerIds(matches) {
        var m :| m in rest && pid in rest[m].players;
        assert Holds(rest, m, pid);
      }
      forall pid | pid in PlayerIds(matches) ensures pid in here + others {
        var m :| m in matches && pid in matches[m].players;
        assert Holds(matches, m, pid);
      }
      assert PlayerIds(matches) == here + others;
      DisjointSizes(here, others);
    }
  }

  lemma {:induction false} SameSize<A(!new), B(!new)>(xs: set<A>, ys: set<B>, f: map<A, B>)
    requires f.Keys == xs
    requires forall x :: x in xs ==> f[x] in ys
    requires forall x, y :: x in xs && y in xs && f[x] == f[y] ==> x == y
    requires forall y :: y in ys ==> exists x :: x in xs && f[x] == y
    ensures |xs| == |ys|
    decreases |xs|
  {
    if xs == {} {
      assert ys == {};
    } else {
      var x :| x in xs;
      forall y | y in ys - {f[x]} ensures exists z :: z in xs - {x} && (f - {x})[z] == y {
        var z :| z in xs && f[z] == y;
        assert z in xs - {x} && (f - {x})[z] == y;
      }
      SameSize(xs - {x}, ys - {f[x]}, f - {x});
    }
  }

  ghost function IssuedCount(log: seq<Event>): nat {
    if log == [] then 0
    else IssuedCount(log[..|log| - 1]) + (if log[|log| - 1].Issued? then 1 else 0)
  }

  lemma CountAppend(log: seq<Event>, events: seq<Event>)
    requires |events| <= 1
    ensures IssuedCount(log + events) == IssuedCount(log) + (if events != [] && events[0].Issued? then 1 else 0)
  {
    if events != [] {
      assert (log + events)[..|log|] == log;
    } else {
      assert log + events == log;
    }
  }

  predicate Issues(w: World, op: Op) {
    op.Issue? && IssueJoinTicket(w.core, op.mid, op.name, op.pid, op.token, op.now).1.Ok?
  }

  lemma KeysAfter(w: World, op: Op)
    requires Agree(w) && Permitted(w, op)
    ensures LifeAfter(w, op).Keys == w.life.Keys + (if Issues(w, op) then {op.pid} else {})
  {
    if op.Remove? && InRoom(w, op.mid, op.pid) {
      assert SeatOf(w, op.mid, op.pid) == Some(w.life[op.pid]);
    }
  }

  lemma StepIssues(w: World, op: Op)
    requires Agree(w) && Permitted(w, op)
    ensures |Do(w, op).life| - |w.life| == IssuedCount(Do(w, op).log) - IssuedCount(w.log)
  {
    var life := LifeAfter(w, op);
    CountAppend(w.log, EventsOf(w, op));
    KeysAfter(w, op);
    assert |life| == |life.Keys| && |w.life| == |w.life.Keys|;
  }

  lemma {:induction false} IssuedAreCounted(ws: seq<World>, i: nat)
    requires Trace(ws) && i < |ws|
    ensures |ws[i].life| == IssuedCount(ws[i].log)
  {
    if i == 0 {
      assert ws[0].life == map[] && ws[0].log == [];
    } else {
      IssuedAreCounted(ws, i - 1);
      TraceAgrees(ws, i - 1);
      assert StepAt(ws, i - 1);
      NextIssues(ws[i - 1], ws[i]);
    }
  }

  lemma NextIssues(w: World, v: World)
    requires Agree(w) && Next(w, v)
    ensures |v.life| - |w.life| == IssuedCount(v.log) - IssuedCount(w.log)
  {
    if v != w {
      var op :| Permitted(w, op) && v == Do(w, op);
      StepIssues(w, op);
    }
  }

  function Rank(stage: Stage): nat {
    match stage
    case AtWaiting => 0
    case AtClaimed => 1
    case AtSeated => 2
    case AtPurged => 3
    case AtRejected => 4
    case AtRemoved => 5
  }

  ghost function IdsBelow(life: map<Id, Life>, rank: nat): set<Id> {
    set pid | pid in life && Rank(StageOf(life[pid])) < rank
  }

  lemma OneMoreStage(life: map<Id, Life>, stage: Stage)
    ensures |IdsBelow(life, Rank(stage) + 1)| == |IdsBelow(life, Rank(stage))| + |IdsAt(life, stage)|
  {
    assert IdsBelow(life, Rank(stage) + 1) == IdsBelow(life, Rank(stage)) + IdsAt(life, stage);
    DisjointSizes(IdsBelow(life, Rank(stage)), IdsAt(life, stage));
  }

  lemma PartitionCounts(life: map<Id, Life>)
    ensures |IdsAt(life, AtWaiting)| + |IdsAt(life, AtClaimed)| + |IdsAt(life, AtSeated)|
         + |IdsAt(life, AtPurged)| + |IdsAt(life, AtRejected)| + |IdsAt(life, AtRemoved)|
         == |life|
  {
    OneMoreStage(life, AtWaiting);
    OneMoreStage(life, AtClaimed);
    OneMoreStage(life, AtSeated);
    OneMoreStage(life, AtPurged);
    OneMoreStage(life, AtRejected);
    OneMoreStage(life, AtRemoved);
    assert IdsBelow(life, 0) == {};
    assert IdsBelow(life, 6) == life.Keys;
    assert |life| == |life.Keys|;
  }

  lemma DisjointSizes(a: set<Id>, b: set<Id>)
    requires a !! b
    ensures |a + b| == |a| + |b|
  {
  }

  /**
   Conservation over every run: outstanding tickets, claims in flight, seats in rooms, and the
   ids purged, rejected and removed add up to the tickets ever issued.
   */
  lemma TicketsAreConserved(ws: seq<World>, i: nat)
    requires Trace(ws) && i < |ws|
    ensures var w := ws[i];
      |w.core.tickets| + |IdsAt(w.life, AtClaimed)| + TotalPlayers(w.core.matches)
      + |IdsAt(w.life, AtPurged)| + |IdsAt(w.life, AtRejected)|
      + |IdsAt(w.life, AtRemoved)|
      == IssuedCount(w.log)
  {
    var w := ws[i];
    TraceAgrees(ws, i);
    IssuedAreCounted(ws, i);
    PartitionCounts(w.life);
    TicketsMatchWaiting(w);
    SeatsMatchPlayers(w);
  }

  lemma TicketsMatchWaiting(w: World)
    requires Agree(w)
    ensures |w.core.tickets| == |IdsAt(w.life, AtWaiting)|
  {
    var waiting := IdsAt(w.life, AtWaiting);
    var holder := map token | token in w.core.tickets :: w.core.tickets[token].playerId;
    forall pid | pid in waiting ensures exists t :: t in w.core.tickets.Keys && holder[t] == pid {
      assert HasTicket(w, w.life[pid].token, w.life[pid].mid, pid);
      assert w.life[pid].token in w.core.tickets.Keys;
    }
    SameSize(w.core.tickets.Keys, waiting, holder);
    assert |w.core.tickets| == |w.core.tickets.Keys|;
  }

  lemma SeatsMatchPlayers(w: World)
    requires Agree(w)
    ensures TotalPlayers(w.core.matches) == |IdsAt(w.life, AtSeated)|
  {
    var seated := IdsAt(w.life, AtSeated);
    forall m, pid | m in w.core.matches && pid in w.core.matches[m].players
      ensures pid in seated && w.life[pid].mid == m
    {
      assert InRoom(w, m, pid) && SeatOf(w, m, pid) == Some(w.life[pid]);
    }
    assert PlayerIds(w.core.matches) == seated by {
      forall pid | pid in seated ensures pid in PlayerIds(w.core.matches) {
        assert InRoom(w, w.life[pid].mid, pid);
      }
    }
    assert forall m, pid :: Holds(w.core.matches, m, pid) ==> InRoom(w, m, pid);
    RoomSizesAddUp(w.core.matches);
  }

  // ----- admissions -----

  /** Each id is admitted once, with the default parameters. */
  ghost predicate AdmittedOnce(w: World) {
    && (forall k :: 0 <= k < |w.log| && w.log[k].Admitted? ==>
          && w.log[k].params == DEFAULT_PARAMS
          && w.log[k].pid in w.life
          && !w.life[w.log[k].pid].Waiting? && !w.life[w.log[k].pid].Claimed?)
    && (forall j, k :: 0 <= j < k < |w.log| && w.log[j].Admitted? && w.log[k].Admitted? ==>
          w.log[j].pid != w.log[k].pid)
  }

  /** The branch that preserves an existing player is never taken. */
  lemma RegistrationIsNeverARejoin(w: World, op: Op)
    requires Agree(w) && Permitted(w, op) && op.Register?
    ensures !InRoom(w, op.mid, op.pid)
    ensures var r := RegisterPlayer(w.core, op.mid, op.pid, op.name, op.addr, op.tx, op.now).1;
      r.Ok? ==> r.value == DEFAULT_PARAMS
  {
  }

  lemma AdmittedOnceKept(w: World, op: Op)
    requires Agree(w) && AdmittedOnce(w) && Permitted(w, op)
    ensures AdmittedOnce(Do(w, op))
  {
    var v := Do(w, op);
    StepAdvances(w, op);
    if op.Register? {
      RegistrationIsNeverARejoin(w, op);
    }
    forall k | 0 <= k < |v.log| && v.log[k].Admitted?
      ensures && v.log[k].params == DEFAULT_PARAMS && v.log[k].pid in v.life
              && !v.life[v.log[k].pid].Waiting? && !v.life[v.log[k].pid].Claimed?
    {
      if k < |w.log| {
        assert v.log[k] == w.log[k];
        assert Advances(w.life[w.log[k].pid], v.life[w.log[k].pid]);
      }
    }
  }
}
