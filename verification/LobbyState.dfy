/**
 The state behind the main lock as the server updates it, in place. Each method is one section
 of code that holds the lock, proved against its function in module Lobby; readings of the
 clock, generated ids and the generator's picks are arguments.
 */
module LobbyState {
  import opened Wrappers
  import opened Types
  import opened Ordering
  import opened Shuffle
  import opened Params
  import opened Lobby
  import opened Views
  import opened Answers

  class CoreState {
    var matches: map<Id, MatchRoom>
    var tickets: map<Token, Ticket>

    ghost function View(): Core
      reads this
    {
      Core(matches, tickets)
    }

    constructor ()
      ensures View() == Core(map[], map[])
    {
      matches, tickets := map[], map[];
    }

    // ----- grpc_service.rs -----

    method CreateRoom(mid: Id, now: Unix)
      modifies this
      ensures View() == Lobby.CreateRoom(old(View()), mid, now)
      ensures mid in OpenRooms(View()) && matches[mid].players == map[] && matches[mid].finished == []
    {
      matches := matches[mid := NewRoom(now)];
    }

    method ListRooms() returns (rooms: seq<RoomSummary>)
      ensures rooms == Lobby.ListRooms(View())
      ensures ShowsOpenRooms(rooms, matches)
    {
      var xs: seq<RoomSummary> := [];
      ghost var order: seq<Id> := [];
      ghost var c := View();
      var left := matches.Keys;
      while left != {}
        invariant left <= matches.Keys && View() == c
        invariant Enumerates(order, OpenRooms(c) - left)
        invariant |xs| == |order|
        invariant forall i :: 0 <= i < |order| ==>
          order[i] in c.matches && xs[i] == SummaryOf(order[i], c.matches[order[i]])
        decreases left
      {
        var mid :| mid in left;
        assert left == left - {mid} + {mid};
        left := left - {mid};
        if matches[mid].startedAt == 0 {
          var players := CollectRoomPlayers(matches[mid]);
          xs := xs + [RoomSummary(mid, ROOM_MAX_PLAYERS, players, matches[mid].startedAt)];
          OpenOneMore(order, OpenRooms(c), left, mid);
          order := order + [mid];
        } else {
          assert OpenRooms(c) - left == OpenRooms(c) - (left + {mid});
        }
      }
      assert OpenRooms(c) - left == OpenRooms(c);
      rooms := SortBy(xs, SummaryKey);
      SummariesSorted(c, order, xs);
      ListShowsRooms(c);
    }

    method IssueJoinTicket(mid: Id, name: string, pid: Id, token: Token, now: Unix)
      returns (r: Result<Ticket, LobbyError>)
      modifies this
      ensures (View(), r) == Lobby.IssueJoinTicket(old(View()), mid, name, pid, token, now)
      ensures r == Err(MatchNotFound) <==> mid !in old(matches)
      ensures r == Err(MatchFull) <==> mid in old(matches) && |old(matches)[mid].players| >= 4
      ensures r.Err? ==> View() == old(View())
      ensures r.Ok? ==>
        && r.value == Ticket(mid, pid, if Trim(name) == "" then "player" else name, now + 3600)
        && tickets == old(tickets)[token := r.value]
        && matches == old(matches)[mid := old(matches)[mid].(lastActivity := now)]
    {
      IssueMeaning(View(), mid, name, pid, token, now);
      var displayName := if IsBlank(name) then "player" else name;
      if mid !in matches {
        return Err(MatchNotFound);
      }
      var room := matches[mid];
      if |room.players| >= ROOM_MAX_PLAYERS {
        return Err(MatchFull);
      }
      var expires := now + TOKEN_TTL_SECS;
      matches := matches[mid := room.(lastActivity := now)];
      var ticket := Ticket(mid, pid, displayName, expires);
      tickets := tickets[token := ticket];
      r := Ok(ticket);
    }

    method GetRoom(mid: Id) returns (r: Result<RoomSummary, LobbyError>)
      ensures r.Ok? <==> mid in matches
      ensures r.Err? ==> r.error == MatchNotFound
      ensures r.Ok? ==> ShowsRoom(r.value, mid, matches[mid])
    {
      if mid !in matches {
        return Err(MatchNotFound);
      }
      var players := CollectRoomPlayers(matches[mid]);
      RoomPlayersAreCanonical(matches[mid]);
      r := Ok(RoomSummary(mid, ROOM_MAX_PLAYERS, players, matches[mid].startedAt));
    }

    method DeleteRoom(mid: Id) returns (r: Result<(), LobbyError>)
      modifies this
      ensures (View(), r) == Lobby.DeleteRoom(old(View()), mid)
    {
      if mid !in matches {
        return Err(MatchNotFound);
      }
      matches := matches - {mid};
      tickets := map token | token in tickets && tickets[token].matchId != mid :: tickets[token];
      assert View().tickets == DropRooms(old(View()), {mid}).tickets;
      r := Ok(());
    }

    // ----- ticket.rs -----

    method ConsumeTicket(token: Token, now: Unix) returns (r: Result<Ticket, LobbyError>)
      modifies this
      ensures (View(), r) == Lobby.ConsumeTicket(old(View()), token, now)
      ensures token !in tickets && tickets == old(tickets) - {token} && matches == old(matches)
      ensures r.Ok? <==> token in old(tickets) && now <= old(tickets)[token].expiresAt
      ensures r == Err(InvalidToken) <==> token !in old(tickets)
      ensures r == Err(TokenExpired) <==> token in old(tickets) && old(tickets)[token].expiresAt < now
      ensures r.Ok? ==> r.value == old(tickets)[token]
    {
      if token !in tickets {
        return Err(InvalidToken);
      }
      var ticket := tickets[token];
      tickets := tickets - {token};
      if ticket.expiresAt < now {
        return Err(TokenExpired);
      }
      r := Ok(ticket);
    }

    // ----- player.rs -----

    method RegisterPlayerUdp(mid: Id, pid: Id, name: string, addr: SocketAddr, tx: ChannelId, now: Unix)
      returns (r: Result<PlayerParams, LobbyError>)
      modifies this
      ensures (View(), r) == Lobby.RegisterPlayer(old(View()), mid, pid, name, addr, tx, now)
      ensures r == Err(MatchNotFound) <==> mid !in old(matches)
      ensures r == Err(MatchFull) <==>
        mid in old(matches) && pid !in old(matches)[mid].players && |old(matches)[mid].players| >= 4
      ensures r.Err? ==> View() == old(View())
      ensures r.Ok? ==>
        && OnlyRoom(old(View()), View(), mid) && OnlyPlayer(old(matches)[mid], matches[mid], pid, now)
        && pid in matches[mid].players && matches[mid].players[pid].connection == Some(addr)
        && matches[mid].players[pid].tx == tx && matches[mid].players[pid].params == r.value
    {
      RegisterMeaning(View(), mid, pid, name, addr, tx, now);
      if mid !in matches {
        return Err(MatchNotFound);
      }
      var room := matches[mid];
      if |room.players| >= ROOM_MAX_PLAYERS && pid !in room.players {
        return Err(MatchFull);
      }
      var known := pid in room.players;
      var params := if known then room.players[pid].params else DEFAULT_PARAMS;
      var nextParamChangeAt := if known then room.players[pid].nextParamChangeAt else 0;
      var colorIndex := if known then room.players[pid].colorIndex else None;
      var stageOrder := if known then room.players[pid].stageOrder else [];
      var currentStageIndex := if known then room.players[pid].currentStageIndex else 0;
      var players := room.players[pid :=
        PlayerHandle(name, params, nextParamChangeAt, colorIndex, stageOrder, currentStageIndex, tx, Some(addr))];
      matches := matches[mid := room.(players := players, lastActivity := now)];
      r := Ok(params);
    }

    method RemovePlayer(mid: Id, pid: Id, now: Unix)
      modifies this
      ensures View() == Lobby.RemovePlayer(old(View()), mid, pid, now)
      ensures matches.Keys == old(matches.Keys) && tickets == old(tickets)
      ensures forall m, q :: m in matches ==>
        (q in matches[m].players <==> q in old(matches)[m].players && !(m == mid && q == pid))
    {
      if mid in matches {
        var room := matches[mid];
        matches := matches[mid := room.(players := room.players - {pid}, lastActivity := now)];
      }
    }

    // ----- room.rs -----

    method UpdatePlayerParams(mid: Id, pid: Id, param: ParamKind, direction: ParamDirection, now: Unix, after: Unix)
      returns (r: Result<ParamMutation, LobbyError>)
      modifies this
      ensures (View(), r) == Lobby.UpdatePlayerParams(old(View()), mid, pid, param, direction, now, after)
      ensures r.Ok? <==> ChangeAccepted(old(View()), mid, pid, param, direction, now)
      ensures forall e :: r == Err(e) <==> ChangeRefused(old(View()), mid, pid, param, direction, now, e)
      ensures r.Err? ==> View() == old(View())
      ensures r.Ok? ==>
        && OnlyRoom(old(View()), View(), mid) && OnlyPlayer(old(matches)[mid], matches[mid], pid, after)
        && pid in matches[mid].players && matches[mid].players[pid].nextParamChangeAt == now + 7
        && Moved(old(matches)[mid].players[pid].params, matches[mid].players[pid].params, param, direction)
    {
      UpdateMeaning(View(), mid, pid, param, direction, now, after);
      if mid !in matches {
        return Err(MatchNotFound);
      }
      var room := matches[mid];
      if pid !in room.players {
        return Err(PlayerNotFound);
      }
      var player := room.players[pid];
      r := ApplyParamChange(player.params, player.nextParamChangeAt, param, direction, now);
      if r.Ok? {
        player := player.(params := r.value.params);
        player := player.(nextParamChangeAt := r.value.nextParamChangeAt);
        matches := matches[mid := room.(players := room.players[pid := player], lastActivity := after)];
      }
    }

    method DeleteStaleLobbyRooms(reading: Unix, timeout: nat) returns (stale: seq<Id>)
      modifies this
      ensures View() == SweepStaleRooms(old(View()), reading, timeout)
      ensures Enumerates(stale, StaleRooms(old(View()), reading, timeout))
    {
      ghost var before := View();
      ghost var gone := StaleRooms(before, reading, timeout);
      stale := [];
      var left := matches.Keys;
      while left != {}
        invariant View() == before && left <= matches.Keys
        invariant Enumerates(stale, gone - left)
        decreases left
      {
        var mid :| mid in left;
        left := left - {mid};
        if IsStale(matches[mid], reading, timeout) {
          EnumerateOneMore(stale, gone - left - {mid}, mid);
          stale := stale + [mid];
          assert gone - left - {mid} + {mid} == gone - left;
        } else {
          assert gone - left == gone - left - {mid};
        }
      }
      assert gone - left == gone;
      if stale == [] {
        assert gone == {};
        NothingToDrop(before);
        return;
      }
      for i := 0 to |stale|
        invariant tickets == before.tickets
        invariant matches == before.matches - Elements(stale[..i])
      {
        assert Elements(stale[..i + 1]) == Elements(stale[..i]) + {stale[i]} by {
          assert stale[..i + 1] == stale[..i] + [stale[i]];
        }
        matches := matches - {stale[i]};
      }
      assert stale[..|stale|] == stale;
      assert forall mid :: mid in stale <==> mid in gone by {
        assert forall mid :: mid in stale <==> mid in Elements(stale);
      }
      tickets := map token | token in tickets && tickets[token].matchId !in stale :: tickets[token];
    }

    method StartMatchAndSnapshotPlayers(mid: Id, now: Unix, picks: Picks) returns (r: Result<StartReply, LobbyError>)
      requires StartAccepts(View(), mid, picks)
      modifies this
      ensures (View(), r) == StartMatch(old(View()), mid, now, picks)
      ensures r.Ok? <==> mid in old(matches)
      ensures r.Ok? ==> r.value.justStarted == (old(matches)[mid].startedAt == 0)
      ensures r.Ok? ==> r.value.startedAt == if r.value.justStarted then now else old(matches)[mid].startedAt
    {
      if mid !in matches {
        return Err(MatchNotFound);
      }
      var justStarted := matches[mid].startedAt == 0;
      if justStarted {
        var room := matches[mid].(startedAt := now);
        room := room.(lastActivity := room.startedAt);
        room := AssignRandomizedLayout(room, picks);
        matches := matches[mid := room];
      }
      var players := CollectSnapshot(matches[mid]);
      r := Ok(StartReply(matches[mid].startedAt, justStarted, players));
    }

    method FinishPlayer(mid: Id, pid: Id, now: Unix) returns (r: Result<Standing, LobbyError>)
      modifies this
      ensures (View(), r) == Lobby.FinishPlayer(old(View()), mid, pid, now)
      ensures r.Ok? <==>
        mid in old(matches) && old(matches)[mid].startedAt != 0 && pid in old(matches)[mid].players
      ensures r == Err(MatchNotFound) <==> mid !in old(matches)
      ensures r == Err(MatchNotStarted) <==> mid in old(matches) && old(matches)[mid].startedAt == 0
      ensures r == Err(PlayerNotFound) <==>
        mid in old(matches) && old(matches)[mid].startedAt != 0 && pid !in old(matches)[mid].players
      ensures r.Err? ==> View() == old(View())
      ensures r.Ok? ==>
        && OnlyRoom(old(View()), View(), mid) && matches[mid].players == old(matches)[mid].players
        && matches[mid].finished ==
           old(matches)[mid].finished + (if pid in old(matches)[mid].finished then [] else [pid])
        && 1 <= r.value.rank <= r.value.finishedCount == |matches[mid].finished|
        && matches[mid].finished[r.value.rank - 1] == pid && r.value.totalPlayers == |matches[mid].players|
    {
      FinishMeaning(View(), mid, pid, now);
      if mid !in matches {
        return Err(MatchNotFound);
      }
      var room := matches[mid];
      if room.startedAt == 0 {
        return Err(MatchNotStarted);
      }
      if pid !in room.players {
        return Err(PlayerNotFound);
      }
      var rank;
      match Position(room.finished, pid) {
        case Some(index) =>
          rank := index + 1;
        case None =>
          room := room.(finished := room.finished + [pid]);
          room := room.(lastActivity := now);
          matches := matches[mid := room];
          rank := |room.finished|;
      }
      r := Ok(Standing(rank, |room.finished|, |room.players|));
    }

    /** The channels a broadcast clones under the lock, in the map's order. */
    method ReliableSenders(mid: Id) returns (senders: seq<ChannelId>)
      ensures mid !in matches ==> senders == []
      ensures mid in matches ==> SendersOf(senders, matches[mid].players)
    {
      senders := [];
      if mid !in matches { return; }
      var players := matches[mid].players;
      ghost var order: seq<Id> := [];
      var left := players.Keys;
      while left != {}
        invariant left <= players.Keys && Enumerates(order, players.Keys - left) && InOrder(senders, players, order)
        decreases left
      {
        var pid :| pid in left;
        left := left - {pid};
        EnumerateOneMore(order, players.Keys - left - {pid}, pid);
        assert players.Keys - left - {pid} + {pid} == players.Keys - left;
        senders, order := senders + [players[pid].tx], order + [pid];
      }
      assert players.Keys - left == players.Keys;
      assert Enumerates(order, players.Keys);
    }

    /** The addresses an unreliable packet is sent to: one for each connected member but the excepted one. */
    method DatagramAddrs(mid: Id, except: Option<Id>) returns (addrs: seq<SocketAddr>)
      ensures mid !in matches ==> addrs == []
      ensures mid in matches ==> AddrsOf(addrs, matches[mid].players, except)
    {
      addrs := [];
      if mid !in matches { return; }
      var players := matches[mid].players;
      ghost var order: seq<Id> := [];
      var left := players.Keys;
      while left != {}
        invariant left <= players.Keys
        invariant Enumerates(order, Receivers(players, except) - left) && AddrsInOrder(addrs, players, order)
        decreases left
      {
        var pid :| pid in left;
        assert left == left - {pid} + {pid};
        left := left - {pid};
        var p := players[pid];
        if Some(pid) != except && p.connection.Some? {
          OpenOneMore(order, Receivers(players, except), left, pid);
          addrs, order := addrs + [p.connection.value], order + [pid];
        } else {
          assert Receivers(players, except) - left == Receivers(players, except) - (left + {pid});
        }
      }
      assert Receivers(players, except) - left == Receivers(players, except);
    }
  }

  ghost predicate AddrsInOrder(addrs: seq<SocketAddr>, players: map<Id, PlayerHandle>, order: seq<Id>) {
    && |addrs| == |order|
    && forall i :: 0 <= i < |order| ==> order[i] in players && players[order[i]].connection == Some(addrs[i])
  }

  /** One address per receiver, in some order; two receivers at one address are both sent to. */
  ghost predicate AddrsOf(addrs: seq<SocketAddr>, players: map<Id, PlayerHandle>, except: Option<Id>) {
    exists order :: Enumerates(order, Receivers(players, except)) && AddrsInOrder(addrs, players, order)
  }

  /** As many packets leave as there are receivers, and they go to the receivers' addresses. */
  lemma AddrsAreTargets(addrs: seq<SocketAddr>, room: MatchRoom, except: Option<Id>)
    requires AddrsOf(addrs, room.players, except)
    ensures |addrs| == |Receivers(room.players, except)|
    ensures Elements(addrs) == DatagramTargets(room, except)
  {
    var order :| Enumerates(order, Receivers(room.players, except)) && AddrsInOrder(addrs, room.players, order);
    EnumerationLength(order, Receivers(room.players, except));
    forall a | a in addrs ensures a in DatagramTargets(room, except) {
      var i :| 0 <= i < |addrs| && addrs[i] == a;
      assert order[i] in Elements(order);
    }
    forall a | a in DatagramTargets(room, except) ensures a in addrs {
      var pid :| pid in Receivers(room.players, except) && room.players[pid].connection.value == a;
      assert pid in Elements(order);
      var i :| 0 <= i < |order| && order[i] == pid;
      assert addrs[i] == a;
    }
  }

  ghost predicate InOrder(senders: seq<ChannelId>, players: map<Id, PlayerHandle>, order: seq<Id>) {
    && |senders| == |order|
    && forall i :: 0 <= i < |order| ==> order[i] in players && senders[i] == players[order[i]].tx
  }

  /** One sender per player, in some order. */
  ghost predicate SendersOf(senders: seq<ChannelId>, players: map<Id, PlayerHandle>) {
    exists order :: Enumerates(order, players.Keys) && InOrder(senders, players, order)
  }

  lemma EnumerateOneMore(order: seq<Id>, keys: set<Id>, id: Id)
    requires Enumerates(order, keys) && id !in keys
    ensures Enumerates(order + [id], keys + {id})
  {
  }

  lemma OpenOneMore(order: seq<Id>, open: set<Id>, left: set<Id>, mid: Id)
    requires Enumerates(order, open - (left + {mid})) && mid in open && mid !in left
    ensures Enumerates(order + [mid], open - left)
  {
    EnumerateOneMore(order, open - (left + {mid}), mid);
    assert open - (left + {mid}) + {mid} == open - left;
  }

  lemma NothingToDrop(c: Core)
    ensures DropRooms(c, {}) == c
  {
  }

  lemma SortedEntriesInKeys(keys: set<Id>)
    ensures forall i :: 0 <= i < |keys| ==> SortedKeys(keys)[i] in keys
  {
  }

  /** The keys of the players, collected in the map's order and sorted. */
  method SortedPlayerIds(players: map<Id, PlayerHandle>) returns (ids: seq<Id>)
    ensures ids == SortedKeys(players.Keys)
  {
    var order: seq<Id> := [];
    var left := players.Keys;
    while left != {}
      invariant left <= players.Keys && Enumerates(order, players.Keys - left)
      decreases left
    {
      var pid :| pid in left;
      left := left - {pid};
      EnumerateOneMore(order, players.Keys - left - {pid}, pid);
      assert players.Keys - left - {pid} + {pid} == players.Keys - left;
      order := order + [pid];
    }
    assert players.Keys - left == players.Keys;
    ids := SortBy(order, Self);
    IdsSorted(order, players.Keys);
  }

  lemma IdsSorted(order: seq<Id>, keys: set<Id>)
    requires Enumerates(order, keys)
    ensures SortBy(order, Self) == SortedKeys(keys)
  {
    SortIsCanonical(order, keys, order, Self, Self, SortedKeys(keys));
  }

  /** Whatever order the map was read in, sorting gives the canonical list. */
  lemma RoomPlayersSorted(room: MatchRoom, order: seq<Id>, xs: seq<RoomPlayer>)
    requires Enumerates(order, room.players.Keys) && |xs| == |order|
    requires forall i :: 0 <= i < |order| ==>
      order[i] in room.players && xs[i] == RoomPlayerOf(order[i], room.players[order[i]])
    ensures SortBy(xs, PlayerKey) == Lobby.RoomPlayers(room)
  {
    var keys := room.players.Keys;
    var entry := (id: Id) =>
      if id in room.players then RoomPlayerOf(id, room.players[id]) else RoomPlayer(id, "", 0, 0, 0, 0);
    var want := Lobby.RoomPlayers(room);
    assert |room.players| == |keys|;
    forall i | 0 <= i < |keys| ensures want[i] == entry(SortedKeys(keys)[i]) {
      assert SortedKeys(keys)[i] in Elements(SortedKeys(keys));
    }
    SortIsCanonical(order, keys, xs, entry, PlayerKey, want);
  }

  method CollectRoomPlayers(room: MatchRoom) returns (players: seq<RoomPlayer>)
    ensures players == Lobby.RoomPlayers(room)
  {
    var xs: seq<RoomPlayer> := [];
    ghost var order: seq<Id> := [];
    var left := room.players.Keys;
    while left != {}
      invariant left <= room.players.Keys && Enumerates(order, room.players.Keys - left)
      invariant |xs| == |order|
      invariant forall i :: 0 <= i < |order| ==>
        order[i] in room.players && xs[i] == RoomPlayerOf(order[i], room.players[order[i]])
      decreases left
    {
      var id :| id in left;
      left := left - {id};
      xs := xs + [RoomPlayerOf(id, room.players[id])];
      EnumerateOneMore(order, room.players.Keys - left - {id}, id);
      assert room.players.Keys - left - {id} + {id} == room.players.Keys - left;
      order := order + [id];
    }
    assert room.players.Keys - left == room.players.Keys;
    players := SortBy(xs, PlayerKey);
    RoomPlayersSorted(room, order, xs);
  }

  /** Whatever order the map was read in, sorting gives the canonical list. */
  lemma SnapshotSorted(room: MatchRoom, order: seq<Id>, xs: seq<PlayerMatchState>)
    requires Enumerates(order, room.players.Keys) && |xs| == |order|
    requires forall i :: 0 <= i < |order| ==>
      order[i] in room.players && xs[i] == SnapshotOf(order[i], room.players[order[i]])
    ensures SortBy(xs, StateKey) == Lobby.SnapshotPlayers(room)
  {
    var keys := room.players.Keys;
    var entry := (id: Id) =>
      if id in room.players then SnapshotOf(id, room.players[id]) else PlayerMatchState(id, "", 0, [], 0);
    var want := Lobby.SnapshotPlayers(room);
    assert |room.players| == |keys|;
    forall i | 0 <= i < |keys| ensures want[i] == entry(SortedKeys(keys)[i]) {
      assert SortedKeys(keys)[i] in Elements(SortedKeys(keys));
    }
    SortIsCanonical(order, keys, xs, entry, StateKey, want);
  }

  method CollectSnapshot(room: MatchRoom) returns (players: seq<PlayerMatchState>)
    ensures players == Lobby.SnapshotPlayers(room)
  {
    var xs: seq<PlayerMatchState> := [];
    ghost var order: seq<Id> := [];
    var left := room.players.Keys;
    while left != {}
      invariant left <= room.players.Keys && Enumerates(order, room.players.Keys - left)
      invariant |xs| == |order|
      invariant forall i :: 0 <= i < |order| ==>
        order[i] in room.players && xs[i] == SnapshotOf(order[i], room.players[order[i]])
      decreases left
    {
      var id :| id in left;
      left := left - {id};
      xs := xs + [SnapshotOf(id, room.players[id])];
      EnumerateOneMore(order, room.players.Keys - left - {id}, id);
      assert room.players.Keys - left - {id} + {id} == room.players.Keys - left;
      order := order + [id];
    }
    assert room.players.Keys - left == room.players.Keys;
    players := SortBy(xs, StateKey);
    SnapshotSorted(room, order, xs);
  }

  lemma SummariesSorted(c: Core, order: seq<Id>, xs: seq<RoomSummary>)
    requires Enumerates(order, OpenRooms(c)) && |xs| == |order|
    requires forall i :: 0 <= i < |order| ==> order[i] in c.matches && xs[i] == SummaryOf(order[i], c.matches[order[i]])
    ensures SortBy(xs, SummaryKey) == Lobby.ListRooms(c)
  {
    var keys := OpenRooms(c);
    var entry := (mid: Id) => if mid in c.matches then SummaryOf(mid, c.matches[mid]) else RoomSummary(mid, 0, [], 0);
    var want := Lobby.ListRooms(c);
    forall i | 0 <= i < |keys| ensures want[i] == entry(SortedKeys(keys)[i]) {
      assert SortedKeys(keys)[i] in Elements(SortedKeys(keys));
    }
    SortIsCanonical(order, keys, xs, entry, SummaryKey, want);
  }

  /** One shuffled run of stages out of the pool. */
  method DrawStages(picks: seq<nat>) returns (order: seq<u8>)
    requires ValidPicks(picks, MATCH_STAGE_POOL_SIZE)
    ensures order == StageOrder(picks)
  {
    var stages := new u8[MATCH_STAGE_POOL_SIZE](i requires 0 <= i < MATCH_STAGE_POOL_SIZE => i as u8);
    assert stages[..] == Range(MATCH_STAGE_POOL_SIZE);
    ShuffleInPlace(stages, picks);
    order := stages[..MATCH_STAGE_ORDER_LEN];
    assert order == stages[..][..MATCH_STAGE_ORDER_LEN];
  }

  method DrawColours(picks: seq<nat>) returns (order: seq<u8>)
    requires ValidPicks(picks, ROOM_MAX_PLAYERS)
    ensures order == Colours(picks)
  {
    var colours := new u8[ROOM_MAX_PLAYERS](i requires 0 <= i < ROOM_MAX_PLAYERS => i as u8);
    assert colours[..] == Range(ROOM_MAX_PLAYERS);
    ShuffleInPlace(colours, picks);
    order := colours[..];
  }

  /** A deal is determined by the positions in id order. */
  lemma DealIsByPosition(
    players: map<Id, PlayerHandle>, colours: seq<u8>, stages: seq<seq<u8>>, ids: seq<Id>, dealt: map<Id, PlayerHandle>)
    requires |stages| == |players| == |ids| && ids == SortedKeys(players.Keys)
    requires dealt.Keys == players.Keys
    requires forall i :: 0 <= i < |ids| ==> ids[i] in players.Keys
    requires forall i :: 0 <= i < |ids| ==> dealt[ids[i]] == DealTo(players[ids[i]], i, colours, stages[i])
    ensures dealt == DealWith(players, colours, stages)
  {
    forall id | id in dealt ensures dealt[id] == DealWith(players, colours, stages)[id] {
      var i := IndexIn(ids, id);
      assert dealt[ids[i]] == DealTo(players[ids[i]], i, colours, stages[i]);
    }
  }

  /** Deal a shuffled colour to each player in id order, and each a shuffled run of stages. */
  method AssignRandomizedLayout(room: MatchRoom, picks: Picks) returns (dealt: MatchRoom)
    requires Fits(picks, |room.players|)
    ensures dealt == room.(players := Deal(room.players, picks))
  {
    var ids := SortedPlayerIds(room.players);
    var colours := DrawColours(picks.colours);
    assert |room.players| == |room.players.Keys|;
    SortedEntriesInKeys(room.players.Keys);
    SortedKeysDiffer(room.players.Keys);
    var players := DealHands(room.players, picks.stages, ids, colours);
    DealIsByPosition(room.players, colours, StageOrders(picks.stages), ids, players);
    dealt := room.(players := players);
  }

  method DealHands(hands: map<Id, PlayerHandle>, picks: seq<seq<nat>>, ids: seq<Id>, colours: seq<u8>)
    returns (players: map<Id, PlayerHandle>)
    requires |picks| == |ids| && Distinct(ids)
    requires forall i | 0 <= i < |picks| :: ValidPicks(picks[i], MATCH_STAGE_POOL_SIZE)
    requires forall i :: 0 <= i < |ids| ==> ids[i] in hands.Keys
    ensures players.Keys == hands.Keys
    ensures forall i :: 0 <= i < |ids| ==>
      players[ids[i]] == DealTo(hands[ids[i]], i, colours, StageOrders(picks)[i])
  {
    players := hands;
    ghost var stages := StageOrders(picks);
    for index := 0 to |ids|
      invariant players.Keys == hands.Keys
      invariant forall i :: 0 <= i < index ==> players[ids[i]] == DealTo(hands[ids[i]], i, colours, stages[i])
      invariant forall i :: index <= i < |ids| ==> players[ids[i]] == hands[ids[i]]
    {
      var order := DrawStages(picks[index]);
      players := players[ids[index] := DealTo(hands[ids[index]], index, colours, order)];
    }
  }
}
