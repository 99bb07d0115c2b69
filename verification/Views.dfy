/** The sorted views of rooms and players, against the state they show. */
module Views {
  import opened Wrappers
  import opened Types
  import opened Ordering
  import opened Lobby

  /** An entry shows its player's name and hand; a player without a colour shows colour 0. */
  predicate ShowsHand(e: PlayerMatchState, p: PlayerHandle) {
    && e.displayName == p.displayName
    && (p.colorIndex == Some(e.colorIndex) || (p.colorIndex.None? && e.colorIndex == 0))
    && e.stageOrder == p.stageOrder && e.currentStageIndex == p.currentStageIndex
  }

  /** The snapshot has one entry per player, in id order. */
  lemma SnapshotIsCanonical(room: MatchRoom)
    ensures var xs := SnapshotPlayers(room);
      && Canonical(xs, StateKey, room.players.Keys)
      && (forall e :: e in xs ==> e.playerId in room.players && ShowsHand(e, room.players[e.playerId]))
  {
    var xs := SnapshotPlayers(room);
    var ids := SortedKeys(room.players.Keys);
    assert |room.players| == |room.players.Keys|;
    SortedListIsCanonical(room.players.Keys, xs, StateKey);
    forall e | e in xs ensures e.playerId in room.players && ShowsHand(e, room.players[e.playerId]) {
      var i :| 0 <= i < |xs| && xs[i] == e;
      assert ids[i] in Elements(ids);
    }
  }

  predicate ShowsPlayer(e: RoomPlayer, p: PlayerHandle) {
    && e.displayName == p.displayName && e.nextParamChangeAt == p.nextParamChangeAt
    && e.gravity == p.params.gravity && e.friction == p.params.friction && e.speed == p.params.speed
  }

  /** The players of a room are listed in id order, each once, with their own data. */
  lemma RoomPlayersAreCanonical(room: MatchRoom)
    ensures var xs := RoomPlayers(room);
      && Canonical(xs, PlayerKey, room.players.Keys)
      && (forall e :: e in xs ==> e.playerId in room.players && ShowsPlayer(e, room.players[e.playerId]))
  {
    SortedListIsCanonical(room.players.Keys, RoomPlayers(room), PlayerKey);
  }

  /** The list of rooms holds exactly the unstarted ones, in id order, each once. */
  lemma ListIsCanonical(c: Core)
    ensures Canonical(ListRooms(c), SummaryKey, OpenRooms(c))
    ensures forall e :: e in ListRooms(c) ==> ListedRight(c, e)
    ensures forall mid :: mid in OpenRooms(c) <==> mid in c.matches && c.matches[mid].startedAt == 0
  {
    ListEntries(c);
    SortedListIsCanonical(OpenRooms(c), ListRooms(c), SummaryKey);
  }

  ghost predicate ListedRight(c: Core, e: RoomSummary) {
    && e.matchId in c.matches && c.matches[e.matchId].startedAt == 0 == e.startedAt && e.maxPlayers == 4
    && e.players == RoomPlayers(c.matches[e.matchId])
  }

  lemma ListEntries(c: Core)
    ensures forall i :: 0 <= i < |OpenRooms(c)| ==>
      ListedRight(c, ListRooms(c)[i]) && SummaryKey(ListRooms(c)[i]) == SortedKeys(OpenRooms(c))[i]
  {
    var ids := SortedKeys(OpenRooms(c));
    forall i | 0 <= i < |ids|
      ensures ListedRight(c, ListRooms(c)[i]) && SummaryKey(ListRooms(c)[i]) == ids[i]
    {
      assert ids[i] in Elements(ids);
    }
  }

  /** A room's summary: its own id, capacity and start stamp, and its players as they are. */
  ghost predicate ShowsRoom(e: RoomSummary, mid: Id, room: MatchRoom) {
    && e.matchId == mid && e.maxPlayers == 4 && e.startedAt == room.startedAt
    && Canonical(e.players, PlayerKey, room.players.Keys)
    && (forall p :: p in e.players ==> p.playerId in room.players && ShowsPlayer(p, room.players[p.playerId]))
  }

  /** Of every room, started or not. */
  lemma SummaryMeaning(mid: Id, room: MatchRoom)
    ensures ShowsRoom(SummaryOf(mid, room), mid, room)
  {
    RoomPlayersAreCanonical(room);
  }

  /** The list of the unstarted rooms, in id order, each as it is. */
  ghost predicate ShowsOpenRooms(rooms: seq<RoomSummary>, matches: map<Id, MatchRoom>) {
    && Canonical(rooms, SummaryKey, set mid | mid in matches && matches[mid].startedAt == 0)
    && forall e :: e in rooms ==> e.matchId in matches && ShowsRoom(e, e.matchId, matches[e.matchId])
  }

  lemma ListShowsRooms(c: Core)
    ensures ShowsOpenRooms(ListRooms(c), c.matches)
  {
    ListIsCanonical(c);
    assert OpenRooms(c) == set mid | mid in c.matches && c.matches[mid].startedAt == 0;
    forall e | e in ListRooms(c) ensures e.matchId in c.matches && ShowsRoom(e, e.matchId, c.matches[e.matchId]) {
      RoomPlayersAreCanonical(c.matches[e.matchId]);
    }
  }
}
