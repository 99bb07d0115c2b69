/** What every lock section keeps of a room: capacity, levels in bounds, and the dealt layout. */
module Rooms {
  import opened Wrappers
  import opened Types
  import opened Ordering
  import opened Shuffle
  import opened Params
  import opened Lobby
  import opened Views
  import opened World
  import opened Identity

  predicate Undealt(p: PlayerHandle) {
    p.colorIndex == None && p.stageOrder == []
  }

  /** A full hand: a colour of the palette and four different stages of the pool. */
  ghost predicate Dealt(p: PlayerHandle) {
    && p.colorIndex.Some? && p.colorIndex.value < 4
    && |p.stageOrder| == 4 && Distinct(p.stageOrder)
    && (forall stage | stage in p.stageOrder :: stage < 5)
  }

  ghost predicate ColoursDiffer(players: map<Id, PlayerHandle>) {
    forall p, q ::
      (p in players && q in players && p != q && players[p].colorIndex.Some? && players[q].colorIndex.Some?) ==>
      players[p].colorIndex != players[q].colorIndex
  }

  ghost predicate PlayerOk(p: PlayerHandle) {
    InBounds(p.params) && p.currentStageIndex == 0 && (Dealt(p) || Undealt(p))
  }

  ghost predicate RoomOk(room: MatchRoom) {
    && |room.players| <= 4
    && (forall pid :: pid in room.players ==> PlayerOk(room.players[pid]))
    && ColoursDiffer(room.players)
  }

  ghost predicate RoomsOk(c: Core) {
    forall mid :: mid in c.matches ==> RoomOk(c.matches[mid])
  }

  lemma StageOrderIsDistinct(picks: seq<nat>)
    requires ValidPicks(picks, MATCH_STAGE_POOL_SIZE)
    ensures |StageOrder(picks)| == 4 && Distinct(StageOrder(picks))
    ensures forall stage | stage in StageOrder(picks) :: stage < 5
  {
    ShufflePermutes(Range(MATCH_STAGE_POOL_SIZE), picks);
    var all := Shuffled(Range(MATCH_STAGE_POOL_SIZE), picks);
    assert forall stage :: stage in all[..4] ==> stage in all;
  }

  /**
   With at most four players no colour index misses: for any picks everyone gets a full hand,
   and all colours differ.
   */
  lemma DealGivesEveryoneAHand(players: map<Id, PlayerHandle>, picks: Picks)
    requires |players| <= 4 && Fits(picks, |players|)
    ensures var r := Deal(players, picks);
      && (forall pid :: pid in r ==> Dealt(r[pid]) && r[pid].currentStageIndex == 0)
      && (forall p, q :: p in r && q in r && p != q ==> r[p].colorIndex != r[q].colorIndex)
  {
    var r := Deal(players, picks);
    forall pid | pid in r ensures Dealt(r[pid]) && r[pid].currentStageIndex == 0 {
      var _ := HandOf(players, picks, pid);
    }
    forall p, q | p in r && q in r && p != q ensures r[p].colorIndex != r[q].colorIndex {
      var i := HandOf(players, picks, p);
      var j := HandOf(players, picks, q);
      ShufflePermutes(Range(ROOM_MAX_PLAYERS), picks.colours);
    }
  }

  lemma HandOf(players: map<Id, PlayerHandle>, picks: Picks, pid: Id) returns (index: nat)
    requires |players| <= 4 && Fits(picks, |players|) && pid in players
    ensures index < 4 && index < |SortedKeys(players.Keys)| && SortedKeys(players.Keys)[index] == pid
    ensures var p := Deal(players, picks)[pid];
      Dealt(p) && p.currentStageIndex == 0
      && p.colorIndex == Some(Colours(picks.colours)[index]) && p.stageOrder == StageOrder(picks.stages[index])
  {
    var ids := SortedKeys(players.Keys);
    var colours := Colours(picks.colours);
    ShufflePermutes(Range(ROOM_MAX_PLAYERS), picks.colours);
    assert |players| == |players.Keys|;
    assert pid in Elements(ids);
    index := IndexIn(ids, pid);
    StageOrderIsDistinct(picks.stages[index]);
    assert colours[index] in colours;
  }

  lemma DealKeepsPlayers(players: map<Id, PlayerHandle>, picks: Picks)
    requires |players| <= 4 && Fits(picks, |players|)
    requires forall pid :: pid in players ==> InBounds(players[pid].params)
    ensures var r := Deal(players, picks);
      |r| <= 4 && ColoursDiffer(r) && forall pid :: pid in r ==> PlayerOk(r[pid])
  {
    var r := Deal(players, picks);
    DealGivesEveryoneAHand(players, picks);
    assert |r| == |r.Keys| && |players| == |players.Keys|;
    forall pid | pid in r ensures PlayerOk(r[pid]) {
      assert SameButHand(players[pid], r[pid]);
    }
  }

  /**
   A start that deals: the roster broadcast lists exactly the members at that moment, in id
   order, everyone with the colour and stages just dealt to them, all colours different.
   */
  lemma StartDealsEveryone(c: Core, mid: Id, now: Unix, picks: Picks)
    requires StartAccepts(c, mid, picks)
    requires mid in c.matches && |c.matches[mid].players| <= 4
    ensures var (d, r) := StartMatch(c, mid, now, picks);
      && r.Ok?
      && (r.value.justStarted <==> c.matches[mid].startedAt == 0)
      && mid in d.matches && r.value.startedAt == d.matches[mid].startedAt
      && d.matches[mid].players.Keys == c.matches[mid].players.Keys
      && Canonical(r.value.players, StateKey, d.matches[mid].players.Keys)
      && (forall s :: s in r.value.players ==>
            s.playerId in d.matches[mid].players && ShowsHand(s, d.matches[mid].players[s.playerId]))
      && (r.value.justStarted ==>
            && (forall pid :: pid in d.matches[mid].players ==> Dealt(d.matches[mid].players[pid]))
            && (forall i, j :: 0 <= i < j < |r.value.players| ==>
                  r.value.players[i].colorIndex != r.value.players[j].colorIndex))
  {
    var (d, r) := StartMatch(c, mid, now, picks);
    var room := d.matches[mid];
    if r.value.justStarted {
      DealGivesEveryoneAHand(c.matches[mid].players, picks);
    }
    SnapshotIsCanonical(room);
    var ids := SortedKeys(room.players.Keys);
    SortedKeysDiffer(room.players.Keys);
    forall i, j | r.value.justStarted && 0 <= i < j < |r.value.players|
      ensures r.value.players[i].colorIndex != r.value.players[j].colorIndex
    {
      assert ids[i] in Elements(ids) && ids[j] in Elements(ids);
    }
  }

  lemma RoomsOkKept(c: Core, op: Op)
    requires RoomsOk(c) && (op.Start? ==> StartAccepts(c, op.mid, op.picks))
    ensures RoomsOk(CoreAfter(c, op))
  {
    match op
    case Register(mid, pid, name, addr, tx, now) =>
      RegisterKeepsRooms(c, mid, pid, name, addr, tx, now);
    case Remove(mid, pid, now) =>
      RemoveKeepsRooms(c, mid, pid, now);
    case Update(mid, pid, param, direction, now, after) =>
      UpdateKeepsRooms(c, mid, pid, param, direction, now, after);
    case Start(mid, now, picks) =>
      StartKeepsRooms(c, mid, now, picks);
    case _ =>
  }

  /** A good player whose colour is its own, or none, may take the place of `pid`. */
  lemma PutKeepsRoom(room: MatchRoom, after: MatchRoom, pid: Id, player: PlayerHandle)
    requires RoomOk(room) && PlayerOk(player) && after.players == room.players[pid := player]
    requires |room.players| < 4 || pid in room.players
    requires player.colorIndex == (if pid in room.players then room.players[pid].colorIndex else None)
    ensures RoomOk(after)
  {
  }

  lemma RegisterKeepsRooms(c: Core, mid: Id, pid: Id, name: string, addr: SocketAddr, tx: ChannelId, now: Unix)
    requires RoomsOk(c)
    ensures RoomsOk(RegisterPlayer(c, mid, pid, name, addr, tx, now).0)
  {
    var d := RegisterPlayer(c, mid, pid, name, addr, tx, now).0;
    if d != c {
      var after := d.matches[mid];
      assert pid in c.matches[mid].players ==> PlayerOk(c.matches[mid].players[pid]);
      PutKeepsRoom(c.matches[mid], after, pid, after.players[pid]);
    }
  }

  lemma RemoveKeepsRooms(c: Core, mid: Id, pid: Id, now: Unix)
    requires RoomsOk(c)
    ensures RoomsOk(RemovePlayer(c, mid, pid, now))
  {
  }

  lemma UpdateKeepsRooms(
    c: Core, mid: Id, pid: Id, param: ParamKind, direction: ParamDirection, now: Unix, after: Unix)
    requires RoomsOk(c)
    ensures RoomsOk(UpdatePlayerParams(c, mid, pid, param, direction, now, after).0)
  {
    var d := UpdatePlayerParams(c, mid, pid, param, direction, now, after).0;
    if d != c {
      var p := c.matches[mid].players[pid];
      ChangeMeaning(p.params, p.nextParamChangeAt, param, direction, now);
      assert PlayerOk(p);
      PutKeepsRoom(c.matches[mid], d.matches[mid], pid, d.matches[mid].players[pid]);
    }
  }

  lemma StartKeepsRooms(c: Core, mid: Id, now: Unix, picks: Picks)
    requires RoomsOk(c) && StartAccepts(c, mid, picks)
    ensures RoomsOk(StartMatch(c, mid, now, picks).0)
  {
    if mid in c.matches && c.matches[mid].startedAt == 0 {
      assert forall pid :: pid in c.matches[mid].players ==> PlayerOk(c.matches[mid].players[pid]);
      DealKeepsPlayers(c.matches[mid].players, picks);
    }
  }

  // ----- layouts over runs -----

  /** One step neither restarts a started room nor touches a hand in it. */
  lemma NextKeepsHands(w: World, v: World, mid: Id)
    requires Next(w, v) && Agree(w)
    requires HasRoom(w, mid) && w.core.matches[mid].startedAt != 0 && HasRoom(v, mid)
    ensures v.core.matches[mid].startedAt == w.core.matches[mid].startedAt
    ensures forall pid :: InRoom(w, mid, pid) && InRoom(v, mid, pid) ==>
              SameHand(PlayerAt(w, mid, pid), PlayerAt(v, mid, pid))
  {
    if v != w {
      var op :| Permitted(w, op) && v == Do(w, op);
      StartedRoomKept(w.core, op, mid);
    }
  }

  lemma StartedRoomKept(c: Core, op: Op, mid: Id)
    requires op.Start? ==> StartAccepts(c, op.mid, op.picks)
    requires op.Create? ==> op.mid != mid
    requires mid in c.matches && c.matches[mid].startedAt != 0 && mid in CoreAfter(c, op).matches
    ensures var before, after := c.matches[mid], CoreAfter(c, op).matches[mid];
      && after.startedAt == before.startedAt
      && forall pid :: pid in before.players && pid in after.players ==>
           SameHand(before.players[pid], after.players[pid])
  {
  }

  predicate SameHand(p: PlayerHandle, q: PlayerHandle) {
    p.colorIndex == q.colorIndex && p.stageOrder == q.stageOrder && p.currentStageIndex == q.currentStageIndex
  }

  /** A match id is never used for a second room. */
  lemma NextNeverReopens(w: World, v: World, mid: Id)
    requires Next(w, v) && mid in w.mids && !HasRoom(w, mid)
    ensures mid in v.mids && !HasRoom(v, mid)
  {
  }

  lemma {:induction false} RoomsNeverReturn(ws: seq<World>, i: nat, j: nat, mid: Id)
    requires Trace(ws) && i <= j < |ws| && mid in ws[i].mids && !HasRoom(ws[i], mid)
    ensures mid in ws[j].mids && !HasRoom(ws[j], mid)
    decreases j
  {
    if i < j {
      RoomsNeverReturn(ws, i, j - 1, mid);
      assert StepAt(ws, j - 1);
      NextNeverReopens(ws[j - 1], ws[j], mid);
    }
  }

  /**
   Once a match has started, a player keeps colour, stages and stage index for as long as both
   are there, and the start time never changes; a late joiner keeps the empty hand.
   */
  lemma {:induction false} HandsNeverChange(ws: seq<World>, i: nat, j: nat, mid: Id, pid: Id)
    requires Trace(ws) && i <= j < |ws|
    requires HasRoom(ws[i], mid) && ws[i].core.matches[mid].startedAt != 0 && HasRoom(ws[j], mid)
    ensures ws[j].core.matches[mid].startedAt == ws[i].core.matches[mid].startedAt
    ensures InRoom(ws[i], mid, pid) && InRoom(ws[j], mid, pid) ==>
              SameHand(PlayerAt(ws[i], mid, pid), PlayerAt(ws[j], mid, pid))
    decreases j
  {
    if i < j {
      TraceAgrees(ws, i);
      TraceAgrees(ws, j);
      TraceAgrees(ws, j - 1);
      StillThere(ws, i, j, mid, pid);
      HandsNeverChange(ws, i, j - 1, mid, pid);
      assert StepAt(ws, j - 1);
      NextKeepsHands(ws[j - 1], ws[j], mid);
    }
  }

  lemma StillThere(ws: seq<World>, i: nat, j: nat, mid: Id, pid: Id)
    requires Trace(ws) && i < j < |ws| && HasRoom(ws[i], mid) && HasRoom(ws[j], mid)
    requires Agree(ws[i]) && Agree(ws[j]) && Agree(ws[j - 1])
    ensures HasRoom(ws[j - 1], mid)
    ensures InRoom(ws[i], mid, pid) && InRoom(ws[j], mid, pid) ==> InRoom(ws[j - 1], mid, pid)
  {
    MidsGrow(ws, i, j - 1);
    if !HasRoom(ws[j - 1], mid) {
      RoomsNeverReturn(ws, j - 1, j, mid);
    }
    if InRoom(ws[i], mid, pid) && InRoom(ws[j], mid, pid) {
      LifeOnlyAdvances(ws, i, j - 1);
      LifeOnlyAdvances(ws, j - 1, j);
      assert SeatOf(ws[i], mid, pid) == Some(ws[i].life[pid]);
      assert SeatOf(ws[j], mid, pid) == Some(ws[j].life[pid]);
    }
  }

  lemma {:induction false} MidsGrow(ws: seq<World>, i: nat, j: nat)
    requires Trace(ws) && i <= j < |ws|
    ensures ws[i].mids <= ws[j].mids
    decreases j
  {
    if i < j {
      MidsGrow(ws, i, j - 1);
      assert StepAt(ws, j - 1);
    }
  }
}
