/** Ranks are the order of first finishes, over the whole run of a match. */
module Ranks {
  import opened Wrappers
  import opened Types
  import opened Ordering
  import opened Shuffle
  import opened Lobby
  import opened World
  import opened Identity

  predicate IsFinish(e: Event, mid: Id) {
    e.Finished? && e.mid == mid
  }

  /** Everyone a log shows finishing a match, without order. */
  ghost function FinisherSet(log: seq<Event>, mid: Id): set<Id> {
    set k | 0 <= k < |log| && IsFinish(log[k], mid) :: log[k].pid
  }

  /** The players in the order in which each finished for the first time. */
  ghost function Finishers(log: seq<Event>, mid: Id): seq<Id> {
    if log == [] then []
    else
      var earlier := Finishers(log[..|log| - 1], mid);
      var e := log[|log| - 1];
      if IsFinish(e, mid) && e.pid !in earlier then earlier + [e.pid] else earlier
  }

  lemma FinishersAppend(log: seq<Event>, e: Event, mid: Id)
    ensures Finishers(log + [e], mid) ==
            Finishers(log, mid) + (if IsFinish(e, mid) && e.pid !in Finishers(log, mid) then [e.pid] else [])
  {
  }

  lemma FinishersAreDistinct(log: seq<Event>, mid: Id)
    ensures Distinct(Finishers(log, mid))
    ensures Elements(Finishers(log, mid)) == FinisherSet(log, mid)
    ensures |Finishers(log, mid)| == |FinisherSet(log, mid)|
  {
    FinishersEnumerate(log, mid);
    EnumerationLength(Finishers(log, mid), FinisherSet(log, mid));
  }

  lemma {:induction false} FinishersEnumerate(log: seq<Event>, mid: Id)
    ensures Enumerates(Finishers(log, mid), FinisherSet(log, mid))
  {
    if log != [] {
      var shorter := log[..|log| - 1];
      FinishersEnumerate(shorter, mid);
      var e := log[|log| - 1];
      assert log == shorter + [e];
      FinishersAppend(shorter, e, mid);
      FinisherSetAppend(shorter, e, mid);
      assert forall pid :: pid in Finishers(shorter, mid) <==> pid in FinisherSet(shorter, mid);
    }
  }

  lemma FinisherSetAppend(log: seq<Event>, e: Event, mid: Id)
    ensures FinisherSet(log + [e], mid) == FinisherSet(log, mid) + (if IsFinish(e, mid) then {e.pid} else {})
  {
    var longer := log + [e];
    forall pid | pid in FinisherSet(log, mid) ensures pid in FinisherSet(longer, mid) {
      var k :| 0 <= k < |log| && IsFinish(log[k], mid) && log[k].pid == pid;
      assert longer[k] == log[k];
    }
    if IsFinish(e, mid) {
      assert longer[|log|] == e;
    }
  }

  lemma {:induction false} FinishersExtend(log: seq<Event>, k: nat, mid: Id)
    requires k <= |log|
    ensures Finishers(log[..k], mid) <= Finishers(log, mid)
    decreases |log|
  {
    if k == |log| {
      assert log[..k] == log;
    } else {
      assert log[..|log| - 1][..k] == log[..k];
      FinishersExtend(log[..|log| - 1], k, mid);
    }
  }

  /** The list in the room is the list the log tells. */
  ghost predicate ListsAgree(w: World) {
    forall mid :: HasRoom(w, mid) ==>
      && w.core.matches[mid].finished == Finishers(w.log, mid)
      && (w.core.matches[mid].finished != [] ==> w.core.matches[mid].startedAt != 0)
  }

  /** Every reply points into the list. */
  ghost predicate RepliesOk(w: World) {
    forall k :: 0 <= k < |w.log| && w.log[k].Finished? ==> w.log[k].mid in w.mids && RankOk(w.log, w.log[k])
  }

  ghost predicate RankInv(w: World) {
    ListsAgree(w) && RepliesOk(w)
  }

  ghost predicate RankOk(log: seq<Event>, e: Event)
    requires e.Finished?
  {
    && 1 <= e.standing.rank <= |Finishers(log, e.mid)|
    && Finishers(log, e.mid)[e.standing.rank - 1] == e.pid
  }

  lemma {:induction false} NoFinishNoFinishers(log: seq<Event>, mid: Id)
    requires forall k :: 0 <= k < |log| && log[k].Finished? ==> log[k].mid != mid
    ensures Finishers(log, mid) == []
  {
    if log != [] {
      NoFinishNoFinishers(log[..|log| - 1], mid);
    }
  }

  /** What the other lock sections do to the finish lists. */
  lemma FinishListsKept(c: Core, op: Op, mid: Id)
    requires (op.Start? ==> StartAccepts(c, op.mid, op.picks)) && !op.Finish?
    requires mid in CoreAfter(c, op).matches
    ensures var after := CoreAfter(c, op).matches[mid];
      if op.Create? && op.mid == mid then after.finished == []
      else
        && mid in c.matches && after.finished == c.matches[mid].finished
        && (after.finished != [] && c.matches[mid].startedAt != 0 ==> after.startedAt != 0)
  {
  }

  lemma FinishReply(c: Core, mid: Id, pid: Id, now: Unix)
    requires mid in c.matches
    ensures var (d, r) := FinishPlayer(c, mid, pid, now);
      var before := c.matches[mid].finished;
      && d.matches.Keys == c.matches.Keys
      && (forall m :: m in c.matches && m != mid ==> d.matches[m] == c.matches[m])
      && (r.Err? ==> d == c)
      && (r.Ok? ==>
            && d.matches[mid].startedAt == c.matches[mid].startedAt != 0
            && pid in c.matches[mid].players && d.matches[mid].players == c.matches[mid].players
            && d.matches[mid].finished == (if pid in before then before else before + [pid])
            && 1 <= r.value.rank <= |d.matches[mid].finished| && d.matches[mid].finished[r.value.rank - 1] == pid
            && r.value.finishedCount == |d.matches[mid].finished|
            && r.value.totalPlayers == |d.matches[mid].players|)
  {
  }

  lemma ListAgrees(w: World, op: Op, mid: Id)
    requires Agree(w) && RankInv(w) && Permitted(w, op) && HasRoom(Do(w, op), mid)
    ensures var v := Do(w, op);
      && v.core.matches[mid].finished == Finishers(v.log, mid)
      && (v.core.matches[mid].finished != [] ==> v.core.matches[mid].startedAt != 0)
  {
    var events := EventsOf(w, op);
    EventKinds(w, op);
    if events == [] {
      assert w.log + events == w.log;
    } else {
      assert events == [events[0]];
      FinishersAppend(w.log, events[0], mid);
    }
    if op.Finish? {
      if HasRoom(w, op.mid) { FinishReply(w.core, op.mid, op.pid, op.now); }
    } else {
      if op.Create? && op.mid == mid { NoFinishNoFinishers(w.log, mid); }
      FinishListsKept(w.core, op, mid);
    }
  }

  lemma RankInvKept(w: World, op: Op)
    requires Agree(w) && RankInv(w) && Permitted(w, op)
    ensures RankInv(Do(w, op))
  {
    var v := Do(w, op);
    var events := EventsOf(w, op);
    EventKinds(w, op);
    forall mid | HasRoom(v, mid)
      ensures v.core.matches[mid].finished == Finishers(v.log, mid)
      ensures v.core.matches[mid].finished != [] ==> v.core.matches[mid].startedAt != 0
    {
      ListAgrees(w, op, mid);
    }
    forall k | 0 <= k < |v.log| && v.log[k].Finished?
      ensures v.log[k].mid in v.mids && RankOk(v.log, v.log[k])
    {
      if k < |w.log| {
        assert v.log[k] == w.log[k];
        assert v.log[..|w.log|] == w.log;
        FinishersExtend(v.log, |w.log|, v.log[k].mid);
      } else {
        FinishReply(w.core, op.mid, op.pid, op.now);
        assert HasRoom(v, op.mid);
      }
    }
  }

  /**
   The rank in a reply is 1 plus the number of distinct players who finished the match before
   this player's first finish.
   */
  lemma RankCountsEarlierFinishers(w: World, k: nat, f: nat)
    requires RankInv(w) && f <= k < |w.log|
    requires w.log[k].Finished? && IsFinish(w.log[f], w.log[k].mid) && w.log[f].pid == w.log[k].pid
    requires w.log[k].pid !in FinisherSet(w.log[..f], w.log[k].mid)
    ensures w.log[k].standing.rank == 1 + |FinisherSet(w.log[..f], w.log[k].mid)|
  {
    var mid, pid := w.log[k].mid, w.log[k].pid;
    var before := w.log[..f];
    FinishersAreDistinct(before, mid);
    FinishersAreDistinct(w.log, mid);
    assert pid !in Elements(Finishers(before, mid));
    assert w.log[..f + 1] == before + [w.log[f]];
    FinishersAppend(before, w.log[f], mid);
    FinishersExtend(w.log, f + 1, mid);
    var all := Finishers(w.log, mid);
    var n := |Finishers(before, mid)|;
    assert all[n] == (Finishers(before, mid) + [pid])[n] == pid;
    assert RankOk(w.log, w.log[k]);
  }

  /** Two replies agree on the rank exactly when they are about the same player. */
  lemma RanksIdentifyPlayers(w: World, j: nat, k: nat)
    requires RankInv(w) && j < |w.log| && k < |w.log|
    requires w.log[j].Finished? && w.log[k].Finished? && w.log[j].mid == w.log[k].mid
    ensures w.log[j].standing.rank == w.log[k].standing.rank <==> w.log[j].pid == w.log[k].pid
  {
    FinishersAreDistinct(w.log, w.log[j].mid);
    assert RankOk(w.log, w.log[j]) && RankOk(w.log, w.log[k]);
  }

  /** The ranks handed out in a match are exactly 1 to the number of its finishers. */
  lemma RanksAreOneToN(w: World, mid: Id, rank: nat)
    requires RankInv(w)
    ensures 1 <= rank <= |FinisherSet(w.log, mid)| <==>
            exists k :: 0 <= k < |w.log| && IsFinish(w.log[k], mid) && w.log[k].standing.rank == rank
  {
    FinishersAreDistinct(w.log, mid);
    var all := Finishers(w.log, mid);
    if 1 <= rank <= |all| {
      assert all[rank - 1] in Elements(all);
      var k :| 0 <= k < |w.log| && IsFinish(w.log[k], mid) && w.log[k].pid == all[rank - 1];
      assert RankOk(w.log, w.log[k]);
    }
    if k :| 0 <= k < |w.log| && IsFinish(w.log[k], mid) && w.log[k].standing.rank == rank {
      assert RankOk(w.log, w.log[k]);
    }
  }

  /**
   A finish repeated at any later time changes nothing, and it returns the same rank exactly if
   the player is still in the room; otherwise it is refused.
   */
  lemma RepeatedFinishIff(w: World, k: nat, now: Unix)
    requires RankInv(w) && k < |w.log| && w.log[k].Finished?
    ensures var e := w.log[k];
      var (d, r) := FinishPlayer(w.core, e.mid, e.pid, now);
      && d == w.core
      && (InRoom(w, e.mid, e.pid) <==> r.Ok?)
      && (r.Ok? ==> r.value.rank == e.standing.rank)
  {
    var e := w.log[k];
    assert RankOk(w.log, e);
    if HasRoom(w, e.mid) {
      var finished := w.core.matches[e.mid].finished;
      FinishersAreDistinct(w.log, e.mid);
      assert finished[e.standing.rank - 1] == e.pid;
    }
  }

  // ----- finishers and members -----

  ghost predicate EverLeft(log: seq<Event>, mid: Id, pid: Id) {
    exists k :: 0 <= k < |log| && log[k].Left? && log[k].mid == mid && log[k].pid == pid
  }

  lemma EverLeftAppend(log: seq<Event>, events: seq<Event>, mid: Id, pid: Id)
    requires |events| <= 1
    ensures EverLeft(log + events, mid, pid) <==>
            EverLeft(log, mid, pid) || (events != [] && events[0].Left? && events[0].mid == mid && events[0].pid == pid)
  {
    if EverLeft(log, mid, pid) {
      var k :| 0 <= k < |log| && log[k].Left? && log[k].mid == mid && log[k].pid == pid;
      assert (log + events)[k] == log[k];
    }
    if events != [] {
      assert (log + events)[|log|] == events[0];
    }
  }

  /** A finisher's ticket is spent, and it is a member unless a removal is on record. */
  ghost predicate FinishersAccounted(w: World) {
    forall mid, pid :: HasRoom(w, mid) && pid in w.core.matches[mid].finished ==>
      && pid in w.life && !w.life[pid].Waiting? && !w.life[pid].Claimed?
      && (InRoom(w, mid, pid) || EverLeft(w.log, mid, pid))
  }

  lemma FinishersAccountedKept(w: World, op: Op)
    requires Agree(w) && FinishersAccounted(w) && Permitted(w, op)
    ensures FinishersAccounted(Do(w, op))
  {
    var v := Do(w, op);
    StepAdvances(w, op);
    forall mid, pid | HasRoom(v, mid) && pid in v.core.matches[mid].finished
      ensures && pid in v.life && !v.life[pid].Waiting? && !v.life[pid].Claimed?
              && (InRoom(v, mid, pid) || EverLeft(v.log, mid, pid))
    {
      FinisherAccountedKept(w, op, mid, pid);
    }
  }

  lemma FinisherAccountedKept(w: World, op: Op, mid: Id, pid: Id)
    requires Agree(w) && FinishersAccounted(w) && Permitted(w, op) && AllAdvance(w, Do(w, op))
    requires HasRoom(Do(w, op), mid) && pid in Do(w, op).core.matches[mid].finished
    ensures var v := Do(w, op);
      && pid in v.life && !v.life[pid].Waiting? && !v.life[pid].Claimed?
      && (InRoom(v, mid, pid) || EverLeft(v.log, mid, pid))
  {
    EventKinds(w, op);
    EverLeftAppend(w.log, EventsOf(w, op), mid, pid);
    if op.Finish? {
      if HasRoom(w, op.mid) { FinishReply(w.core, op.mid, op.pid, op.now); }
      if pid !in w.core.matches[mid].finished {
        assert InRoom(w, mid, pid) && SeatOf(w, mid, pid) == Some(w.life[pid]);
      }
    } else {
      FinishListsKept(w.core, op, mid);
      if InRoom(w, mid, pid) && pid !in CoreAfter(w.core, op).matches[mid].players {
        OnlyRemovalTakesAway(w.core, op, mid, pid);
      }
    }
  }

  lemma OnlyRemovalTakesAway(c: Core, op: Op, mid: Id, pid: Id)
    requires (op.Start? ==> StartAccepts(c, op.mid, op.picks)) && (op.Create? ==> op.mid != mid)
    requires mid in c.matches && pid in c.matches[mid].players && mid in CoreAfter(c, op).matches
    requires pid !in CoreAfter(c, op).matches[mid].players
    ensures op.Remove? && op.mid == mid && op.pid == pid
  {
  }

  /** While nobody has been removed from a match, its finishers are at most its players. */
  lemma FinishedAtMostTotal(w: World, mid: Id)
    requires RankInv(w) && FinishersAccounted(w) && HasRoom(w, mid)
    requires forall pid :: !EverLeft(w.log, mid, pid)
    ensures |w.core.matches[mid].finished| <= |w.core.matches[mid].players|
  {
    var room := w.core.matches[mid];
    FinishersAreDistinct(w.log, mid);
    assert Elements(room.finished) <= room.players.Keys by {
      forall pid | pid in Elements(room.finished) ensures pid in room.players.Keys {
        assert InRoom(w, mid, pid);
      }
    }
    SubsetSize(Elements(room.finished), room.players.Keys);
    assert |room.players| == |room.players.Keys|;
  }

  lemma {:induction false} SubsetSize(a: set<Id>, b: set<Id>)
    requires a <= b
    ensures |a| <= |b|
  {
    DisjointSizes(a, b - a);
    assert a + (b - a) == b;
  }
}
