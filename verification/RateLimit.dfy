/** Parameter changes over whole runs: how often, and what the levels add up to. */
module RateLimit {
  import opened Types
  import opened Params
  import opened Lobby
  import opened World
  import opened Identity

  predicate IsChange(e: Event, pid: Id) {
    e.Changed? && e.pid == pid
  }

  /** A player's cooldown stamp is past every change on record, and never reset. */
  ghost predicate StampCovers(w: World) {
    forall k :: 0 <= k < |w.log| && w.log[k].Changed? ==> Covered(w, w.log[k])
  }

  ghost predicate Covered(w: World, e: Event)
    requires e.Changed?
  {
    && e.pid in w.life && !w.life[e.pid].Waiting? && !w.life[e.pid].Claimed?
    && (w.life[e.pid].Seated? ==>
          && w.life[e.pid].mid == e.mid
          && InRoom(w, e.mid, e.pid)
          && PlayerAt(w, e.mid, e.pid).nextParamChangeAt >= e.at + 7)
  }

  /** In log order, two changes by one player have readings at least 7 apart. */
  ghost predicate ChangesSpaced(log: seq<Event>) {
    forall j, k :: 0 <= j < k < |log| && log[j].Changed? && log[k].Changed? && log[j].pid == log[k].pid ==>
      log[k].at >= log[j].at + 7
  }

  ghost predicate RateInv(w: World) {
    StampCovers(w) && ChangesSpaced(w.log)
  }

  lemma UpdateReply(c: Core, op: Op)
    requires op.Update? && op.mid in c.matches && op.pid in c.matches[op.mid].players
    ensures var (d, r) := UpdatePlayerParams(c, op.mid, op.pid, op.param, op.direction, op.now, op.after);
      var before := c.matches[op.mid].players[op.pid];
      if r.Err? then d == c
      else
        && d.matches.Keys == c.matches.Keys && d.tickets == c.tickets
        && (forall m :: m in c.matches && m != op.mid ==> d.matches[m] == c.matches[m])
        && d.matches[op.mid].players ==
             c.matches[op.mid].players[op.pid :=
               before.(params := r.value.params, nextParamChangeAt := r.value.nextParamChangeAt)]
        && d.matches[op.mid].lastActivity == op.after
        && ApplyParamChange(before.params, before.nextParamChangeAt, op.param, op.direction, op.now) == r
        && op.now >= before.nextParamChangeAt && r.value.nextParamChangeAt == op.now + 7
  {
  }

  /** A seat that survives a lock section keeps its stamp and levels unless its player changed them. */
  lemma OthersKeepParams(c: Core, op: Op, mid: Id, pid: Id)
    requires (op.Start? ==> StartAccepts(c, op.mid, op.picks)) && (op.Create? ==> op.mid != mid)
    requires op.Update? ==> op.mid != mid || op.pid != pid
    requires mid in c.matches && pid in c.matches[mid].players
    requires mid in CoreAfter(c, op).matches && pid in CoreAfter(c, op).matches[mid].players
    ensures var before, after := c.matches[mid].players[pid], CoreAfter(c, op).matches[mid].players[pid];
      after.params == before.params && after.nextParamChangeAt == before.nextParamChangeAt
  {
  }

  lemma CoveredKept(w: World, op: Op, e: Event)
    requires Agree(w) && Permitted(w, op) && AllAdvance(w, Do(w, op)) && Agree(Do(w, op))
    requires e.Changed? && Covered(w, e)
    ensures Covered(Do(w, op), e)
  {
    var v := Do(w, op);
    assert Advances(w.life[e.pid], v.life[e.pid]);
    if v.life[e.pid].Seated? {
      assert w.life[e.pid] == v.life[e.pid];
      assert InRoom(v, e.mid, e.pid);
      if op.Update? && op.mid == e.mid && op.pid == e.pid {
        UpdateReply(w.core, op);
      } else {
        OthersKeepParams(w.core, op, e.mid, e.pid);
      }
    }
  }

  /** The event of an accepted change, and the state right after it. */
  lemma NewChange(w: World, op: Op)
    requires Agree(w) && Permitted(w, op) && op.Update? && EventsOf(w, op) != []
    ensures InRoom(w, op.mid, op.pid)
    ensures EventsOf(w, op) == [Changed(op.mid, op.pid, op.param, op.direction, op.now, op.after)]
    ensures op.now >= PlayerAt(w, op.mid, op.pid).nextParamChangeAt
    ensures Covered(Do(w, op), EventsOf(w, op)[0])
    ensures w.life[op.pid].Seated? && w.life[op.pid].mid == op.mid
  {
    UpdateReply(w.core, op);
    assert InRoom(w, op.mid, op.pid);
  }

  lemma RateInvKept(w: World, op: Op)
    requires Agree(w) && RateInv(w) && Permitted(w, op)
    ensures RateInv(Do(w, op))
  {
    var v := Do(w, op);
    StepAdvances(w, op);
    AgreeKept(w, op);
    EventKinds(w, op);
    forall k | 0 <= k < |v.log| && v.log[k].Changed? ensures Covered(v, v.log[k]) {
      if k < |w.log| {
        assert v.log[k] == w.log[k];
        CoveredKept(w, op, w.log[k]);
      } else {
        NewChange(w, op);
      }
    }
    forall j, k | 0 <= j < k < |v.log| && v.log[j].Changed? && v.log[k].Changed? && v.log[j].pid == v.log[k].pid
      ensures v.log[k].at >= v.log[j].at + 7
    {
      assert v.log[j] == w.log[j];
      if k < |w.log| {
        assert v.log[k] == w.log[k];
      } else {
        NewChange(w, op);
        assert Covered(w, w.log[j]);
      }
    }
  }

  ghost function ChangesWithin(log: seq<Event>, pid: Id, from: Unix, length: nat): nat {
    if log == [] then 0
    else
      var e := log[|log| - 1];
      ChangesWithin(log[..|log| - 1], pid, from, length)
      + (if IsChange(e, pid) && from <= e.at <= from + length then 1 else 0)
  }

  /**
   In any window of the clock, whatever order the readings come in, one player makes at most
   one change per seven seconds and one more, over all three parameters together.
   */
  lemma {:induction false} WindowBound(log: seq<Event>, pid: Id, from: Unix, length: nat)
    requires ChangesSpaced(log)
    ensures ChangesWithin(log, pid, from, length) <= length / 7 + 1
  {
    var last := WindowBoundFrom(log, pid, from, length);
  }

  lemma {:induction false} WindowBoundFrom(log: seq<Event>, pid: Id, from: Unix, length: nat) returns (last: int)
    requires ChangesSpaced(log)
    ensures 7 * (ChangesWithin(log, pid, from, length) - 1) <= length
    ensures ChangesWithin(log, pid, from, length) > 0 ==>
              && 0 <= last < |log| && IsChange(log[last], pid) && from <= log[last].at <= from + length
              && from + 7 * (ChangesWithin(log, pid, from, length) - 1) <= log[last].at
    decreases |log|
  {
    last := -1;
    if log != [] {
      var shorter := log[..|log| - 1];
      last := WindowBoundFrom(shorter, pid, from, length);
      var e := log[|log| - 1];
      if IsChange(e, pid) && from <= e.at <= from + length {
        last := |log| - 1;
      }
    }
  }

  // ----- levels -----

  /** Increases minus decreases of one parameter by one player. */
  ghost function Net(log: seq<Event>, pid: Id, param: ParamKind): int {
    if log == [] then 0
    else
      var e := log[|log| - 1];
      Net(log[..|log| - 1], pid, param) + (if IsChange(e, pid) && e.param == param then Delta(e.direction) else 0)
  }

  lemma NetAppend(log: seq<Event>, events: seq<Event>, pid: Id, param: ParamKind)
    requires |events| <= 1
    ensures Net(log + events, pid, param) == Net(log, pid, param)
      + (if events != [] && IsChange(events[0], pid) && events[0].param == param then Delta(events[0].direction) else 0)
  {
    if events == [] {
      assert log + events == log;
    } else {
      assert (log + events)[..|log|] == log;
    }
  }

  lemma {:induction false} NoChangeNoNet(log: seq<Event>, pid: Id, param: ParamKind)
    requires forall k :: 0 <= k < |log| ==> !IsChange(log[k], pid)
    ensures Net(log, pid, param) == 0
  {
    if log != [] {
      NoChangeNoNet(log[..|log| - 1], pid, param);
    }
  }

  /** Every level is the initial 2 plus the net of the accepted changes. */
  ghost predicate LevelsAddUp(w: World) {
    forall mid, pid :: InRoom(w, mid, pid) ==> forall param: ParamKind ::
      Level(PlayerAt(w, mid, pid).params, param) as int == 2 + Net(w.log, pid, param)
  }

  lemma LevelsAddUpKept(w: World, op: Op)
    requires Agree(w) && RateInv(w) && LevelsAddUp(w) && Permitted(w, op)
    ensures LevelsAddUp(Do(w, op))
  {
    var v := Do(w, op);
    forall mid, pid | InRoom(v, mid, pid)
      ensures forall param: ParamKind :: Level(PlayerAt(v, mid, pid).params, param) as int == 2 + Net(v.log, pid, param)
    {
      forall param: ParamKind
        ensures Level(PlayerAt(v, mid, pid).params, param) as int == 2 + Net(v.log, pid, param)
      {
        LevelKept(w, op, mid, pid, param);
      }
    }
  }

  lemma LevelKept(w: World, op: Op, mid: Id, pid: Id, param: ParamKind)
    requires Agree(w) && RateInv(w) && LevelsAddUp(w) && Permitted(w, op) && InRoom(Do(w, op), mid, pid)
    ensures Level(PlayerAt(Do(w, op), mid, pid).params, param) as int == 2 + Net(Do(w, op).log, pid, param)
  {
    EventKinds(w, op);
    NetAppend(w.log, EventsOf(w, op), pid, param);
    if !InRoom(w, mid, pid) {
      NewcomersHaveDefaults(w, op, mid, pid);
      NoChangeNoNet(w.log, pid, param);
    } else if op.Update? && op.mid == mid && op.pid == pid {
      UpdateReply(w.core, op);
      var p := PlayerAt(w, mid, pid);
      ChangeMeaning(p.params, p.nextParamChangeAt, op.param, op.direction, op.now);
    } else {
      OthersKeepParams(w.core, op, mid, pid);
      assert EventsOf(w, op) != [] && IsChange(EventsOf(w, op)[0], pid) ==> op.Update? && op.pid == pid;
      if op.Update? && op.pid == pid && EventsOf(w, op) != [] {
        NewChange(w, op);
      }
    }
  }

  lemma NewcomersHaveDefaults(w: World, op: Op, mid: Id, pid: Id)
    requires Agree(w) && RateInv(w) && Permitted(w, op) && InRoom(Do(w, op), mid, pid) && !InRoom(w, mid, pid)
    ensures op.Register? && op.pid == pid
    ensures PlayerAt(Do(w, op), mid, pid).params == DEFAULT_PARAMS
    ensures forall k :: 0 <= k < |w.log| ==> !IsChange(w.log[k], pid)
  {
    OnlyRegistrationAdds(w.core, op, mid, pid);
    RegistrationIsNeverARejoin(w, op);
    forall k | 0 <= k < |w.log| ensures !IsChange(w.log[k], pid) {
      assert w.log[k].Changed? ==> Covered(w, w.log[k]);
    }
  }

  lemma OnlyRegistrationAdds(c: Core, op: Op, mid: Id, pid: Id)
    requires op.Start? ==> StartAccepts(c, op.mid, op.picks)
    requires mid in CoreAfter(c, op).matches && pid in CoreAfter(c, op).matches[mid].players
    requires mid !in c.matches || pid !in c.matches[mid].players
    ensures op.Register? && op.mid == mid && op.pid == pid
  {
  }

  /** A rejected change touches nothing, not even the room's activity stamp. */
  lemma RejectedChangeTouchesNothing(w: World, op: Op)
    requires Permitted(w, op) && op.Update?
    requires UpdatePlayerParams(w.core, op.mid, op.pid, op.param, op.direction, op.now, op.after).1.Err?
    ensures Do(w, op) == w
  {
  }
}
