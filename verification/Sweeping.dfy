/** The sweep of idle lobby rooms: what one removes, and when an idle room is gone. */
module Sweeping {
  import opened Wrappers
  import opened Types
  import opened Lobby
  import opened World
  import opened Identity
  import opened Starts

  // ----- one sweep -----

  /**
   A sweep removes exactly the unstarted rooms whose last activity is at least `timeout` before
   the reading, with exactly the tickets that name them, and leaves every other room and ticket
   as it was.
   */
  lemma SweepMeaning(c: Core, reading: Unix, timeout: nat)
    ensures var d := SweepStaleRooms(c, reading, timeout);
      && (forall mid :: mid in d.matches <==>
            mid in c.matches && (c.matches[mid].startedAt != 0
              || (timeout > 0 && reading < c.matches[mid].lastActivity + timeout)))
      && (forall mid :: mid in d.matches ==> d.matches[mid] == c.matches[mid])
      && (forall token :: token in d.tickets <==>
            token in c.tickets && (c.tickets[token].matchId in c.matches ==> c.tickets[token].matchId in d.matches))
      && (forall token :: token in d.tickets ==> d.tickets[token] == c.tickets[token])
  {
  }

  /** A room touched at or after the reading survives, although the reading was taken early. */
  lemma EarlyReadingIsHarmless(c: Core, reading: Unix, timeout: nat, mid: Id)
    requires timeout > 0 && mid in c.matches && c.matches[mid].lastActivity >= reading
    ensures mid in SweepStaleRooms(c, reading, timeout).matches
  {
  }

  /** A second sweep at the same reading finds nothing to do. */
  lemma SweepIsIdempotent(c: Core, reading: Unix, timeout: nat)
    ensures var d := SweepStaleRooms(c, reading, timeout);
      StaleRooms(d, reading, timeout) == {} && SweepStaleRooms(d, reading, timeout) == d
  {
  }

  /** Deleting a match leaves every other room and its tickets alone. */
  lemma DeleteMeaning(c: Core, mid: Id)
    ensures var (d, r) := DeleteRoom(c, mid);
      && (r.Ok? <==> mid in c.matches)
      && (r.Err? ==> d == c)
      && mid !in d.matches
      && (forall m :: m in c.matches && m != mid ==> m in d.matches && d.matches[m] == c.matches[m])
      && (forall m :: m in d.matches ==> m in c.matches)
      && (r.Ok? ==> forall t :: t in d.tickets <==> t in c.tickets && c.tickets[t].matchId != mid)
      && (forall t :: t in d.tickets ==> t in c.tickets && d.tickets[t] == c.tickets[t])
  {
  }

  // ----- activity over a run -----

  /** The position after the last event that touched the room, 0 if none did. */
  ghost function AfterLastTouch(log: seq<Event>, mid: Id): (r: nat)
    ensures r <= |log|
  {
    if log == [] then 0
    else if Touch(log[|log| - 1], mid).Some? then |log|
    else AfterLastTouch(log[..|log| - 1], mid)
  }

  ghost function LastTouch(log: seq<Event>, mid: Id): Option<Unix> {
    if log == [] then None
    else
      match Touch(log[|log| - 1], mid)
      case Some(at) => Some(at)
      case None => LastTouch(log[..|log| - 1], mid)
  }

  lemma TouchAppend(log: seq<Event>, e: Event, mid: Id)
    ensures LastTouch(log + [e], mid) == (if Touch(e, mid).Some? then Touch(e, mid) else LastTouch(log, mid))
    ensures AfterLastTouch(log + [e], mid) == (if Touch(e, mid).Some? then |log| + 1 else AfterLastTouch(log, mid))
  {
  }

  /** A room's activity stamp is the last one on record. */
  ghost predicate ActivityLogged(w: World) {
    forall mid :: HasRoom(w, mid) ==> LastTouch(w.log, mid) == Some(w.core.matches[mid].lastActivity)
  }

  /** An unstarted room has outlived every sweep since its last activity. */
  ghost predicate SweepsSurvived(w: World) {
    forall mid, k ::
      (HasRoom(w, mid) && w.core.matches[mid].startedAt == 0
       && AfterLastTouch(w.log, mid) <= k < |w.log| && w.log[k].Swept?) ==>
      w.log[k].reading < w.core.matches[mid].lastActivity + 180
  }

  /** What each sweep removed had been idle for the whole timeout. */
  ghost predicate SweptWereIdle(log: seq<Event>) {
    forall k, mid :: 0 <= k < |log| && log[k].Swept? && mid in log[k].gone ==> IdleAt(log, k, mid)
  }

  ghost predicate IdleAt(log: seq<Event>, k: nat, mid: Id)
    requires k < |log| && log[k].Swept?
  {
    LastTouch(log[..k], mid).Some? && LastTouch(log[..k], mid).value + 180 <= log[k].reading
  }

  ghost predicate SweepInv(w: World) {
    ActivityLogged(w) && SweepsSurvived(w) && SweptWereIdle(w.log)
  }

  /** The room's activity stamp changes exactly when the section logs a touch. */
  ghost predicate TouchLogged(c: Core, d: Core, events: seq<Event>, mid: Id)
    requires mid in d.matches
  {
    if events != [] && Touch(events[0], mid).Some?
    then Touch(events[0], mid) == Some(d.matches[mid].lastActivity)
    else mid in c.matches && d.matches[mid].lastActivity == c.matches[mid].lastActivity
         && d.matches[mid].startedAt == c.matches[mid].startedAt
  }

  lemma TouchesAreLogged(w: World, op: Op, mid: Id)
    requires Agree(w) && Permitted(w, op) && mid in CoreAfter(w.core, op).matches
    ensures |EventsOf(w, op)| <= 1 && TouchLogged(w.core, CoreAfter(w.core, op), EventsOf(w, op), mid)
  {
    EventKinds(w, op);
    match op
    case Update(_, _, _, _, _, _) => UpdateTouches(w, op, mid);
    case Start(_, _, _) => StartTouches(w.core, CoreAfter(w.core, op), EventsOf(w, op), op, mid);
    case Finish(_, _, _) => FinishTouches(w, op, mid);
    case Register(_, _, _, _, _, _) => PlayerTouches(w, op, mid);
    case Remove(_, _, _) => PlayerTouches(w, op, mid);
    case _ =>
  }

  lemma PlayerTouches(w: World, op: Op, mid: Id)
    requires op.Register? || op.Remove?
    requires Permitted(w, op) && mid in CoreAfter(w.core, op).matches
    ensures TouchLogged(w.core, CoreAfter(w.core, op), EventsOf(w, op), mid)
  {
  }

  lemma UpdateTouches(w: World, op: Op, mid: Id)
    requires Permitted(w, op) && op.Update? && mid in CoreAfter(w.core, op).matches
    ensures TouchLogged(w.core, CoreAfter(w.core, op), EventsOf(w, op), mid)
  {
  }

  lemma StartTouches(c: Core, d: Core, events: seq<Event>, op: Op, mid: Id)
    requires op.Start? && StartAccepts(c, op.mid, op.picks) && mid in d.matches
    requires var (e, r) := StartMatch(c, op.mid, op.now, op.picks);
      d == e && events == (match r case Ok(reply) => [Started(op.mid, reply)] case Err(_) => [])
    ensures TouchLogged(c, d, events, mid)
  {
  }

  lemma FinishTouches(w: World, op: Op, mid: Id)
    requires Permitted(w, op) && op.Finish? && mid in CoreAfter(w.core, op).matches
    ensures TouchLogged(w.core, CoreAfter(w.core, op), EventsOf(w, op), mid)
  {
  }

  lemma ActivityLoggedKept(w: World, op: Op)
    requires Agree(w) && ActivityLogged(w) && Permitted(w, op)
    ensures ActivityLogged(Do(w, op))
  {
    var v := Do(w, op);
    var events := EventsOf(w, op);
    forall mid | HasRoom(v, mid)
      ensures LastTouch(v.log, mid) == Some(v.core.matches[mid].lastActivity)
    {
      TouchesAreLogged(w, op, mid);
      if events == [] {
        assert w.log + events == w.log;
      } else {
        assert events == [events[0]];
        TouchAppend(w.log, events[0], mid);
      }
    }
  }

  lemma SweepsSurvivedKept(w: World, op: Op)
    requires Agree(w) && SweepsSurvived(w) && Permitted(w, op)
    ensures SweepsSurvived(Do(w, op))
  {
    var v := Do(w, op);
    var events := EventsOf(w, op);
    EventKinds(w, op);
    forall mid, k | HasRoom(v, mid) && v.core.matches[mid].startedAt == 0
        && AfterLastTouch(v.log, mid) <= k < |v.log| && v.log[k].Swept?
      ensures v.log[k].reading < v.core.matches[mid].lastActivity + 180
    {
      TouchesAreLogged(w, op, mid);
      if events == [] {
        assert w.log + events == w.log;
      } else {
        assert events == [events[0]];
        TouchAppend(w.log, events[0], mid);
        if k < |w.log| {
          assert v.log[k] == w.log[k];
        } else {
          assert op.Sweep?;
          SweepMeaning(w.core, op.reading, 180);
        }
      }
    }
  }

  lemma SweptWereIdleKept(w: World, op: Op)
    requires Agree(w) && ActivityLogged(w) && SweptWereIdle(w.log) && Permitted(w, op)
    ensures SweptWereIdle(Do(w, op).log)
  {
    var v := Do(w, op);
    EventKinds(w, op);
    forall k, mid | 0 <= k < |v.log| && v.log[k].Swept? && mid in v.log[k].gone ensures IdleAt(v.log, k, mid) {
      if k < |w.log| {
        assert v.log[k] == w.log[k] && v.log[..k] == w.log[..k];
        assert IdleAt(w.log, k, mid);
      } else {
        assert op.Sweep? && v.log[..k] == w.log;
        assert mid in StaleRooms(w.core, op.reading, 180);
        assert HasRoom(w, mid);
      }
    }
  }

  lemma SweepInvKept(w: World, op: Op)
    requires Agree(w) && SweepInv(w) && Permitted(w, op)
    ensures SweepInv(Do(w, op))
  {
    ActivityLoggedKept(w, op);
    SweepsSurvivedKept(w, op);
    SweptWereIdleKept(w, op);
  }

  // ----- bounded reclamation -----

  ghost predicate IsSweepAfter(log: seq<Event>, from: nat, k: int) {
    from <= k < |log| && log[k].Swept?
  }

  /** Sweeps run at least every `gap` seconds, the first one soon enough after `a`. */
  ghost predicate SweepsWithinGap(log: seq<Event>, from: nat, a: Unix, gap: nat) {
    forall k :: IsSweepAfter(log, from, k) ==>
      || log[k].reading <= a + gap
      || exists j :: IsSweepAfter(log, from, j) && j < k && log[k].reading <= log[j].reading + gap
  }

  /** Some sweep that is late enough to reclaim the room is also less than `gap` too late. */
  lemma {:induction false} ReclaimedInTime(log: seq<Event>, from: nat, a: Unix, gap: nat, k: nat) returns (first: nat)
    requires 0 < gap && SweepsWithinGap(log, from, a, gap)
    requires IsSweepAfter(log, from, k) && log[k].reading >= a + 180
    ensures first <= k && IsSweepAfter(log, from, first)
    ensures a + 180 <= log[first].reading < a + 180 + gap
  {
    first := k;
    if log[k].reading >= a + 180 + gap {
      var j :| IsSweepAfter(log, from, j) && j < k && log[k].reading <= log[j].reading + gap;
      first := ReclaimedInTime(log, from, a, gap, j);
    }
  }

  /** The stamps a room received never went back. */
  ghost predicate ClockMonotone(log: seq<Event>, mid: Id) {
    forall i, j :: 0 <= i < j < |log| && Touch(log[i], mid).Some? && Touch(log[j], mid).Some? ==>
      Touch(log[i], mid).value <= Touch(log[j], mid).value
  }

  lemma {:induction false} LastTouchIsLatest(log: seq<Event>, mid: Id, i: nat)
    requires ClockMonotone(log, mid) && i < |log| && Touch(log[i], mid).Some?
    ensures LastTouch(log, mid).Some? && Touch(log[i], mid).value <= LastTouch(log, mid).value
  {
    var shorter := log[..|log| - 1];
    if Touch(log[|log| - 1], mid).None? {
      assert shorter[i] == log[i];
      LastTouchIsLatest(shorter, mid, i);
    }
  }

  /** With a clock that never goes back, all activity in a swept room was at least 180 old. */
  lemma SweptRoomsWereQuiet(w: World, k: nat, mid: Id, i: nat)
    requires SweepInv(w) && ClockMonotone(w.log, mid)
    requires k < |w.log| && w.log[k].Swept? && mid in w.log[k].gone
    requires i < k && Touch(w.log[i], mid).Some?
    ensures Touch(w.log[i], mid).value + 180 <= w.log[k].reading
  {
    assert IdleAt(w.log, k, mid);
    assert w.log[..k][i] == w.log[i];
    LastTouchIsLatest(w.log[..k], mid, i);
  }

  // ----- started rooms are safe -----

  ghost predicate NoStartedSwept(log: seq<Event>) {
    forall k, j, mid :: 0 <= j < k < |log| && log[k].Swept? && IsStart(log[j], mid) ==> mid !in log[k].gone
  }

  /** With a positive clock no sweep ever removes a match that has been started. */
  lemma NoStartedSweptKept(w: World, op: Op)
    requires Agree(w) && StartInv(w) && Permitted(w, op)
    requires PositiveStarts(Do(w, op).log) && NoStartedSwept(w.log)
    ensures NoStartedSwept(Do(w, op).log)
  {
    var v := Do(w, op);
    EventKinds(w, op);
    PositiveEarlier(w.log, EventsOf(w, op));
    forall k, j, mid | 0 <= j < k < |v.log| && v.log[k].Swept? && IsStart(v.log[j], mid)
      ensures mid !in v.log[k].gone
    {
      assert v.log[j] == w.log[j];
      if k < |w.log| {
        assert v.log[k] == w.log[k];
      } else {
        assert EverStarted(w.log, mid);
        assert HasRoom(w, mid) ==> w.core.matches[mid].startedAt != 0;
      }
    }
  }
}
