/** A match starts once: one stamp, one deal, one announcement. */
module Starts {
  import opened Types
  import opened Ordering
  import opened Lobby
  import opened World
  import opened Identity
  import opened Rooms

  predicate IsStart(e: Event, mid: Id) {
    e.Started? && e.mid == mid
  }

  ghost predicate EverStarted(log: seq<Event>, mid: Id) {
    exists k :: 0 <= k < |log| && IsStart(log[k], mid)
  }

  /** Every reading of the clock at a start was after the epoch. */
  ghost predicate PositiveStarts(log: seq<Event>) {
    forall k :: 0 <= k < |log| && log[k].Started? ==> log[k].reply.startedAt > 0
  }

  /** All replies for one match give one stamp, and exactly the first says it started the match. */
  ghost predicate StartedOnce(log: seq<Event>) {
    && (forall j, k :: 0 <= j < k < |log| && log[j].Started? && log[k].Started? && log[j].mid == log[k].mid ==>
          log[k].reply.startedAt == log[j].reply.startedAt && !log[k].reply.justStarted)
    && (forall k :: 0 <= k < |log| && log[k].Started? && !EverStarted(log[..k], log[k].mid) ==>
          log[k].reply.justStarted)
  }

  /** A room's start stamp is the one in the log, and it is 0 just when there is none. */
  ghost predicate StampsAgree(w: World) {
    && (forall k :: 0 <= k < |w.log| && w.log[k].Started? ==> w.log[k].mid in w.mids)
    && (forall mid :: HasRoom(w, mid) ==>
          && (w.core.matches[mid].startedAt != 0 <==> EverStarted(w.log, mid))
          && (forall k :: 0 <= k < |w.log| && IsStart(w.log[k], mid) ==>
                w.log[k].reply.startedAt == w.core.matches[mid].startedAt))
  }

  ghost predicate StartInv(w: World) {
    PositiveStarts(w.log) ==> StartedOnce(w.log) && StampsAgree(w)
  }

  lemma EverStartedAppend(log: seq<Event>, e: Event, mid: Id)
    ensures EverStarted(log + [e], mid) <==> EverStarted(log, mid) || IsStart(e, mid)
  {
    if EverStarted(log, mid) {
      var k :| 0 <= k < |log| && IsStart(log[k], mid);
      assert (log + [e])[k] == log[k];
    }
    if IsStart(e, mid) {
      assert (log + [e])[|log|] == e;
    }
  }

  /** A start of an existing room, in the terms the invariant needs. */
  lemma StartReplyOf(c: Core, op: Op)
    requires op.Start? && StartAccepts(c, op.mid, op.picks) && op.mid in c.matches
    ensures var (d, r) := StartMatch(c, op.mid, op.now, op.picks);
      && r.Ok? && d.matches.Keys == c.matches.Keys
      && r.value.justStarted == (c.matches[op.mid].startedAt == 0)
      && r.value.startedAt == d.matches[op.mid].startedAt
      && (r.value.justStarted ==> d.matches[op.mid].lastActivity == r.value.startedAt)
      && (c.matches[op.mid].startedAt != 0 ==> d == c)
      && (forall mid :: mid in c.matches && mid != op.mid ==> d.matches[mid] == c.matches[mid])
  {
  }

  lemma StartedOnceAppend(log: seq<Event>, e: Event)
    requires StartedOnce(log)
    requires e.Started? ==> (e.reply.justStarted <==> !EverStarted(log, e.mid))
    requires e.Started? ==>
      forall k :: 0 <= k < |log| && IsStart(log[k], e.mid) ==> log[k].reply.startedAt == e.reply.startedAt
    ensures StartedOnce(log + [e])
  {
    var longer := log + [e];
    forall k | 0 <= k < |longer| && longer[k].Started? && !EverStarted(longer[..k], longer[k].mid)
      ensures longer[k].reply.justStarted
    {
      assert longer[..k] == log[..k];
      if k == |log| {
        assert log[..k] == log;
      }
    }
    forall j, k | 0 <= j < k < |longer| && longer[j].Started? && longer[k].Started? && longer[j].mid == longer[k].mid
      ensures longer[k].reply.startedAt == longer[j].reply.startedAt && !longer[k].reply.justStarted
    {
      if k == |log| {
        assert IsStart(log[j], e.mid);
      }
    }
  }

  lemma StampsAgreeOnStart(w: World, v: World, e: Event)
    requires StampsAgree(w) && v.log == w.log + [e] && e.Started? && v.mids == w.mids
    requires HasRoom(w, e.mid) && e.mid in w.mids && v.core.matches.Keys == w.core.matches.Keys
    requires e.reply.startedAt == v.core.matches[e.mid].startedAt > 0
    requires w.core.matches[e.mid].startedAt != 0 ==> v.core == w.core
    requires forall mid :: HasRoom(w, mid) && mid != e.mid ==> v.core.matches[mid] == w.core.matches[mid]
    ensures StampsAgree(v)
  {
    forall mid | HasRoom(v, mid)
      ensures v.core.matches[mid].startedAt != 0 <==> EverStarted(v.log, mid)
      ensures forall k :: 0 <= k < |v.log| && IsStart(v.log[k], mid) ==>
                v.log[k].reply.startedAt == v.core.matches[mid].startedAt
    {
      assert HasRoom(w, mid);
      EverStartedAppend(w.log, e, mid);
    }
  }

  lemma StampsAgreeElsewhere(w: World, v: World, events: seq<Event>)
    requires StampsAgree(w) && v.log == w.log + events && |events| <= 1 && w.mids <= v.mids
    requires events != [] ==> !events[0].Started?
    requires forall mid :: HasRoom(v, mid) ==>
               || (HasRoom(w, mid) && v.core.matches[mid].startedAt == w.core.matches[mid].startedAt)
               || (mid !in w.mids && v.core.matches[mid].startedAt == 0)
    ensures StampsAgree(v)
  {
    forall mid ensures EverStarted(v.log, mid) <==> EverStarted(w.log, mid) {
      if events == [] {
        assert v.log == w.log;
      } else {
        assert events == [events[0]];
        EverStartedAppend(w.log, events[0], mid);
      }
    }
  }

  /** What the other lock sections do to start stamps: nothing, or make an unstarted room. */
  lemma OtherOpsKeepStamps(w: World, op: Op)
    requires Agree(w) && Permitted(w, op) && !op.Start?
    ensures forall mid :: mid in CoreAfter(w.core, op).matches ==>
              || (HasRoom(w, mid) && CoreAfter(w.core, op).matches[mid].startedAt == w.core.matches[mid].startedAt)
              || (mid !in w.mids && CoreAfter(w.core, op).matches[mid].startedAt == 0)
    ensures |EventsOf(w, op)| <= 1 && (EventsOf(w, op) != [] ==> !EventsOf(w, op)[0].Started?)
  {
  }

  lemma PositiveEarlier(log: seq<Event>, events: seq<Event>)
    requires PositiveStarts(log + events)
    ensures PositiveStarts(log) && PositiveStarts(events)
  {
    forall k | 0 <= k < |log| ensures log[k] == (log + events)[k] {}
    forall k | 0 <= k < |events| ensures events[k] == (log + events)[|log| + k] {}
  }

  lemma StartInvKept(w: World, op: Op)
    requires Agree(w) && StartInv(w) && Permitted(w, op)
    ensures StartInv(Do(w, op))
  {
    var v := Do(w, op);
    var events := EventsOf(w, op);
    if PositiveStarts(v.log) {
      PositiveEarlier(w.log, events);
      if op.Start? {
        if HasRoom(w, op.mid) {
          StartReplyOf(w.core, op);
          StartedOnceAppend(w.log, events[0]);
          StampsAgreeOnStart(w, v, events[0]);
        } else {
          assert v.log == w.log && v.core == w.core;
        }
      } else {
        OtherOpsKeepStamps(w, op);
        StampsAgreeElsewhere(w, v, events);
        if events == [] {
          assert v.log == w.log;
        } else {
          assert events == [events[0]];
          StartedOnceAppend(w.log, events[0]);
        }
      }
    }
  }

  /**
   The positive clock is exactly what is needed: a start takes hold if and only if its reading
   is not 0, and after a start at 0 the next one deals again and says again that it started.
   */
  lemma StartTakesHoldIff(c: Core, mid: Id, now: Unix, picks: Picks, later: Unix, again: Picks)
    requires mid in c.matches && c.matches[mid].startedAt == 0 && |c.matches[mid].players| <= 4
    requires Fits(picks, |c.matches[mid].players|) && Fits(again, |c.matches[mid].players|)
    ensures var d := StartMatch(c, mid, now, picks).0;
      && d.matches[mid].players.Keys == c.matches[mid].players.Keys
      && StartAccepts(d, mid, again)
      && (now != 0 <==> !StartMatch(d, mid, later, again).1.value.justStarted)
      && (now != 0 ==> StartMatch(d, mid, later, again).1.value.startedAt == now)
      && (now == 0 ==> StartMatch(d, mid, later, again).1.value.startedAt == later)
  {
  }

  /** A started match is never listed again. */
  lemma StartedIsUnlisted(ws: seq<World>, i: nat, j: nat, mid: Id)
    requires Trace(ws) && i <= j < |ws|
    requires HasRoom(ws[i], mid) && ws[i].core.matches[mid].startedAt != 0
    ensures mid !in OpenRooms(ws[j].core)
    ensures forall s :: s in ListRooms(ws[j].core) ==> s.matchId != mid
  {
    if HasRoom(ws[j], mid) {
      HandsNeverChange(ws, i, j, mid, "");
    }
    var ids := SortedKeys(OpenRooms(ws[j].core));
    forall s | s in ListRooms(ws[j].core) ensures s.matchId != mid {
      var k :| 0 <= k < |ids| && s == ListRooms(ws[j].core)[k];
      assert ids[k] in Elements(ids);
    }
  }
}
