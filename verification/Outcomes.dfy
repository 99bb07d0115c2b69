/** What the invariants say about whole runs: capacity, deletion, finish lists, reclamation. */
module Outcomes {
  import opened Wrappers
  import opened Types
  import opened Shuffle
  import opened Lobby
  import opened World
  import opened Identity
  import opened Rooms
  import opened Ranks
  import opened Sweeping
  import opened Lifetime

  // ----- tickets and seats -----

  /**
   A ticket is good up to and including 3600 seconds after it was issued, for the match, id and
   name it was issued with; using it once, in time or too late, spends it.
   */
  lemma TicketWindow(c: Core, mid: Id, name: string, pid: Id, token: Token, issued: Unix, at: Unix, later: Unix)
    requires token !in c.tickets
    ensures var (d, ticket) := IssueJoinTicket(c, mid, name, pid, token, issued);
      var (e, r) := ConsumeTicket(d, token, at);
      && (ticket.Ok? <==> mid in c.matches && |c.matches[mid].players| < 4)
      && (ticket.Ok? ==>
            && ticket.value.matchId == mid && ticket.value.playerId == pid
            && !IsBlank(ticket.value.displayName) && (!IsBlank(name) ==> ticket.value.displayName == name)
            && (r == Ok(ticket.value) <==> at <= issued + 3600)
            && (r == Err(TokenExpired) <==> at > issued + 3600))
      && e.tickets == c.tickets
      && ConsumeTicket(e, token, later) == (e, Err(InvalidToken))
  {
  }

  /**
   A registration is refused exactly when the match is missing, or full of others. An accepted
   one seats the player under the ticket's name, and a removal afterwards, as when the reply
   cannot be sent, puts the members back as they were; nothing else is touched by either.
   */
  lemma RemovalUndoesRegistration(
    c: Core, mid: Id, pid: Id, name: string, addr: SocketAddr, tx: ChannelId, now: Unix, later: Unix)
    ensures var (d, r) := RegisterPlayer(c, mid, pid, name, addr, tx, now);
      var e := RemovePlayer(d, mid, pid, later);
      && (r == Err(MatchNotFound) <==> mid !in c.matches)
      && (r == Err(MatchFull) <==> mid in c.matches && pid !in c.matches[mid].players && |c.matches[mid].players| >= 4)
      && (r.Ok? <==> mid in c.matches && (pid in c.matches[mid].players || |c.matches[mid].players| < 4))
      && (r.Err? ==> d == c)
      && (r.Ok? ==>
            && d.tickets == e.tickets == c.tickets
            && (forall m :: m != mid ==> (m in c.matches <==> m in d.matches) && (m in d.matches <==> m in e.matches))
            && (forall m :: m in c.matches && m != mid ==> d.matches[m] == e.matches[m] == c.matches[m])
            && mid in d.matches && pid in d.matches[mid].players
            && var p := d.matches[mid].players[pid];
               && p.displayName == name && p.connection == Some(addr) && p.tx == tx && p.params == r.value
               && (pid !in c.matches[mid].players ==>
                     && r.value == PlayerParams(2, 2, 2) && p.nextParamChangeAt == 0 && Undealt(p)
                     && e.matches[mid] == c.matches[mid].(lastActivity := later))
               && (pid in c.matches[mid].players ==>
                     && var was := c.matches[mid].players[pid];
                        p.params == was.params && p.nextParamChangeAt == was.nextParamChangeAt && SameHand(was, p)))
  {
  }

  /** However many tickets are out and however joins interleave, no room seats more than four. */
  lemma RoomsNeverOverfill(ws: seq<World>, i: nat, mid: Id)
    requires Trace(ws) && i < |ws| && HasRoom(ws[i], mid)
    ensures |ws[i].core.matches[mid].players| <= 4
  {
    EveryReachableState(ws, i);
    assert RoomOk(ws[i].core.matches[mid]);
  }

  function Name(n: nat): (r: string)
    ensures |r| == n
  {
    seq(n, _ => 'x')
  }

  /** One empty room and `n` tickets for it. */
  ghost predicate OnlyTickets(w: World, n: nat) {
    && w.core.matches == map["m" := NewRoom(1)]
    && |w.core.tickets| == n && w.core.tickets.Keys <= w.tokens
    && (forall token :: token in w.tokens ==> |token| < n)
    && (forall pid :: pid in w.life ==> |pid| < n)
  }

  /** Issuing a ticket reserves no seat: for any number there is a run with that many tickets for one room. */
  lemma {:induction false} TicketsReserveNoSeats(n: nat) returns (ws: seq<World>)
    ensures Trace(ws) && OnlyTickets(ws[|ws| - 1], n)
  {
    if n == 0 {
      ws := [Init(), Do(Init(), Create("m", 1))];
      assert Next(ws[0], ws[1]);
    } else {
      var shorter := TicketsReserveNoSeats(n - 1);
      var last := shorter[|shorter| - 1];
      ws := Extended(shorter, Issue("m", "", Name(n - 1), Name(n - 1), 1));
    }
  }

  lemma Extended(ws: seq<World>, op: Op) returns (longer: seq<World>)
    requires Trace(ws) && Permitted(ws[|ws| - 1], op)
    ensures Trace(longer) && longer == ws + [Do(ws[|ws| - 1], op)]
  {
    longer := ws + [Do(ws[|ws| - 1], op)];
    forall i: nat | i < |longer| - 1 ensures StepAt(longer, i) {
      if i < |ws| - 1 {
        assert StepAt(ws, i);
      } else {
        assert Next(longer[i], longer[i + 1]);
      }
    }
  }

  // ----- deleted matches -----

  /**
   Once a match is gone, by deletion or by a sweep, nothing ever happens in it again: nobody is
   admitted, not even a join that had already spent its ticket.
   */
  lemma {:induction false} GoneMatchIsNeverTouched(ws: seq<World>, i: nat, j: nat, mid: Id, k: nat)
    requires Trace(ws) && i <= j < |ws| && mid in ws[i].mids && !HasRoom(ws[i], mid)
    requires |ws[i].log| <= k < |ws[j].log|
    ensures Touch(ws[j].log[k], mid) == None
    ensures !(ws[j].log[k].Admitted? && ws[j].log[k].mid == mid)
    decreases j
  {
    RoomsNeverReturn(ws, i, j - 1, mid);
    assert StepAt(ws, j - 1);
    if k < |ws[j - 1].log| {
      GoneMatchIsNeverTouched(ws, i, j - 1, mid, k);
      assert ws[j].log[k] == ws[j - 1].log[k];
    }
  }

  // ----- finish lists -----

  /** The finish list of a match is only ever extended, and its entries never repeat. */
  lemma FinishedOnlyGrows(ws: seq<World>, i: nat, j: nat, mid: Id)
    requires Trace(ws) && i <= j < |ws| && HasRoom(ws[i], mid) && HasRoom(ws[j], mid)
    ensures ws[i].core.matches[mid].finished <= ws[j].core.matches[mid].finished
    ensures Distinct(ws[j].core.matches[mid].finished)
  {
    EveryReachableState(ws, i);
    EveryReachableState(ws, j);
    LogGrows(ws, i, j);
    FinishedExtends(ws[i], ws[j], mid);
  }

  lemma FinishedExtends(w: World, v: World, mid: Id)
    requires RankInv(w) && RankInv(v) && w.log <= v.log && HasRoom(w, mid) && HasRoom(v, mid)
    ensures w.core.matches[mid].finished <= v.core.matches[mid].finished
    ensures Distinct(v.core.matches[mid].finished)
  {
    FinishersExtend(v.log, |w.log|, mid);
    FinishersAreDistinct(v.log, mid);
    assert v.log[..|w.log|] == w.log;
  }

  // ----- reclamation -----

  lemma SweepInvAlways(ws: seq<World>, i: nat)
    requires Trace(ws) && i < |ws|
    ensures SweepInv(ws[i])
  {
    EveryReachableState(ws, i);
  }

  /** Every prefix of the log was once the whole log. */
  lemma {:induction false} MomentOf(ws: seq<World>, i: nat, k: nat) returns (m: nat)
    requires Trace(ws) && i < |ws| && k <= |ws[i].log|
    ensures m <= i && ws[m].log == ws[i].log[..k]
  {
    m := i;
    if k < |ws[i].log| {
      assert i > 0;
      assert StepAt(ws, i - 1);
      m := MomentOf(ws, i - 1, k);
      assert ws[i - 1].log[..k] == ws[i].log[..k];
    }
  }

  lemma {:induction false} TouchOfPrefix(log: seq<Event>, mid: Id, k: nat)
    requires AfterLastTouch(log, mid) <= k <= |log|
    ensures LastTouch(log[..k], mid) == LastTouch(log, mid)
    ensures AfterLastTouch(log[..k], mid) == AfterLastTouch(log, mid)
    decreases |log|
  {
    if k == |log| {
      assert log[..k] == log;
    } else {
      assert log[..|log| - 1][..k] == log[..k];
      TouchOfPrefix(log[..|log| - 1], mid, k);
    }
  }

  /**
   A room without activity after `a`, in a run whose sweep readings are at most `gap` apart: once
   some sweep has read at least `a + 180`, there was a moment, right after a sweep that read less
   than `a + 180 + gap`, from which on it is not an unstarted room, at any later time of the run.
   */
  lemma ReclaimedOnTime(ws: seq<World>, i: nat, mid: Id, a: Unix, gap: nat, k: nat) returns (m: nat, first: nat)
    requires Trace(ws) && i < |ws| && 0 < gap
    requires LastTouch(ws[i].log, mid).Some? && LastTouch(ws[i].log, mid).value <= a
    requires SweepsWithinGap(ws[i].log, AfterLastTouch(ws[i].log, mid), a, gap)
    requires IsSweepAfter(ws[i].log, AfterLastTouch(ws[i].log, mid), k) && ws[i].log[k].reading >= a + 180
    ensures m <= i && first <= k && ws[m].log == ws[i].log[..first + 1]
    ensures ws[i].log[first].Swept? && a + 180 <= ws[i].log[first].reading < a + 180 + gap
    ensures forall j :: m <= j < |ws| && HasRoom(ws[j], mid) ==> ws[j].core.matches[mid].startedAt != 0
  {
    var log := ws[i].log;
    first := ReclaimedInTime(log, AfterLastTouch(log, mid), a, gap, k);
    m := MomentOf(ws, i, first + 1);
    TouchOfPrefix(log, mid, first + 1);
    assert ws[m].log[first] == log[first];
    SweepInvAlways(ws, m);
    forall j | m <= j < |ws| && HasRoom(ws[j], mid) ensures ws[j].core.matches[mid].startedAt != 0 {
      NotUnstartedAgain(ws, m, j, mid);
    }
  }

  /** A room on record that is gone or started is never an unstarted room again. */
  lemma NotUnstartedAgain(ws: seq<World>, m: nat, j: nat, mid: Id)
    requires Trace(ws) && m <= j < |ws| && LastTouch(ws[m].log, mid).Some?
    requires HasRoom(ws[m], mid) ==> ws[m].core.matches[mid].startedAt != 0
    ensures HasRoom(ws[j], mid) ==> ws[j].core.matches[mid].startedAt != 0
  {
    if HasRoom(ws[j], mid) {
      if HasRoom(ws[m], mid) {
        HandsNeverChange(ws, m, j, mid, "");
      } else {
        TouchedIsKnown(ws, m, mid);
        RoomsNeverReturn(ws, m, j, mid);
      }
    }
  }

  lemma {:induction false} TouchedIsKnown(ws: seq<World>, i: nat, mid: Id)
    requires Trace(ws) && i < |ws| && LastTouch(ws[i].log, mid).Some?
    ensures mid in ws[i].mids
  {
    assert i > 0;
    assert StepAt(ws, i - 1);
    TraceAgrees(ws, i - 1);
    NextTouchIsKnown(ws[i - 1], ws[i], mid);
    if LastTouch(ws[i - 1].log, mid).Some? {
      TouchedIsKnown(ws, i - 1, mid);
    }
  }

  lemma NextTouchIsKnown(w: World, v: World, mid: Id)
    requires Agree(w) && Next(w, v)
    ensures w.mids <= v.mids
    ensures LastTouch(v.log, mid).Some? ==> LastTouch(w.log, mid).Some? || mid in v.mids
  {
    if v != w {
      var op :| Permitted(w, op) && v == Do(w, op);
      OpTouchIsKnown(w, op, mid);
    }
  }

  lemma OpTouchIsKnown(w: World, op: Op, mid: Id)
    requires w.core.matches.Keys <= w.mids && Permitted(w, op)
    ensures w.mids <= Do(w, op).mids
    ensures LastTouch(w.log + EventsOf(w, op), mid).Some? ==> LastTouch(w.log, mid).Some? || mid in Do(w, op).mids
  {
    var events := EventsOf(w, op);
    AtMostOneEvent(w, op);
    if events == [] {
      assert w.log + events == w.log;
    } else {
      assert events == [events[0]];
      TouchAppend(w.log, events[0], mid);
      if Touch(events[0], mid).Some? {
        TouchNeedsRoom(w, op, mid);
      }
    }
  }

  lemma AtMostOneEvent(w: World, op: Op)
    requires Permitted(w, op)
    ensures |EventsOf(w, op)| <= 1
  {
    EventKinds(w, op);
  }

  lemma TouchNeedsRoom(w: World, op: Op, mid: Id)
    requires Permitted(w, op) && EventsOf(w, op) != [] && Touch(EventsOf(w, op)[0], mid).Some?
    ensures HasRoom(w, mid) || (op.Create? && op.mid == mid)
  {
  }
}
