/** All invariants of the lobby together, in every state of every run. */
module Lifetime {
  import opened World
  import opened Identity
  import opened Rooms
  import opened Starts
  import opened Ranks
  import opened Admissions
  import opened RateLimit
  import opened Sweeping

  ghost predicate LobbyInv(w: World) {
    && Agree(w) && AdmittedOnce(w) && RoomsOk(w.core) && StartInv(w)
    && RankInv(w) && FinishersAccounted(w) && MembersAdmitted(w) && RepliesAdmitted(w)
    && RateInv(w) && LevelsAddUp(w) && SweepInv(w)
    && (PositiveStarts(w.log) ==> NoStartedSwept(w.log))
  }

  lemma LobbyInvInit()
    ensures LobbyInv(Init())
  {
  }

  lemma StepKeepsLobbyInv(w: World, op: Op)
    requires LobbyInv(w) && Permitted(w, op)
    ensures LobbyInv(Do(w, op))
  {
    AgreeKept(w, op);
    AdmittedOnceKept(w, op);
    RoomsOkKept(w.core, op);
    StartInvKept(w, op);
    RankInvKept(w, op);
    FinishersAccountedKept(w, op);
    MembersAdmittedKept(w, op);
    RepliesAdmittedKept(w, op);
    RateInvKept(w, op);
    LevelsAddUpKept(w, op);
    SweepInvKept(w, op);
    if PositiveStarts(Do(w, op).log) {
      PositiveEarlier(w.log, EventsOf(w, op));
      NoStartedSweptKept(w, op);
    }
  }

  lemma NextKeepsLobbyInv(w: World, v: World)
    requires LobbyInv(w) && Next(w, v)
    ensures LobbyInv(v)
  {
    if v != w {
      var op :| Permitted(w, op) && v == Do(w, op);
      StepKeepsLobbyInv(w, op);
    }
  }

  /** Every reachable lobby state satisfies every invariant, however the lock sections interleave. */
  lemma {:induction false} EveryReachableState(ws: seq<World>, i: nat)
    requires Trace(ws) && i < |ws|
    ensures LobbyInv(ws[i])
  {
    if i == 0 {
      LobbyInvInit();
    } else {
      EveryReachableState(ws, i - 1);
      assert StepAt(ws, i - 1);
      NextKeepsLobbyInv(ws[i - 1], ws[i]);
    }
  }
}
