/** Whoever is in a room, or on its finish list, was admitted to it. */
module Admissions {
  import opened Types
  import opened World
  import opened Ranks
  import opened RateLimit

  predicate IsAdmission(e: Event, mid: Id, pid: Id) {
    e.Admitted? && e.mid == mid && e.pid == pid
  }

  ghost predicate EverAdmitted(log: seq<Event>, mid: Id, pid: Id) {
    exists k :: 0 <= k < |log| && IsAdmission(log[k], mid, pid)
  }

  /** Every member and every finisher of a match has an admission to that match on record. */
  ghost predicate MembersAdmitted(w: World) {
    && (forall mid, pid :: InRoom(w, mid, pid) ==> EverAdmitted(w.log, mid, pid))
    && (forall mid, pid :: HasRoom(w, mid) && pid in w.core.matches[mid].finished ==> EverAdmitted(w.log, mid, pid))
  }

  lemma AdmittedStays(log: seq<Event>, events: seq<Event>, mid: Id, pid: Id)
    requires EverAdmitted(log, mid, pid)
    ensures EverAdmitted(log + events, mid, pid)
  {
    var k :| 0 <= k < |log| && IsAdmission(log[k], mid, pid);
    assert (log + events)[k] == log[k];
  }

  lemma NewcomerIsAdmitted(w: World, op: Op, mid: Id, pid: Id)
    requires Permitted(w, op) && InRoom(Do(w, op), mid, pid) && !InRoom(w, mid, pid)
    ensures EverAdmitted(Do(w, op).log, mid, pid)
  {
    OnlyRegistrationAdds(w.core, op, mid, pid);
    assert Do(w, op).log[|w.log|] == EventsOf(w, op)[0];
  }

  /** A new finisher was a member when it finished. */
  lemma NewFinisherIsMember(w: World, op: Op, mid: Id, pid: Id)
    requires Permitted(w, op) && mid in CoreAfter(w.core, op).matches
    requires pid in CoreAfter(w.core, op).matches[mid].finished
    requires HasRoom(w, mid) ==> pid !in w.core.matches[mid].finished
    ensures InRoom(w, mid, pid)
  {
    if op.Finish? {
      if HasRoom(w, op.mid) { FinishReply(w.core, op.mid, op.pid, op.now); }
    } else {
      FinishListsKept(w.core, op, mid);
    }
  }

  lemma MembersAdmittedKept(w: World, op: Op)
    requires MembersAdmitted(w) && Permitted(w, op)
    ensures MembersAdmitted(Do(w, op))
  {
    var v := Do(w, op);
    forall mid, pid | InRoom(v, mid, pid) ensures EverAdmitted(v.log, mid, pid) {
      if InRoom(w, mid, pid) {
        AdmittedStays(w.log, EventsOf(w, op), mid, pid);
      } else {
        NewcomerIsAdmitted(w, op, mid, pid);
      }
    }
    forall mid, pid | HasRoom(v, mid) && pid in v.core.matches[mid].finished ensures EverAdmitted(v.log, mid, pid) {
      if !(HasRoom(w, mid) && pid in w.core.matches[mid].finished) {
        NewFinisherIsMember(w, op, mid, pid);
      }
      AdmittedStays(w.log, EventsOf(w, op), mid, pid);
    }
  }

  /** Over the whole log: every reply to a finish is about a player admitted to that match. */
  ghost predicate RepliesAdmitted(w: World) {
    forall k :: 0 <= k < |w.log| && w.log[k].Finished? ==> EverAdmitted(w.log, w.log[k].mid, w.log[k].pid)
  }

  lemma RepliesAdmittedKept(w: World, op: Op)
    requires MembersAdmitted(w) && RepliesAdmitted(w) && Permitted(w, op)
    ensures RepliesAdmitted(Do(w, op))
  {
    var v := Do(w, op);
    EventKinds(w, op);
    forall k | 0 <= k < |v.log| && v.log[k].Finished? ensures EverAdmitted(v.log, v.log[k].mid, v.log[k].pid) {
      if k < |w.log| {
        assert v.log[k] == w.log[k];
      } else {
        FinishReply(w.core, op.mid, op.pid, op.now);
        assert InRoom(w, op.mid, op.pid);
      }
      AdmittedStays(w.log, EventsOf(w, op), v.log[k].mid, v.log[k].pid);
    }
  }
}
