/** The reply to a join: sent at most once per player, and about the seat that was taken. */
module Welcome {
  import opened Types
  import opened World
  import opened Server
  import opened Sessions
  import opened Membership

  /** The packet tells the seat's address about the seat. */
  predicate Welcomes(p: Packet, ch: Channel) {
    p.msg.JoinOk? && p.to == ch.addr && p.msg.matchId == ch.mid && p.msg.playerId == ch.pid
  }

  /** Sent by join task `c`, which is over. */
  predicate SentBy(s: Server, p: Packet, c: ChannelId) {
    c in s.channels && c !in s.tasks && Welcomes(p, s.channels[c])
  }

  ghost predicate RepliesKnowSeats(s: Server) {
    forall t :: t in s.tasks && s.tasks[t].JoinInserted? ==>
      && t in s.channels && s.channels[t].mid == s.tasks[t].mid
      && s.channels[t].pid == s.tasks[t].pid && s.channels[t].addr == s.tasks[t].addr
  }

  ghost predicate WelcomesSent(s: Server) {
    forall i :: 0 <= i < |s.direct| && s.direct[i].msg.JoinOk? ==> exists c :: SentBy(s, s.direct[i], c)
  }

  ghost predicate WelcomesDiffer(direct: seq<Packet>) {
    forall i, j :: 0 <= i < j < |direct| && direct[i].msg.JoinOk? && direct[j].msg.JoinOk? ==>
      direct[i].msg.playerId != direct[j].msg.playerId
  }

  ghost predicate WelcomeInv(s: Server) {
    RepliesKnowSeats(s) && WelcomesSent(s) && WelcomesDiffer(s.direct)
  }

  // ----- what a step does to names -----

  /** Channels keep their names, and ids of new tasks were never used. */
  ghost predicate NamesKept(s: Server, r: Server) {
    && s.channels.Keys <= r.channels.Keys
    && (forall c :: c in s.channels ==>
          && r.channels[c].mid == s.channels[c].mid && r.channels[c].pid == s.channels[c].pid
          && r.channels[c].addr == s.channels[c].addr)
    && (forall t :: t in r.tasks ==> t in s.tasks || t >= s.next)
  }

  /** No reply to a join is sent, and none comes due. */
  ghost predicate NoWelcome(s: Server, r: Server) {
    && (r.direct == s.direct || (exists p: Packet :: !p.msg.JoinOk? && r.direct == s.direct + [p]))
    && (forall t :: t in r.tasks && r.tasks[t].JoinInserted? ==> t in s.tasks && r.tasks[t] == s.tasks[t])
  }

  lemma NoWelcomeKeeps(s: Server, r: Server)
    requires NamesFresh(s) && WelcomeInv(s) && NamesKept(s, r) && NoWelcome(s, r)
    ensures WelcomeInv(r)
  {
    forall i | 0 <= i < |r.direct| && r.direct[i].msg.JoinOk? ensures exists c :: SentBy(r, r.direct[i], c) {
      assert i < |s.direct| && r.direct[i] == s.direct[i];
      var c :| SentBy(s, s.direct[i], c);
      assert SentBy(r, r.direct[i], c);
    }
  }

  lemma BystanderTasksAreNew(s: Server, l: Label)
    requires Enabled(s, l) && !IsJoinStep(l)
    ensures forall t :: t in Step(s, l).tasks ==> t in s.tasks || t >= s.next
  {
  }

  lemma BystandersSendNoWelcome(s: Server, l: Label)
    requires NamesFresh(s) && WelcomeInv(s) && Enabled(s, l) && !IsJoinStep(l)
    ensures WelcomeInv(Step(s, l))
  {
    SameJoinsAfter(s, l);
    DirectUntouched(s, l);
    BystanderTasksAreNew(s, l);
    NoWelcomeKeeps(s, Step(s, l));
  }

  lemma CheckSendsNoWelcome(s: Server, addr: SocketAddr, token: Token)
    requires NamesFresh(s) && WelcomeInv(s)
    ensures WelcomeInv(DoJoinCheck(s, addr, token))
  {
    NoWelcomeKeeps(s, DoJoinCheck(s, addr, token));
  }

  lemma ConsumeSendsNoWelcome(s: Server, t: nat, now: Unix)
    requires NamesFresh(s) && WelcomeInv(s) && Enabled(s, JoinConsume(t, now))
    ensures WelcomeInv(DoJoinConsume(s, t, now))
  {
    NoWelcomeKeeps(s, DoJoinConsume(s, t, now));
  }

  lemma RegisterSendsNoWelcome(s: Server, t: nat, now: Unix)
    requires NamesFresh(s) && WelcomeInv(s) && Enabled(s, JoinRegister(t, now))
    ensures WelcomeInv(DoJoinRegister(s, t, now))
  {
    NoWelcomeKeeps(s, DoJoinRegister(s, t, now));
  }

  lemma DropSendsNoWelcome(s: Server, t: nat)
    requires NamesFresh(s) && WelcomeInv(s) && Enabled(s, DropSession(t))
    ensures WelcomeInv(DoDropSession(s, t))
  {
    NoWelcomeKeeps(s, DoDropSession(s, t));
  }

  lemma LeaveSendsNoWelcome(s: Server, t: nat, now: Unix)
    requires NamesFresh(s) && WelcomeInv(s) && Enabled(s, DropPlayer(t, now))
    ensures WelcomeInv(DoDropPlayer(s, t, now))
  {
    NoWelcomeKeeps(s, DoDropPlayer(s, t, now));
  }

  lemma FailedReplySendsNoWelcome(s: Server, t: nat, ms: nat)
    requires NamesFresh(s) && WelcomeInv(s) && Enabled(s, JoinReply(t, false, ms))
    ensures WelcomeInv(DoJoinReply(s, t, false, ms))
  {
    NoWelcomeKeeps(s, DoJoinReply(s, t, false, ms));
  }

  lemma InsertKeepsWelcomes(s: Server, r: Server, t: nat)
    requires HoldersHold(s) && WelcomeInv(s) && InsertShape(s, r, t) && r.direct == s.direct
    ensures WelcomeInv(r)
  {
    forall i | 0 <= i < |r.direct| && r.direct[i].msg.JoinOk? ensures exists c :: SentBy(r, r.direct[i], c) {
      var c :| SentBy(s, s.direct[i], c);
      assert SentBy(r, r.direct[i], c);
    }
  }

  lemma ReplyKeepsWelcomes(s: Server, t: nat, ms: nat)
    requires SessionInv(s) && WelcomeInv(s) && Enabled(s, JoinReply(t, true, ms))
    ensures WelcomeInv(DoJoinReply(s, t, true, ms))
  {
    var r := DoJoinReply(s, t, true, ms);
    forall i | 0 <= i < |s.direct| && s.direct[i].msg.JoinOk?
      ensures (exists c :: SentBy(r, s.direct[i], c)) && s.direct[i].msg.playerId != s.tasks[t].pid
    {
      var c :| SentBy(s, s.direct[i], c);
      assert SentBy(r, s.direct[i], c);
      assert c != t;
    }
    assert SentBy(r, r.direct[|s.direct|], t);
  }

  lemma WelcomeKept(s: Server, l: Label)
    requires SessionInv(s) && WelcomeInv(s) && Enabled(s, l)
    ensures WelcomeInv(Step(s, l))
  {
    if IsJoinStep(l) {
      WelcomeKeptByJoins(s, l);
    } else {
      BystandersSendNoWelcome(s, l);
    }
  }

  lemma WelcomeKeptByJoins(s: Server, l: Label)
    requires SessionInv(s) && WelcomeInv(s) && Enabled(s, l) && IsJoinStep(l)
    ensures WelcomeInv(JoinStep(s, l))
  {
    match l
    case JoinCheck(addr, token) => CheckSendsNoWelcome(s, addr, token);
    case JoinConsume(t, now) => ConsumeSendsNoWelcome(s, t, now);
    case JoinRegister(t, now) => RegisterSendsNoWelcome(s, t, now);
    case JoinInsert(t) => InsertSendsNoWelcome(s, t);
    case JoinReply(t, sent, ms) =>
      if sent { ReplyKeepsWelcomes(s, t, ms); } else { FailedReplySendsNoWelcome(s, t, ms); }
    case DropSession(t) => DropSendsNoWelcome(s, t);
    case DropPlayer(t, now) => LeaveSendsNoWelcome(s, t, now);
  }

  lemma InsertSendsNoWelcome(s: Server, t: nat)
    requires HoldersHold(s) && WelcomeInv(s) && Enabled(s, JoinInsert(t))
    ensures WelcomeInv(DoJoinInsert(s, t))
  {
    JoinInsertShape(s, t);
    InsertKeepsWelcomes(s, DoJoinInsert(s, t), t);
  }

  lemma {:induction false} WelcomeAlways(ss: seq<Server>, ls: seq<Label>, n: nat)
    requires Run(ss, ls) && n < |ss|
    ensures WelcomeInv(ss[n])
  {
    if n > 0 {
      WelcomeAlways(ss, ls, n - 1);
      SessionInvAlways(ss, ls, n - 1);
      RunStepWelcomes(ss, ls, n - 1);
    }
  }

  lemma RunStepWelcomes(ss: seq<Server>, ls: seq<Label>, i: nat)
    requires Run(ss, ls) && i < |ls| && SessionInv(ss[i]) && WelcomeInv(ss[i])
    ensures WelcomeInv(ss[i + 1])
  {
    assert RunStep(ss, ls, i);
    WelcomeKept(ss[i], ls[i]);
  }

  /**
   In every run a player is welcomed at most once, at the address it is or was seated at, to the
   match its ticket was for, and with the default parameters.
   */
  lemma WelcomedOnce(ss: seq<Server>, ls: seq<Label>, n: nat, i: nat, j: nat)
    requires Run(ss, ls) && n < |ss| && i < |ss[n].direct| && ss[n].direct[i].msg.JoinOk?
    ensures var p := ss[n].direct[i];
      && p.msg.params == DEFAULT_PARAMS && p.msg.playerId in ss[n].w.life
      && (ss[n].w.life[p.msg.playerId] == Removed
          || exists tx :: ss[n].w.life[p.msg.playerId] == Seated(p.msg.matchId, tx, p.to))
    ensures exists c :: c in ss[n].channels && Welcomes(ss[n].direct[i], ss[n].channels[c])
    ensures j < |ss[n].direct| && j != i && ss[n].direct[j].msg.JoinOk? ==>
              ss[n].direct[j].msg.playerId != ss[n].direct[i].msg.playerId
  {
    var s := ss[n];
    WelcomeAlways(ss, ls, n);
    EveryReachableServer(ss, ls, n);
    var c :| SentBy(s, s.direct[i], c);
    assert s.channels[c].pid == s.direct[i].msg.playerId;
  }
}
