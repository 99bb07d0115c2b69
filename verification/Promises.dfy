/**
 What a run owes its players: every first start and every accepted change is announced to the
 match, every refused change is reported to its sender, and sweeps go by readings really taken.
 */
module Promises {
  import opened Wrappers
  import opened Types
  import opened Ordering
  import opened Lobby
  import opened Answers
  import opened World
  import opened Starts
  import opened Server
  import opened Sessions
  import opened Membership
  import opened Delivery
  import opened Recipients
  import opened Echo
  import opened Effects

  // ----- nothing is stuck -----

  /** A task's own next step, if its sends are not held up by a full channel. */
  function NextLabel(task: Task, t: nat, now: Unix, after: Unix, sent: bool, ms: nat, order: seq<Id>): Label {
    match task
    case JoinChecked(_, _) => JoinConsume(t, now)
    case JoinConsumed(_, _, _, _) => JoinRegister(t, now)
    case JoinRegistered(_, _, _, _) => JoinInsert(t)
    case JoinInserted(_, _, _, _) => JoinReply(t, sent, ms)
    case JoinFailed(_) => DropSession(t)
    case Leaving(_) => DropPlayer(t, now)
    case ParamLooked(_, _, _, _) => ParamUpdate(t, now, after, ms)
    case Announcing(_, _, _) => Fanout(t, order)
    case Sending(_, _, _, _) => Enqueue(t)
    case SweepPending(_) => SweepRun(t)
    case Relaying(_, _) => RelayRun(t)
  }

  /** The orders in which an announcement's recipients may be collected. */
  ghost predicate FitsFanout(s: Server, task: Task, order: seq<Id>) {
    task.Announcing? && HasRoom(s.w, task.mid) ==> Enumerates(order, s.w.core.matches[task.mid].players.Keys)
  }

  lemma SomeOrderFits(s: Server, task: Task) returns (order: seq<Id>)
    ensures FitsFanout(s, task, order)
  {
    order := [];
    if task.Announcing? && HasRoom(s.w, task.mid) {
      SortedKeysDiffer(s.w.core.matches[task.mid].players.Keys);
      order := SortedKeys(s.w.core.matches[task.mid].players.Keys);
    }
  }

  /** The task is about to send into an open channel in which 1024 messages wait. */
  predicate WaitsForSpace(s: Server, task: Task) {
    && task.Sending? && task.targets != []
    && var c := task.targets[0]; c in s.channels && s.channels[c].rx != Dropped && |s.channels[c].queue| >= 1024
  }

  /**
   In every reachable state each task can take its next step, whatever the clock says and in
   whatever order the map is read, exactly unless it waits for space in a channel.
   */
  lemma NoTaskIsStuck(s: Server, t: nat, now: Unix, after: Unix, sent: bool, ms: nat, order: seq<Id>)
    requires SessionInv(s) && t in s.tasks && FitsFanout(s, s.tasks[t], order)
    ensures Enabled(s, NextLabel(s.tasks[t], t, now, after, sent, ms, order)) <==> !WaitsForSpace(s, s.tasks[t])
  {
    if s.tasks[t].JoinConsumed? { ClaimIsPermitted(s, t, now); }
  }

  /** No message is turned away at the door, and a match can always be started. */
  lemma RequestsAreServed(s: Server, addr: SocketAddr, mid: Id, now: Unix, ms: nat) returns (picks: Picks)
    ensures forall token :: Enabled(s, JoinCheck(addr, token))
    ensures forall seqNo, param, direction :: Enabled(s, ParamLookup(addr, seqNo, param, direction))
    ensures forall suppress :: Enabled(s, RelayLookup(addr, suppress))
    ensures Enabled(s, SweepRead(now)) && Enabled(s, StartRoom(mid, now, picks, ms))
    ensures forall pid :: Enabled(s, Grpc(Finish(mid, pid, now)))
    ensures Enabled(s, Grpc(Delete(mid)))
  {
    var n := if HasRoom(s.w, mid) then |s.w.core.matches[mid].players| else 0;
    picks := Picks(seq(4, _ => 0), seq(n, _ => seq(5, _ => 0)));
  }

  // ----- from the log to the step that logged -----

  /** Step `i` logged entry `k`, and nothing else. */
  ghost predicate Logs(ss: seq<Server>, i: nat, k: nat, e: Event)
    requires i + 1 < |ss|
  {
    |ss[i].w.log| == k && ss[i + 1].w.log == ss[i].w.log + [e]
  }

  lemma StepLogs(s: Server, l: Label)
    requires Enabled(s, l)
    ensures s.w.log <= Step(s, l).w.log && |Step(s, l).w.log| <= |s.w.log| + 1
    ensures |Step(s, l).w.log| > |s.w.log| ==>
      && (Step(s, l).w.log[|s.w.log|].Started? ==> l.StartRoom?)
      && (Step(s, l).w.log[|s.w.log|].Changed? ==> l.ParamUpdate?)
      && (Step(s, l).w.log[|s.w.log|].Swept? ==> l.SweepRun?)
  {
    StepRefinesLobby(s, l);
    match SectionOf(s, l)
    case Some(op) => EventKinds(s.w, op);
    case None =>
  }

  lemma RunStepLogs(ss: seq<Server>, ls: seq<Label>, i: nat)
    requires Run(ss, ls) && i < |ls|
    ensures Enabled(ss[i], ls[i]) && ss[i + 1] == Step(ss[i], ls[i])
    ensures ss[i].w.log <= ss[i + 1].w.log && |ss[i + 1].w.log| <= |ss[i].w.log| + 1
  {
    assert RunStep(ss, ls, i);
    StepLogs(ss[i], ls[i]);
  }

  lemma {:induction false} LoggedAt(ss: seq<Server>, ls: seq<Label>, j: nat, k: nat) returns (i: nat)
    requires Run(ss, ls) && j < |ss| && k < |ss[j].w.log|
    ensures i < j && Logs(ss, i, k, ss[j].w.log[k])
  {
    assert j > 0;
    RunStepLogs(ss, ls, j - 1);
    if k < |ss[j - 1].w.log| {
      i := LoggedAt(ss, ls, j - 1, k);
    } else {
      i := j - 1;
    }
  }

  // ----- announcements -----

  lemma JoinsKeepAnnouncer(s: Server, l: Label, t: nat)
    requires NamesFresh(s) && Enabled(s, l) && IsJoinStep(l) && t in s.tasks && s.tasks[t].Announcing?
    ensures t in JoinStep(s, l).tasks && JoinStep(s, l).tasks[t] == s.tasks[t]
  {
    match l
    case JoinCheck(_, _) =>
    case JoinConsume(_, _) =>
    case JoinRegister(_, _) =>
    case JoinInsert(_) =>
    case JoinReply(_, _, _) =>
    case DropSession(_) =>
    case DropPlayer(_, _) =>
  }

  /** An announcement waits unchanged for its own fan-out. */
  lemma StepKeepsAnnouncer(s: Server, l: Label, t: nat)
    requires NamesFresh(s) && Enabled(s, l) && t in s.tasks && s.tasks[t].Announcing?
    requires !(l.Fanout? && l.task == t)
    ensures t in Step(s, l).tasks && Step(s, l).tasks[t] == s.tasks[t]
  {
    if IsJoinStep(l) { JoinsKeepAnnouncer(s, l, t); }
  }

  /** At step `m` the recipients of task `t`'s announcement are collected. */
  ghost predicate FannedOut(ss: seq<Server>, ls: seq<Label>, m: nat, t: nat, task: Task)
    requires m < |ls| && m < |ss|
  {
    t in ss[m].tasks && ss[m].tasks[t] == task && ls[m].Fanout? && ls[m].task == t
  }

  lemma RunStepKeepsAnnouncer(ss: seq<Server>, ls: seq<Label>, i: nat, t: nat)
    requires Run(ss, ls) && i < |ls| && t in ss[i].tasks && ss[i].tasks[t].Announcing?
    ensures (ls[i].Fanout? && ls[i].task == t) || (t in ss[i + 1].tasks && ss[i + 1].tasks[t] == ss[i].tasks[t])
  {
    assert RunStep(ss, ls, i);
    SessionInvAlways(ss, ls, i);
    if !(ls[i].Fanout? && ls[i].task == t) { StepKeepsAnnouncer(ss[i], ls[i], t); }
  }

  lemma {:induction false} UntilFanout(ss: seq<Server>, ls: seq<Label>, i: nat, j: nat, t: nat, task: Task)
    returns (m: Option<nat>)
    requires Run(ss, ls) && i <= j < |ss| && task.Announcing? && t in ss[i].tasks && ss[i].tasks[t] == task
    ensures m.None? ==> t in ss[j].tasks && ss[j].tasks[t] == task
    ensures m.Some? ==> i <= m.value < j && FannedOut(ss, ls, m.value, t, task)
    decreases j
  {
    m := None;
    if i < j {
      m := UntilFanout(ss, ls, i, j - 1, t, task);
      if m.None? {
        RunStepKeepsAnnouncer(ss, ls, j - 1, t);
        if ls[j - 1].Fanout? && ls[j - 1].task == t { m := Some(j - 1); }
      }
    }
  }

  function PostFor(task: Task): Post
    requires task.Announcing?
  {
    Post(task.mid, Origin.Broadcast(task.cause), task.msg)
  }

  /**
   Of the announcement fanned out in `s`: by `r` every channel of a member then is still to be sent
   to, has accepted it once, or has lost its receiver; and no other channel has heard of it.
   */
  ghost predicate Reaches(s: Server, r: Server, t: nat, task: Task)
    requires task.Announcing?
  {
    && (forall c :: c in s.channels && IsMemberChannel(s.w, task.mid, c) ==>
          && c in r.channels
          && (StillToSend(r, t, PostFor(task), c) || AcceptedOnce(r.channels[c], PostFor(task))
              || r.channels[c].rx == Dropped))
    && (forall c :: c in r.channels && Heard(r.channels[c].accepted, task.cause) ==>
          c in s.channels && IsMemberChannel(s.w, task.mid, c))
  }

  /** The announcement waits for its fan-out, or was fanned out, without effect only if its room was gone. */
  ghost predicate Announced(ss: seq<Server>, ls: seq<Label>, i: nat, j: nat, t: nat, task: Task)
    requires task.Announcing? && i <= j < |ss| && |ss| == |ls| + 1
  {
    || (t in ss[j].tasks && ss[j].tasks[t] == task)
    || (exists m :: i <= m < j && FannedOut(ss, ls, m, t, task)
                    && (HasRoom(ss[m].w, task.mid) ==> Reaches(ss[m], ss[j], t, task)))
  }

  lemma FannedOutReaches(ss: seq<Server>, ls: seq<Label>, m: nat, j: nat, t: nat, task: Task)
    requires Run(ss, ls) && m < j < |ss| && FannedOut(ss, ls, m, t, task) && task.Announcing?
    requires HasRoom(ss[m].w, task.mid)
    ensures Reaches(ss[m], ss[j], t, task)
  {
    FanoutOfRun(ss, ls, m, t, ls[m].order);
    var members := MemberChannels(ss[m], task.mid);
    StaysUnderWay(ss, ls, m + 1, j, t, PostFor(task), members);
    DeliveryAlways(ss, ls, j);
    UnderWayReaches(ss[m], ss[j], t, task);
  }

  lemma UnderWayReaches(s: Server, r: Server, t: nat, task: Task)
    requires task.Announcing? && UnderWay(r, t, PostFor(task), MemberChannels(s, task.mid)) && ChannelsOk(r)
    ensures Reaches(s, r, t, task)
  {
    forall c | c in s.channels && IsMemberChannel(s.w, task.mid, c)
      ensures c in r.channels
      ensures StillToSend(r, t, PostFor(task), c) || AcceptedOnce(r.channels[c], PostFor(task))
              || r.channels[c].rx == Dropped
    {
      assert c in MemberChannels(s, task.mid) && OnItsWay(r, t, PostFor(task), c);
      if PostFor(task) in r.channels[c].accepted { OnceAccepted(r.channels[c], PostFor(task)); }
    }
  }

  lemma AnnouncementIsMade(ss: seq<Server>, ls: seq<Label>, i: nat, j: nat, t: nat, task: Task)
    requires Run(ss, ls) && i <= j < |ss| && task.Announcing? && t in ss[i].tasks && ss[i].tasks[t] == task
    ensures Announced(ss, ls, i, j, t, task)
  {
    var m := UntilFanout(ss, ls, i, j, t, task);
    if m.Some? && HasRoom(ss[m.value].w, task.mid) { FannedOutReaches(ss, ls, m.value, j, t, task); }
  }

  /** At some step of the run, before state `j`, a task took on the announcement of log entry `k`. */
  ghost predicate TakenOn(ss: seq<Server>, ls: seq<Label>, i: nat, j: nat, k: nat, t: nat, task: Task)
    requires |ss| == |ls| + 1
  {
    && i < j < |ss| && task.Announcing? && task.cause == k && t in ss[i + 1].tasks && ss[i + 1].tasks[t] == task
    && Announced(ss, ls, i + 1, j, t, task)
  }

  lemma StartTakesOn(ss: seq<Server>, ls: seq<Label>, i: nat, e: Event) returns (t: nat, task: Task)
    requires Run(ss, ls) && i < |ls| && Logs(ss, i, |ss[i].w.log|, e) && e.Started? && e.reply.justStarted
    ensures t in ss[i + 1].tasks && ss[i + 1].tasks[t] == task
    ensures task.Announcing? && task.cause == |ss[i].w.log| && task.mid == e.mid && task.msg.MatchStarted?
    ensures task.msg == MatchStarted(e.mid, e.reply.startedAt, e.reply.players, task.msg.serverTimeMs)
  {
    assert RunStep(ss, ls, i);
    t, task := StartStepTakesOn(ss[i], ls[i], e);
  }

  lemma StartStepTakesOn(s: Server, l: Label, e: Event) returns (t: nat, task: Task)
    requires Enabled(s, l) && Step(s, l).w.log == s.w.log + [e] && e.Started? && e.reply.justStarted
    ensures var r := Step(s, l); t in r.tasks && r.tasks[t] == task
    ensures task.Announcing? && task.cause == |s.w.log| && task.mid == e.mid && task.msg.MatchStarted?
    ensures task.msg == MatchStarted(e.mid, e.reply.startedAt, e.reply.players, task.msg.serverTimeMs)
  {
    StepLogs(s, l);
    StepRefinesLobby(s, l);
    StartRoomMeaning(s, l.mid, l.now, l.picks, l.ms);
    LogMeaning(s.w, Start(l.mid, l.now, l.picks));
    t, task := s.next, Step(s, l).tasks[s.next];
  }

  lemma ChangeStepTakesOn(s: Server, l: Label, e: Event) returns (t: nat, task: Task)
    requires Enabled(s, l) && Step(s, l).w.log == s.w.log + [e] && e.Changed?
    ensures var r := Step(s, l); t in r.tasks && r.tasks[t] == task
    ensures task.Announcing? && task.cause == |s.w.log| && task.mid == e.mid && task.msg.ParamApplied?
    ensures task.msg.fromPlayerId == e.pid && task.msg.nextParamChangeAt == e.at + 7
  {
    StepLogs(s, l);
    ParamUpdateMeaning(s, l.task, l.now, l.after, l.ms);
    t, task := l.task, Step(s, l).tasks[l.task];
  }

  lemma ChangeTakesOn(ss: seq<Server>, ls: seq<Label>, i: nat, e: Event) returns (t: nat, task: Task)
    requires Run(ss, ls) && i < |ls| && Logs(ss, i, |ss[i].w.log|, e) && e.Changed?
    ensures t in ss[i + 1].tasks && ss[i + 1].tasks[t] == task
    ensures task.Announcing? && task.cause == |ss[i].w.log| && task.mid == e.mid && task.msg.ParamApplied?
    ensures task.msg.fromPlayerId == e.pid && task.msg.nextParamChangeAt == e.at + 7
  {
    assert RunStep(ss, ls, i);
    t, task := ChangeStepTakesOn(ss[i], ls[i], e);
  }

  /**
   In every run each first start on record is announced to its match, with the stamp and roster on
   record: its announcement waits, or was fanned out to the members of that moment, of whom each
   still has it coming, has accepted it once or has lost its receiver; or the room was gone by then.
   */
  lemma StartIsAnnounced(ss: seq<Server>, ls: seq<Label>, j: nat, k: nat) returns (i: nat, t: nat, task: Task)
    requires Run(ss, ls) && j < |ss| && k < |ss[j].w.log|
    requires ss[j].w.log[k].Started? && ss[j].w.log[k].reply.justStarted
    ensures TakenOn(ss, ls, i, j, k, t, task) && task.mid == ss[j].w.log[k].mid
    ensures var reply := ss[j].w.log[k].reply;
      task.msg.MatchStarted?
      && task.msg == MatchStarted(task.mid, reply.startedAt, reply.players, task.msg.serverTimeMs)
  {
    i := LoggedAt(ss, ls, j, k);
    t, task := StartTakesOn(ss, ls, i, ss[j].w.log[k]);
    AnnouncementIsMade(ss, ls, i + 1, j, t, task);
  }

  /** The channel carries one announcement that its match started, neither none nor two. */
  ghost predicate CarriesOneStart(ch: Channel) {
    exists k: nat ::
      && k < |ch.accepted| && ch.accepted[k].msg.MatchStarted?
      && forall n: nat :: n < |ch.accepted| && ch.accepted[n].msg.MatchStarted? ==> n == k
  }

  /**
   With a positive clock, once the announcement of a start is done, every channel of a member at
   its fan-out carries exactly one announcement of a start, unless its receiver is gone.
   */
  lemma StartIsHeardOnce(ss: seq<Server>, ls: seq<Label>, m: nat, j: nat, t: nat, task: Task, c: ChannelId)
    requires Run(ss, ls) && m < j < |ss| && FannedOut(ss, ls, m, t, task)
    requires task.Announcing? && task.msg.MatchStarted? && HasRoom(ss[m].w, task.mid)
    requires PositiveStarts(ss[j].w.log)
    requires c in ss[m].channels && IsMemberChannel(ss[m].w, task.mid, c) && t !in ss[j].tasks
    ensures c in ss[j].channels && (CarriesOneStart(ss[j].channels[c]) || ss[j].channels[c].rx == Dropped)
  {
    FannedOutReaches(ss, ls, m, j, t, task);
    var ch := ss[j].channels[c];
    if ch.rx != Dropped {
      var k: nat :| k < |ch.accepted| && ch.accepted[k] == PostFor(task);
      forall n: nat | n < |ch.accepted| && ch.accepted[n].msg.MatchStarted? ensures n == k {
        if n < k { AtMostOneStartPerChannel(ss, ls, j, c, n, k); }
        if k < n { AtMostOneStartPerChannel(ss, ls, j, c, k, n); }
      }
    }
  }

  /** In every run each accepted change on record is announced to its match in the same way. */
  lemma ChangeIsAnnounced(ss: seq<Server>, ls: seq<Label>, j: nat, k: nat) returns (i: nat, t: nat, task: Task)
    requires Run(ss, ls) && j < |ss| && k < |ss[j].w.log| && ss[j].w.log[k].Changed?
    ensures TakenOn(ss, ls, i, j, k, t, task) && task.mid == ss[j].w.log[k].mid && task.msg.ParamApplied?
    ensures task.msg.fromPlayerId == ss[j].w.log[k].pid && task.msg.nextParamChangeAt == ss[j].w.log[k].at + 7
    ensures ShowsLevels(ss[j].w.log[..k + 1], task.msg)
  {
    i := LoggedAt(ss, ls, j, k);
    t, task := ChangeTakesOn(ss, ls, i, ss[j].w.log[k]);
    AnnouncementIsMade(ss, ls, i + 1, j, t, task);
    DeliveryAlways(ss, ls, i + 1);
    assert DeliveryOk(ss[i + 1], task);
    LoggedPrefix(ss, ls, i + 1, j);
    assert ss[j].w.log[..k + 1] == ss[i + 1].w.log[..k + 1];
  }

  lemma {:induction false} LoggedPrefix(ss: seq<Server>, ls: seq<Label>, i: nat, j: nat)
    requires Run(ss, ls) && i <= j < |ss|
    ensures ss[i].w.log <= ss[j].w.log
    decreases j
  {
    if i < j {
      LoggedPrefix(ss, ls, i, j - 1);
      RunStepLogs(ss, ls, j - 1);
    }
  }

  // ----- refusals -----

  /** The channel will take the message, has taken it after the first `n`, or has lost its receiver. */
  ghost predicate StillOnItsWay(s: Server, t: nat, post: Post, c: ChannelId, n: nat) {
    && c in s.channels && n <= |s.channels[c].accepted|
    && (StillToSend(s, t, post, c) || post in s.channels[c].accepted[n..] || s.channels[c].rx == Dropped)
  }

  lemma EnqueueKeepsOnItsWay(s: Server, t: nat, post: Post, c: ChannelId, n: nat)
    requires Enabled(s, Enqueue(t)) && StillOnItsWay(s, t, post, c, n)
    ensures StillOnItsWay(DoEnqueue(s, t), t, post, c, n)
  {
    var targets, r := s.tasks[t].targets, DoEnqueue(s, t);
    if StillToSend(s, t, post, c) {
      assert c == targets[0] || c in targets[1..];
      if c == targets[0] && s.channels[c].rx != Dropped {
        assert r.channels[c].accepted[|s.channels[c].accepted|] == post;
      }
    } else if post in s.channels[c].accepted[n..] {
      StaysBehind(s.channels[c].accepted, r.channels[c].accepted, n, post);
    }
  }

  lemma StaysBehind(posts: seq<Post>, longer: seq<Post>, n: nat, post: Post)
    requires posts <= longer && n <= |posts| && post in posts[n..]
    ensures post in longer[n..]
  {
    assert longer[n..] == posts[n..] + longer[|posts|..];
  }

  lemma StepKeepsStillOnItsWay(s: Server, l: Label, t: nat, post: Post, c: ChannelId, n: nat)
    requires SessionInv(s) && Enabled(s, l) && StillOnItsWay(s, t, post, c, n)
    ensures StillOnItsWay(Step(s, l), t, post, c, n)
  {
    if l == Enqueue(t) {
      EnqueueKeepsOnItsWay(s, t, post, c, n);
    } else {
      StepIsOnward(s, l);
      if StillToSend(s, t, post, c) {
        StepKeepsSender(s, l, t);
      } else if post in s.channels[c].accepted[n..] {
        StaysBehind(s.channels[c].accepted, Step(s, l).channels[c].accepted, n, post);
      }
    }
  }

  lemma {:induction false} RemainsOnItsWay(
    ss: seq<Server>, ls: seq<Label>, i: nat, j: nat, t: nat, post: Post, c: ChannelId, n: nat)
    requires Run(ss, ls) && i <= j < |ss| && StillOnItsWay(ss[i], t, post, c, n)
    ensures StillOnItsWay(ss[j], t, post, c, n)
    decreases j
  {
    if i < j {
      RemainsOnItsWay(ss, ls, i, j - 1, t, post, c, n);
      SessionInvAlways(ss, ls, j - 1);
      RunStepStillOnItsWay(ss, ls, j - 1, t, post, c, n);
    }
  }

  lemma RunStepStillOnItsWay(ss: seq<Server>, ls: seq<Label>, i: nat, t: nat, post: Post, c: ChannelId, n: nat)
    requires Run(ss, ls) && i < |ls| && SessionInv(ss[i]) && StillOnItsWay(ss[i], t, post, c, n)
    ensures StillOnItsWay(ss[i + 1], t, post, c, n)
  {
    assert RunStep(ss, ls, i);
    StepKeepsStillOnItsWay(ss[i], ls[i], t, post, c, n);
  }

  lemma RefusalStarts(s: Server, t: nat, now: Unix, after: Unix, ms: nat, e: LobbyError)
    requires SessionInv(s) && DeliveryInv(s) && Enabled(s, ParamUpdate(t, now, after, ms))
    requires var was := s.tasks[t];
      ChangeRefused(s.w.core, was.session.matchId, was.session.playerId, was.param, was.direction, now, e)
    ensures var (r, session) := (Step(s, ParamUpdate(t, now, after, ms)), s.tasks[t].session);
      var post := Post(session.matchId, Complaint(session.playerId), Error("param_update_failed", e));
      && session.tx in s.channels
      && StillOnItsWay(r, t, post, session.tx, |s.channels[session.tx].accepted|)
  {
    ParamUpdateMeaning(s, t, now, after, ms);
    assert DeliveryOk(s, s.tasks[t]);
  }

  /**
   In every run a refused change is reported: while its task is there, the error with the one
   reason for it is still to be sent; afterwards the sender's channel has accepted it, later than
   everything before the refusal, or has lost its receiver.
   */
  lemma RefusalIsReported(
    ss: seq<Server>, ls: seq<Label>, i: nat, j: nat, t: nat, now: Unix, after: Unix, ms: nat, e: LobbyError)
    requires Run(ss, ls) && i < |ls| && ls[i] == ParamUpdate(t, now, after, ms) && i < j < |ss|
    requires t in ss[i].tasks && ss[i].tasks[t].ParamLooked?
    requires var was := ss[i].tasks[t];
      ChangeRefused(ss[i].w.core, was.session.matchId, was.session.playerId, was.param, was.direction, now, e)
    ensures var session := ss[i].tasks[t].session;
      var post := Post(session.matchId, Complaint(session.playerId), Error("param_update_failed", e));
      && session.tx in ss[i].channels
      && StillOnItsWay(ss[j], t, post, session.tx, |ss[i].channels[session.tx].accepted|)
  {
    assert RunStep(ss, ls, i);
    SessionInvAlways(ss, ls, i);
    DeliveryAlways(ss, ls, i);
    RefusalStarts(ss[i], t, now, after, ms, e);
    var session := ss[i].tasks[t].session;
    RemainsOnItsWay(ss, ls, i + 1, j, t,
      Post(session.matchId, Complaint(session.playerId), Error("param_update_failed", e)), session.tx,
      |ss[i].channels[session.tx].accepted|);
  }

  // ----- datagrams -----

  /** Record `k` was made by step `i`, and its addresses are those occupied in the match then. */
  ghost predicate RelayedBy(ss: seq<Server>, ls: seq<Label>, i: nat, k: nat, relay: Relay)
    requires i < |ls| && i < |ss|
  {
    && ls[i].RelayRun? && |ss[i].relayed| == k && HasRoom(ss[i].w, relay.session.matchId)
    && ls[i].task in ss[i].tasks && ss[i].tasks[ls[i].task] == Relaying(relay.session, relay.suppress)
    && forall a :: a in relay.to <==>
         Occupied(ss[i], relay.session.matchId, if relay.suppress then Some(relay.session.playerId) else None, a)
  }

  lemma StepRelays(s: Server, l: Label)
    requires SessionInv(s) && Enabled(s, l)
    ensures s.relayed <= Step(s, l).relayed && |Step(s, l).relayed| <= |s.relayed| + 1
    ensures |Step(s, l).relayed| > |s.relayed| ==> l.RelayRun?
  {
    if l.RelayRun? {
      RelayMeaning(s, l.task);
    } else if IsJoinStep(l) {
      JoinsRelayNothing(s, l);
    } else {
      OthersRelayNothing(s, l);
    }
  }

  lemma RunStepRelay(ss: seq<Server>, ls: seq<Label>, i: nat)
    requires Run(ss, ls) && i < |ls| && SessionInv(ss[i])
    ensures ss[i].relayed <= ss[i + 1].relayed && |ss[i + 1].relayed| <= |ss[i].relayed| + 1
    ensures |ss[i + 1].relayed| > |ss[i].relayed| ==>
      RelayedBy(ss, ls, i, |ss[i].relayed|, ss[i + 1].relayed[|ss[i].relayed|])
  {
    assert RunStep(ss, ls, i);
    StepRelays(ss[i], ls[i]);
    if ls[i].RelayRun? { RelayMeaning(ss[i], ls[i].task); }
  }

  /**
   In every run each datagram on record went, at the step that sent it, to exactly the addresses
   occupied in the match at that step, for a position by another player than its sender.
   */
  lemma {:induction false} RelaysAreExact(ss: seq<Server>, ls: seq<Label>, n: nat, k: nat) returns (i: nat)
    requires Run(ss, ls) && n < |ss| && k < |ss[n].relayed|
    ensures i < n && RelayedBy(ss, ls, i, k, ss[n].relayed[k])
  {
    assert n > 0;
    SessionInvAlways(ss, ls, n - 1);
    RunStepRelay(ss, ls, n - 1);
    if k < |ss[n - 1].relayed| {
      i := RelaysAreExact(ss, ls, n - 1, k);
    } else {
      i := n - 1;
    }
  }

  // ----- sweeps -----

  /** Some step before `n` read the clock at `reading` for a sweep. */
  ghost predicate ReadBefore(ls: seq<Label>, n: nat, reading: Unix) {
    exists k :: 0 <= k < n && k < |ls| && ls[k] == SweepRead(reading)
  }

  ghost predicate ReadingsTaken(s: Server, ls: seq<Label>, n: nat) {
    && (forall t :: t in s.tasks && s.tasks[t].SweepPending? ==> ReadBefore(ls, n, s.tasks[t].reading))
    && (forall k :: 0 <= k < |s.w.log| && s.w.log[k].Swept? ==> ReadBefore(ls, n, s.w.log[k].reading))
  }

  /** A sweep pending after a step was pending before, or is for the reading the step took. */
  ghost predicate PendingFrom(s: Server, r: Server, l: Label) {
    forall t :: t in r.tasks && r.tasks[t].SweepPending? ==>
      (t in s.tasks && r.tasks[t] == s.tasks[t]) || l == SweepRead(r.tasks[t].reading)
  }

  lemma JoinsTakeNoReading(s: Server, l: Label)
    requires Enabled(s, l) && IsJoinStep(l)
    ensures PendingFrom(s, JoinStep(s, l), l)
  {
    match l
    case JoinCheck(_, _) =>
    case JoinConsume(_, _) =>
    case JoinRegister(_, _) =>
    case JoinInsert(_) =>
    case JoinReply(_, _, _) =>
    case DropSession(_) =>
    case DropPlayer(_, _) =>
  }

  lemma OthersTakeReadings(s: Server, l: Label)
    requires Enabled(s, l) && !IsJoinStep(l)
    ensures PendingFrom(s, OtherStep(s, l), l)
  {
  }

  /** What a step logs of a sweep, it logs by the reading of a pending one. */
  ghost predicate SweepsByPending(s: Server, r: Server) {
    && s.w.log <= r.w.log && |r.w.log| <= |s.w.log| + 1
    && (|r.w.log| > |s.w.log| && r.w.log[|s.w.log|].Swept? ==>
          exists t :: t in s.tasks && s.tasks[t] == SweepPending(r.w.log[|s.w.log|].reading))
  }

  lemma StepSweepsByPending(s: Server, l: Label)
    requires Enabled(s, l)
    ensures SweepsByPending(s, Step(s, l))
  {
    StepLogs(s, l);
  }

  lemma NextReadings(s: Server, r: Server, ls: seq<Label>, n: nat)
    requires n < |ls| && ReadingsTaken(s, ls, n) && PendingFrom(s, r, ls[n]) && SweepsByPending(s, r)
    ensures ReadingsTaken(r, ls, n + 1)
  {
    forall reading | ReadBefore(ls, n, reading) || ls[n] == SweepRead(reading) ensures ReadBefore(ls, n + 1, reading) {
    }
    forall k | 0 <= k < |r.w.log| && r.w.log[k].Swept? ensures ReadBefore(ls, n + 1, r.w.log[k].reading) {
      if k < |s.w.log| {
        assert r.w.log[k] == s.w.log[k];
      }
    }
  }

  lemma RunStepReadings(ss: seq<Server>, ls: seq<Label>, i: nat)
    requires Run(ss, ls) && i < |ls| && ReadingsTaken(ss[i], ls, i)
    ensures ReadingsTaken(ss[i + 1], ls, i + 1)
  {
    assert RunStep(ss, ls, i);
    if IsJoinStep(ls[i]) { JoinsTakeNoReading(ss[i], ls[i]); } else { OthersTakeReadings(ss[i], ls[i]); }
    StepSweepsByPending(ss[i], ls[i]);
    NextReadings(ss[i], ss[i + 1], ls, i);
  }

  /** In every run each sweep, pending or done, goes by a reading that an earlier step took. */
  lemma {:induction false} SweepsUseReadings(ss: seq<Server>, ls: seq<Label>, n: nat)
    requires Run(ss, ls) && n < |ss|
    ensures ReadingsTaken(ss[n], ls, n)
  {
    if n > 0 {
      SweepsUseReadings(ss, ls, n - 1);
      RunStepReadings(ss, ls, n - 1);
    }
  }
}
