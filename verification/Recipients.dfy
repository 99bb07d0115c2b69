/** A broadcast from the snapshot of its recipients to the last enqueue. */
module Recipients {
  import opened Wrappers
  import opened Types
  import opened Ordering
  import opened Shuffle
  import opened Lobby
  import opened World
  import opened Identity
  import opened Server
  import opened Sessions
  import opened Membership
  import opened Delivery

  /** A task that is sending, and whose live targets all have space. */
  ghost predicate Ready(s: Server, t: nat) {
    && t in s.tasks && s.tasks[t].Sending? && Distinct(s.tasks[t].targets)
    && forall c :: c in s.tasks[t].targets && IsOpen(s, c) ==> |s.channels[c].queue| < CHANNEL_CAPACITY
  }

  lemma ReadyStays(s: Server, t: nat)
    requires Ready(s, t) && s.tasks[t].targets != []
    ensures Enabled(s, Enqueue(t)) && Ready(DoEnqueue(s, t), t)
  {
  }

  /** The enqueue steps of one task, one after the other. */
  ghost function SendAll(s: Server, t: nat): Server
    requires Ready(s, t)
    decreases |s.tasks[t].targets|
  {
    if s.tasks[t].targets == [] then s
    else
      ReadyStays(s, t);
      SendAll(Step(s, Enqueue(t)), t)
  }

  function Accept(ch: Channel, post: Post): Channel {
    ch.(queue := ch.queue + [post], accepted := ch.accepted + [post])
  }

  function PostOf(task: Task): Post
    requires task.Sending?
  {
    Post(task.mid, task.origin, task.msg)
  }

  /** The channel after the task is done: with the message at the end if it was a live target. */
  ghost function Received(s: Server, t: nat, c: ChannelId): Channel
    requires t in s.tasks && s.tasks[t].Sending? && c in s.channels
  {
    if c in s.tasks[t].targets && IsOpen(s, c) then Accept(s.channels[c], PostOf(s.tasks[t])) else s.channels[c]
  }

  /** Every live target takes the message once, at the end of its queue; nothing else changes. */
  lemma {:induction false} SendAllReachesTargets(s: Server, t: nat)
    requires Ready(s, t)
    ensures var r := SendAll(s, t);
      && r.channels.Keys == s.channels.Keys && r.w == s.w && r.sessions == s.sessions
      && (forall c :: c in s.channels ==> r.channels[c] == Received(s, t, c))
    decreases |s.tasks[t].targets|
  {
    var targets := s.tasks[t].targets;
    if targets != [] {
      ReadyStays(s, t);
      var next := DoEnqueue(s, t);
      SendAllReachesTargets(next, t);
      assert next.tasks[t] == s.tasks[t].(targets := targets[1..]);
      assert forall c :: c in targets <==> c == targets[0] || c in targets[1..];
      assert targets[0] !in targets[1..];
    }
  }

  ghost predicate IsMemberChannel(w: World, mid: Id, c: ChannelId) {
    exists pid :: InRoom(w, mid, pid) && PlayerAt(w, mid, pid).tx == c
  }

  lemma FanoutTargets(s: Server, t: nat, order: seq<Id>)
    requires SessionInv(s) && Enabled(s, Fanout(t, order)) && HasRoom(s.w, s.tasks[t].mid)
    ensures var r := DoFanout(s, t, order);
      && r == s.(tasks := r.tasks) && t in r.tasks && r.tasks[t].Sending?
      && PostOf(r.tasks[t]) == Post(s.tasks[t].mid, Origin.Broadcast(s.tasks[t].cause), s.tasks[t].msg)
      && Distinct(r.tasks[t].targets)
      && (forall c :: c in r.tasks[t].targets <==> IsMemberChannel(s.w, s.tasks[t].mid, c))
  {
    var mid := s.tasks[t].mid;
    var players := s.w.core.matches[mid].players;
    var targets := DoFanout(s, t, order).tasks[t].targets;
    assert forall i :: 0 <= i < |order| ==> order[i] in Elements(order);
    assert forall i :: 0 <= i < |order| ==> targets[i] == players[order[i]].tx;
    TargetsAreSeats(s, mid, order, targets);
    forall c | c in targets ensures IsMemberChannel(s.w, mid, c) {
      var i :| 0 <= i < |targets| && targets[i] == c;
      assert InRoom(s.w, mid, order[i]);
    }
    forall c | IsMemberChannel(s.w, mid, c) ensures c in targets {
      var pid :| InRoom(s.w, mid, pid) && PlayerAt(s.w, mid, pid).tx == c;
      assert pid in Elements(order);
      var i :| 0 <= i < |order| && order[i] == pid;
      assert targets[i] == c;
    }
  }

  /**
   A broadcast whose sends are not held up by a full channel puts the message once at the end of
   the queue of every member still held by a join, a session or a removal, and nowhere else. A
   member left behind by an overwritten session never gets it.
   */
  lemma BroadcastReachesMembers(s: Server, t: nat, order: seq<Id>, mid: Id, pid: Id)
    requires SessionInv(s) && Enabled(s, Fanout(t, order)) && s.tasks[t].mid == mid && InRoom(s.w, mid, pid)
    requires forall c :: c in s.channels && IsMemberChannel(s.w, mid, c) ==> |s.channels[c].queue| < CHANNEL_CAPACITY
    ensures Ready(DoFanout(s, t, order), t)
    ensures var r := SendAll(DoFanout(s, t, order), t);
      var post := Post(mid, Origin.Broadcast(s.tasks[t].cause), s.tasks[t].msg);
      var c := PlayerAt(s.w, mid, pid).tx;
      && c in s.channels && c in r.channels
      && r.channels[c] == (if Held(s, pid) then Accept(s.channels[c], post) else s.channels[c])
    ensures var r := SendAll(DoFanout(s, t, order), t);
      forall c :: c in s.channels && !IsMemberChannel(s.w, mid, c) ==> c in r.channels && r.channels[c] == s.channels[c]
  {
    FanoutTargets(s, t, order);
    SendAllReachesTargets(DoFanout(s, t, order), t);
    HeldIffReceiverAlive(s, mid, pid);
    var c := SeatChannel(s, mid, pid);
    assert IsMemberChannel(s.w, mid, c);
  }

  // ----- a broadcast in any interleaving -----

  /** Messages once accepted stay on record, and a dropped receiver stays dropped. */
  ghost predicate Onward(s: Server, r: Server) {
    forall c :: c in s.channels ==>
      && c in r.channels && s.channels[c].accepted <= r.channels[c].accepted
      && (s.channels[c].rx == Dropped ==> r.channels[c].rx == Dropped)
  }

  lemma InsertIsOnward(s: Server, t: nat)
    requires HoldersHold(s) && Enabled(s, JoinInsert(t))
    ensures forall c :: c in s.channels && s.channels[c].rx == Dropped ==>
      c in DoJoinInsert(s, t).channels && DoJoinInsert(s, t).channels[c].rx == Dropped
  {
    JoinInsertShape(s, t);
  }

  lemma DropIsOnward(s: Server, t: nat)
    requires HoldersHold(s) && Enabled(s, DropSession(t))
    ensures forall c :: c in s.channels && s.channels[c].rx == Dropped ==>
      c in DoDropSession(s, t).channels && DoDropSession(s, t).channels[c].rx == Dropped
  {
    DropSessionShape(s, t);
  }

  lemma JoinsKeepDropped(s: Server, l: Label)
    requires SessionInv(s) && Enabled(s, l) && IsJoinStep(l)
    ensures forall c :: c in s.channels && s.channels[c].rx == Dropped ==>
      c in JoinStep(s, l).channels && JoinStep(s, l).channels[c].rx == Dropped
  {
    match l
    case JoinCheck(_, _) =>
    case JoinConsume(_, _) =>
    case JoinRegister(t, now) => RegisterIsOnward(s, t, now);
    case JoinInsert(t) => InsertIsOnward(s, t);
    case JoinReply(_, _, _) =>
    case DropSession(t) => DropIsOnward(s, t);
    case DropPlayer(t, now) => LeaveIsOnward(s, t, now);
  }

  lemma LeaveIsOnward(s: Server, t: nat, now: Unix)
    requires Enabled(s, DropPlayer(t, now))
    ensures forall c :: c in s.channels && s.channels[c].rx == Dropped ==>
      c in DoDropPlayer(s, t, now).channels && DoDropPlayer(s, t, now).channels[c].rx == Dropped
  {
  }

  lemma RegisterIsOnward(s: Server, t: nat, now: Unix)
    requires NamesFresh(s) && Enabled(s, JoinRegister(t, now))
    ensures forall c :: c in s.channels && s.channels[c].rx == Dropped ==>
      c in DoJoinRegister(s, t, now).channels && DoJoinRegister(s, t, now).channels[c].rx == Dropped
  {
  }

  lemma OthersAccept(s: Server, l: Label)
    requires Enabled(s, l) && !IsJoinStep(l)
    ensures forall c :: c in s.channels ==>
      c in OtherStep(s, l).channels && s.channels[c].accepted <= OtherStep(s, l).channels[c].accepted
  {
  }

  lemma StepIsOnward(s: Server, l: Label)
    requires SessionInv(s) && Enabled(s, l)
    ensures Onward(s, Step(s, l))
  {
    if IsJoinStep(l) {
      JoinStepsAreQuiet(s, l);
      JoinsKeepDropped(s, l);
    } else {
      SameJoinsAfter(s, l);
      OthersAccept(s, l);
    }
  }

  /** A sending task only changes by its own sends. */
  lemma JoinsKeepSender(s: Server, l: Label, t: nat)
    requires NamesFresh(s) && Enabled(s, l) && IsJoinStep(l) && t in s.tasks && s.tasks[t].Sending?
    ensures t in JoinStep(s, l).tasks && JoinStep(s, l).tasks[t] == s.tasks[t]
  {
  }

  lemma StepKeepsSender(s: Server, l: Label, t: nat)
    requires NamesFresh(s) && Enabled(s, l) && t in s.tasks && s.tasks[t].Sending?
    requires !(l.Enqueue? && l.task == t)
    ensures t in Step(s, l).tasks && Step(s, l).tasks[t] == s.tasks[t]
  {
    if IsJoinStep(l) { JoinsKeepSender(s, l, t); }
  }

  /** The task still has to send to the channel. */
  predicate StillToSend(s: Server, t: nat, post: Post, c: ChannelId) {
    t in s.tasks && s.tasks[t].Sending? && PostOf(s.tasks[t]) == post && c in s.tasks[t].targets
  }

  /** The channel will take the message, has taken it, or has lost its receiver. */
  ghost predicate OnItsWay(s: Server, t: nat, post: Post, c: ChannelId) {
    && c in s.channels
    && (StillToSend(s, t, post, c) || post in s.channels[c].accepted || s.channels[c].rx == Dropped)
  }

  lemma EnqueueMovesOn(s: Server, t: nat, post: Post, c: ChannelId)
    requires Enabled(s, Enqueue(t)) && OnItsWay(s, t, post, c)
    ensures OnItsWay(DoEnqueue(s, t), t, post, c)
  {
    if StillToSend(s, t, post, c) {
      var targets := s.tasks[t].targets;
      assert c == targets[0] || c in targets[1..];
    }
  }

  lemma StepKeepsOnItsWay(s: Server, l: Label, t: nat, post: Post, c: ChannelId)
    requires SessionInv(s) && Enabled(s, l) && OnItsWay(s, t, post, c)
    ensures OnItsWay(Step(s, l), t, post, c)
  {
    if l == Enqueue(t) {
      EnqueueMovesOn(s, t, post, c);
    } else {
      StepIsOnward(s, l);
      if StillToSend(s, t, post, c) { StepKeepsSender(s, l, t); }
    }
  }

  /** Of the broadcasts of one event only those to `members` are under way or have arrived. */
  ghost predicate OnlyTo(s: Server, t: nat, cause: nat, members: set<ChannelId>) {
    && cause < |s.w.log|
    && (forall c :: c in s.channels && c !in members ==> !Heard(s.channels[c].accepted, cause))
    && (forall u :: u in s.tasks && CauseOf(s.tasks[u]) == Some(cause) ==>
          u == t && s.tasks[u].Sending? && forall c :: c in s.tasks[u].targets ==> c in members)
  }

  lemma QuietKeepsOnly(s: Server, r: Server, t: nat, cause: nat, members: set<ChannelId>)
    requires OnlyTo(s, t, cause, members) && Quiet(s, r)
    ensures OnlyTo(r, t, cause, members)
  {
  }

  lemma PreparingKeepsOnly(s: Server, r: Server, t: nat, u: nat, cause: nat, members: set<ChannelId>)
    requires OnlyTo(s, t, cause, members) && r.channels == s.channels && s.w.log <= r.w.log
    requires u in r.tasks && r.tasks == s.tasks[u := r.tasks[u]] && CauseOf(r.tasks[u]) != Some(cause)
    ensures OnlyTo(r, t, cause, members)
  {
  }

  lemma EnqueueKeepsOnly(s: Server, t: nat, u: nat, cause: nat, members: set<ChannelId>)
    requires OnlyTo(s, t, cause, members) && Enabled(s, Enqueue(u))
    ensures OnlyTo(DoEnqueue(s, u), t, cause, members)
  {
    var r := DoEnqueue(s, u);
    if s.tasks[u].targets != [] {
      var task := s.tasks[u];
      assert forall c :: c in task.targets[1..] ==> c in task.targets;
      forall c | c in r.channels && c !in members ensures !Heard(r.channels[c].accepted, cause) {
        HeardAppend(s.channels[c].accepted, PostOf(task), cause);
      }
    }
  }

  lemma HeardAppend(posts: seq<Post>, post: Post, cause: nat)
    ensures Heard(posts + [post], cause) <==> Heard(posts, cause) || post.origin == Origin.Broadcast(cause)
  {
    if Heard(posts, cause) {
      var i :| 0 <= i < |posts| && posts[i].origin == Origin.Broadcast(cause);
      assert (posts + [post])[i] == posts[i];
    }
    if post.origin == Origin.Broadcast(cause) {
      assert (posts + [post])[|posts|] == post;
    }
  }

  lemma FanoutKeepsOnly(s: Server, t: nat, u: nat, order: seq<Id>, cause: nat, members: set<ChannelId>)
    requires OnlyTo(s, t, cause, members) && Enabled(s, Fanout(u, order))
    ensures OnlyTo(DoFanout(s, u, order), t, cause, members)
  {
    var r := DoFanout(s, u, order);
    assert CauseOf(s.tasks[u]) != Some(cause);
    if HasRoom(s.w, s.tasks[u].mid) { PreparingKeepsOnly(s, r, t, u, cause, members); }
  }

  lemma ParamUpdateKeepsOnly(
    s: Server, t: nat, u: nat, now: Unix, after: Unix, ms: nat, cause: nat, members: set<ChannelId>)
    requires Agree(s.w) && OnlyTo(s, t, cause, members) && Enabled(s, ParamUpdate(u, now, after, ms))
    ensures OnlyTo(DoParamUpdate(s, u, now, after, ms), t, cause, members)
  {
    ParamUpdateShape(s, u, now, after, ms);
    PreparingKeepsOnly(s, DoParamUpdate(s, u, now, after, ms), t, u, cause, members);
  }

  lemma StartRoomKeepsOnly(
    s: Server, t: nat, mid: Id, now: Unix, picks: Picks, ms: nat, cause: nat, members: set<ChannelId>)
    requires NamesFresh(s) && OnlyTo(s, t, cause, members) && Permitted(s.w, Start(mid, now, picks))
    ensures OnlyTo(DoStartRoom(s, mid, now, picks, ms), t, cause, members)
  {
    var r := DoStartRoom(s, mid, now, picks, ms);
    StartRoomShape(s, mid, now, picks, ms);
    if r.tasks != s.tasks { PreparingKeepsOnly(s, r, t, s.next, cause, members); }
  }

  lemma SpawnKeepsOnly(s: Server, t: nat, task: Task, cause: nat, members: set<ChannelId>)
    requires OnlyTo(s, t, cause, members) && CauseOf(task).None?
    ensures OnlyTo(Spawn(s, task), t, cause, members)
  {
  }

  lemma DrainKeepsOnly(s: Server, t: nat, addr: SocketAddr, cause: nat, members: set<ChannelId>)
    requires OnlyTo(s, t, cause, members) && addr in s.sessions
    ensures OnlyTo(DoDrain(s, addr), t, cause, members)
  {
  }

  lemma ParamLookupKeepsOnly(
    s: Server, t: nat, addr: SocketAddr, seqNo: nat, param: ParamKind, direction: ParamDirection,
    cause: nat, members: set<ChannelId>)
    requires OnlyTo(s, t, cause, members)
    ensures OnlyTo(DoParamLookup(s, addr, seqNo, param, direction), t, cause, members)
  {
    if addr in s.sessions {
      SpawnKeepsOnly(s, t, ParamLooked(s.sessions[addr], seqNo, param, direction), cause, members);
    }
  }

  lemma RelayLookupKeepsOnly(
    s: Server, t: nat, addr: SocketAddr, suppress: bool, cause: nat, members: set<ChannelId>)
    requires OnlyTo(s, t, cause, members)
    ensures OnlyTo(DoRelayLookup(s, addr, suppress), t, cause, members)
  {
    if addr in s.sessions {
      SpawnKeepsOnly(s, t, Relaying(s.sessions[addr], suppress), cause, members);
    }
  }

  lemma MessageStepKeepsOnly(s: Server, l: Label, t: nat, cause: nat, members: set<ChannelId>)
    requires SessionInv(s) && Enabled(s, l) && OnlyTo(s, t, cause, members)
    requires l.ParamUpdate? || l.StartRoom? || l.Fanout? || l.Enqueue?
    ensures OnlyTo(OtherStep(s, l), t, cause, members)
  {
    match l
    case ParamUpdate(u, now, after, ms) => ParamUpdateKeepsOnly(s, t, u, now, after, ms, cause, members);
    case StartRoom(mid, now, picks, ms) => StartRoomKeepsOnly(s, t, mid, now, picks, ms, cause, members);
    case Fanout(u, order) => FanoutKeepsOnly(s, t, u, order, cause, members);
    case Enqueue(u) => EnqueueKeepsOnly(s, t, u, cause, members);
  }

  lemma OtherStepKeepsOnly(s: Server, l: Label, t: nat, cause: nat, members: set<ChannelId>)
    requires SessionInv(s) && Enabled(s, l) && !IsJoinStep(l) && OnlyTo(s, t, cause, members)
    ensures OnlyTo(OtherStep(s, l), t, cause, members)
  {
    if PostsNothing(l) {
      OtherStepsAreQuiet(s, l);
      QuietKeepsOnly(s, OtherStep(s, l), t, cause, members);
    } else {
      match l
      case ParamLookup(addr, seqNo, param, direction) =>
        ParamLookupKeepsOnly(s, t, addr, seqNo, param, direction, cause, members);
      case RelayLookup(addr, suppress) => RelayLookupKeepsOnly(s, t, addr, suppress, cause, members);
      case Drain(addr) => DrainKeepsOnly(s, t, addr, cause, members);
      case _ => MessageStepKeepsOnly(s, l, t, cause, members);
    }
  }

  lemma StepKeepsOnly(s: Server, l: Label, t: nat, cause: nat, members: set<ChannelId>)
    requires SessionInv(s) && Enabled(s, l) && OnlyTo(s, t, cause, members)
    ensures OnlyTo(Step(s, l), t, cause, members)
  {
    if IsJoinStep(l) {
      JoinStepsAreQuiet(s, l);
      QuietKeepsOnly(s, JoinStep(s, l), t, cause, members);
    } else {
      OtherStepKeepsOnly(s, l, t, cause, members);
    }
  }

  /** The channels of the members when the recipients of a broadcast are collected. */
  ghost function MemberChannels(s: Server, mid: Id): set<ChannelId> {
    set c | c in s.channels && IsMemberChannel(s.w, mid, c)
  }

  /** What holds of a broadcast from its fan-out on. */
  ghost predicate UnderWay(s: Server, t: nat, post: Post, members: set<ChannelId>) {
    && post.origin.Broadcast? && OnlyTo(s, t, post.origin.cause, members)
    && (forall c :: c in members ==> OnItsWay(s, t, post, c))
  }

  lemma FanoutStarts(s: Server, t: nat, order: seq<Id>)
    requires SessionInv(s) && DeliveryInv(s) && Enabled(s, Fanout(t, order)) && HasRoom(s.w, s.tasks[t].mid)
    ensures var task := s.tasks[t];
      UnderWay(DoFanout(s, t, order), t, Post(task.mid, Origin.Broadcast(task.cause), task.msg),
               MemberChannels(s, task.mid))
  {
    FanoutTargets(s, t, order);
    FanoutFits(s, t, order);
    assert DeliveryOk(s, s.tasks[t]);
  }

  lemma RunStepUnderWay(
    ss: seq<Server>, ls: seq<Label>, i: nat, t: nat, post: Post, members: set<ChannelId>)
    requires Run(ss, ls) && i < |ls| && SessionInv(ss[i]) && UnderWay(ss[i], t, post, members)
    ensures UnderWay(ss[i + 1], t, post, members)
  {
    assert RunStep(ss, ls, i);
    StepKeepsOnly(ss[i], ls[i], t, post.origin.cause, members);
    forall c | c in members ensures OnItsWay(ss[i + 1], t, post, c) {
      StepKeepsOnItsWay(ss[i], ls[i], t, post, c);
    }
  }

  lemma {:induction false} StaysUnderWay(
    ss: seq<Server>, ls: seq<Label>, i: nat, j: nat, t: nat, post: Post, members: set<ChannelId>)
    requires Run(ss, ls) && i <= j < |ss| && UnderWay(ss[i], t, post, members)
    ensures UnderWay(ss[j], t, post, members)
    decreases j
  {
    if i < j {
      StaysUnderWay(ss, ls, i, j - 1, t, post, members);
      SessionInvAlways(ss, ls, j - 1);
      RunStepUnderWay(ss, ls, j - 1, t, post, members);
    }
  }

  /** The message is on record exactly once. */
  ghost predicate AcceptedOnce(ch: Channel, post: Post) {
    exists k: nat ::
      && k < |ch.accepted| && ch.accepted[k] == post
      && forall n: nat :: n < |ch.accepted| && ch.accepted[n].origin == post.origin ==> n == k
  }

  lemma OnceAccepted(ch: Channel, post: Post)
    requires HeardOnce(ch.accepted) && post.origin.Broadcast? && post in ch.accepted
    ensures AcceptedOnce(ch, post)
  {
    var k :| 0 <= k < |ch.accepted| && ch.accepted[k] == post;
  }

  lemma FanoutOfRun(ss: seq<Server>, ls: seq<Label>, i: nat, t: nat, order: seq<Id>)
    requires Run(ss, ls) && i < |ls| && ls[i] == Fanout(t, order)
    ensures Enabled(ss[i], Fanout(t, order))
    ensures HasRoom(ss[i].w, ss[i].tasks[t].mid) ==>
      var task := ss[i].tasks[t];
      UnderWay(ss[i + 1], t, Post(task.mid, Origin.Broadcast(task.cause), task.msg), MemberChannels(ss[i], task.mid))
  {
    assert RunStep(ss, ls, i);
    SessionInvAlways(ss, ls, i);
    DeliveryAlways(ss, ls, i);
    if HasRoom(ss[i].w, ss[i].tasks[t].mid) { FanoutStarts(ss[i], t, order); }
  }

  /**
   In every run, whatever runs between the sends and however long they wait: when a broadcast is
   done, every channel of a member at the moment the recipients were collected has accepted the
   message exactly once, unless its receiver is gone by then; and no other channel ever hears of it.
   */
  lemma BroadcastIsDelivered(ss: seq<Server>, ls: seq<Label>, i: nat, t: nat, order: seq<Id>, j: nat, c: ChannelId)
    requires Run(ss, ls) && i < |ls| && ls[i] == Fanout(t, order) && i < j < |ss|
    requires t in ss[i].tasks && ss[i].tasks[t].Announcing? && HasRoom(ss[i].w, ss[i].tasks[t].mid)
    ensures var task := ss[i].tasks[t];
      var post := Post(task.mid, Origin.Broadcast(task.cause), task.msg);
      && (IsMemberChannel(ss[i].w, task.mid, c) && c in ss[i].channels && t !in ss[j].tasks ==>
            c in ss[j].channels && (AcceptedOnce(ss[j].channels[c], post) || ss[j].channels[c].rx == Dropped))
      && (c in ss[j].channels && !(c in ss[i].channels && IsMemberChannel(ss[i].w, task.mid, c)) ==>
            !Heard(ss[j].channels[c].accepted, task.cause))
  {
    var task := ss[i].tasks[t];
    var post := Post(task.mid, Origin.Broadcast(task.cause), task.msg);
    FanoutOfRun(ss, ls, i, t, order);
    StaysUnderWay(ss, ls, i + 1, j, t, post, MemberChannels(ss[i], task.mid));
    DeliveryAlways(ss, ls, j);
    if c in MemberChannels(ss[i], task.mid) && t !in ss[j].tasks && ss[j].channels[c].rx != Dropped {
      OnceAccepted(ss[j].channels[c], post);
    }
  }

  /** Every member has such a channel. */
  lemma MembersHaveChannels(s: Server, mid: Id, pid: Id)
    requires SessionInv(s) && InRoom(s.w, mid, pid)
    ensures PlayerAt(s.w, mid, pid).tx in s.channels && IsMemberChannel(s.w, mid, PlayerAt(s.w, mid, pid).tx)
  {
    var c := SeatChannel(s, mid, pid);
  }

  // ----- sends that wait -----

  /** The step of whoever holds the receiver. */
  function HolderStep(s: Server, c: ChannelId, now: Unix): Option<Label>
    requires c in s.channels
  {
    match s.channels[c].rx
    case ByJoin => Some(JoinInsert(c))
    case ByRegistry => Some(Drain(s.channels[c].addr))
    case ByRemoval(u) => Some(DropPlayer(u, now))
    case Dropped => None
  }

  /**
   A send that waits is never stuck: whoever holds the receiver of the full channel can take a
   step. A drain or the end of a removal lets the send go on; an insert hands the receiver to the
   registry, which drains it.
   */
  lemma BlockedSendCanGoOn(s: Server, t: nat, now: Unix)
    requires SessionInv(s) && DeliveryInv(s) && t in s.tasks && s.tasks[t].Sending? && !CanSend(s, s.tasks[t].targets)
    ensures var c := s.tasks[t].targets[0];
      && c in s.channels && HolderStep(s, c, now).Some? && Enabled(s, HolderStep(s, c, now).value)
      && var r := Step(s, HolderStep(s, c, now).value);
         && t in r.tasks && r.tasks[t] == s.tasks[t]
         && c in r.channels
         && if s.channels[c].rx == ByJoin then r.channels[c].rx == ByRegistry else CanSend(r, r.tasks[t].targets)
  {
    var c := s.tasks[t].targets[0];
    HolderCanStep(s, c, now);
    StepKeepsSender(s, HolderStep(s, c, now).value, t);
  }

  lemma HolderCanStep(s: Server, c: ChannelId, now: Unix)
    requires SessionInv(s) && c in s.channels && s.channels[c].rx != Dropped
    requires 0 < |s.channels[c].queue| <= CHANNEL_CAPACITY
    ensures Enabled(s, HolderStep(s, c, now).value)
    ensures var r := Step(s, HolderStep(s, c, now).value);
      && c in r.channels
      && if s.channels[c].rx == ByJoin then r.channels[c].rx == ByRegistry
         else r.channels[c].rx == Dropped || |r.channels[c].queue| < CHANNEL_CAPACITY
  {
    match s.channels[c].rx
    case ByJoin => InsertHandsOver(s, c);
    case ByRegistry => DrainMakesRoom(s, c);
    case ByRemoval(u) =>
  }

  lemma InsertHandsOver(s: Server, c: ChannelId)
    requires HoldersHold(s) && OwnersStand(s) && c in s.channels && s.channels[c].rx == ByJoin
    ensures Enabled(s, JoinInsert(c)) && c in DoJoinInsert(s, c).channels
    ensures DoJoinInsert(s, c).channels[c].rx == ByRegistry
  {
    JoinInsertShape(s, c);
  }

  lemma DrainMakesRoom(s: Server, c: ChannelId)
    requires ReceiversOwned(s) && c in s.channels && s.channels[c].rx == ByRegistry
    requires 0 < |s.channels[c].queue| <= CHANNEL_CAPACITY
    ensures Enabled(s, Drain(s.channels[c].addr))
    ensures c in DoDrain(s, s.channels[c].addr).channels
    ensures |DoDrain(s, s.channels[c].addr).channels[c].queue| < CHANNEL_CAPACITY
  {
    SessionOfChannel(s, c);
  }

}
