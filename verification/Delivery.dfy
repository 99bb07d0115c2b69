/** Reliable messages: nothing lost or reordered in a channel, nothing misdirected or repeated. */
module Delivery {
  import opened Wrappers
  import opened Types
  import opened Ordering
  import opened Shuffle
  import opened Params
  import opened Lobby
  import opened World
  import opened Identity
  import opened Starts
  import opened RateLimit
  import opened Server
  import opened Sessions
  import opened Membership

  /** The message that announces a logged event to a match. */
  predicate Announces(e: Event, mid: Id, msg: ServerReliable) {
    || (e.Changed? && e.mid == mid && msg.ParamApplied?
        && msg.fromPlayerId == e.pid && msg.nextParamChangeAt == e.at + 7)
    || (e.Started? && e.mid == mid && e.reply.justStarted && msg.MatchStarted?
        && msg.matchId == mid && msg.startedAt == e.reply.startedAt && msg.players == e.reply.players)
  }

  /** An announced change shows the levels that all changes up to and including it add up to. */
  ghost predicate ShowsLevels(log: seq<Event>, msg: ServerReliable) {
    msg.ParamApplied? ==>
      forall param: ParamKind :: Level(msg.params, param) as int == 2 + Net(log, msg.fromPlayerId, param)
  }

  ghost predicate AnnouncesAt(log: seq<Event>, cause: nat, mid: Id, msg: ServerReliable) {
    cause < |log| && Announces(log[cause], mid, msg) && ShowsLevels(log[..cause + 1], msg)
  }

  lemma AnnouncedStays(log: seq<Event>, longer: seq<Event>, cause: nat, mid: Id, msg: ServerReliable)
    requires AnnouncesAt(log, cause, mid, msg) && log <= longer
    ensures AnnouncesAt(longer, cause, mid, msg)
  {
    assert longer[..cause + 1] == log[..cause + 1];
  }

  /** A message a channel may carry: its own player's error, or a broadcast to its own match. */
  ghost predicate Belongs(log: seq<Event>, ch: Channel, post: Post) {
    && post.mid == ch.mid
    && match post.origin
       case Complaint(pid) => pid == ch.pid && post.msg.Error?
       case Broadcast(cause) => AnnouncesAt(log, cause, post.mid, post.msg)
  }

  ghost predicate Heard(posts: seq<Post>, cause: nat) {
    exists i :: 0 <= i < |posts| && posts[i].origin == Broadcast(cause)
  }

  ghost predicate HeardOnce(posts: seq<Post>) {
    forall i, j :: 0 <= i < j < |posts| && posts[i].origin.Broadcast? ==> posts[i].origin != posts[j].origin
  }

  ghost predicate ChannelOk(log: seq<Event>, ch: Channel) {
    && ch.accepted == ch.emitted + ch.queue
    && |ch.queue| <= CHANNEL_CAPACITY
    && ch.destinations <= {ch.addr}
    && (forall i :: 0 <= i < |ch.accepted| ==> Belongs(log, ch, ch.accepted[i]))
    && HeardOnce(ch.accepted)
  }

  ghost predicate ChannelsOk(s: Server) {
    forall c :: c in s.channels ==> ChannelOk(s.w.log, s.channels[c])
  }

  function CauseOf(task: Task): Option<nat> {
    match task
    case Announcing(_, cause, _) => Some(cause)
    case Sending(_, Broadcast(cause), _, _) => Some(cause)
    case _ => None
  }

  predicate InDelivery(task: Task) {
    task.Announcing? || task.Sending? || task.ParamLooked? || task.Relaying?
  }

  /** What a task that is about to send knows about its targets. */
  ghost predicate DeliveryOk(s: Server, task: Task) {
    match task
    case ParamLooked(session, _, _, _) => session.tx in s.channels && Names(s.channels[session.tx], session)
    case Relaying(session, _) => session.tx in s.channels && Names(s.channels[session.tx], session)
    case Announcing(mid, cause, msg) =>
      && AnnouncesAt(s.w.log, cause, mid, msg)
      && forall c :: c in s.channels ==> !Heard(s.channels[c].accepted, cause)
    case Sending(mid, origin, targets, msg) =>
      && (forall c :: c in targets ==> c in s.channels && s.channels[c].mid == mid)
      && Distinct(targets)
      && (match origin
          case Complaint(pid) => msg.Error? && forall c :: c in targets ==> s.channels[c].pid == pid
          case Broadcast(cause) =>
            && AnnouncesAt(s.w.log, cause, mid, msg)
            && forall c :: c in targets ==> !Heard(s.channels[c].accepted, cause))
    case _ => true
  }

  ghost predicate DeliveriesOk(s: Server) {
    forall t :: t in s.tasks ==> DeliveryOk(s, s.tasks[t])
  }

  /** Each logged event is announced by one task. */
  ghost predicate CausesDiffer(s: Server) {
    && (forall t, u :: t in s.tasks && u in s.tasks && t != u && CauseOf(s.tasks[t]).Some? ==>
          CauseOf(s.tasks[t]) != CauseOf(s.tasks[u]))
    && (forall t :: t in s.tasks && CauseOf(s.tasks[t]).Some? ==> CauseOf(s.tasks[t]).value < |s.w.log|)
  }

  ghost predicate DeliveryInv(s: Server) {
    ChannelsOk(s) && DeliveriesOk(s) && CausesDiffer(s)
  }

  // ----- steps that send nothing -----

  ghost predicate Quiet(s: Server, r: Server) {
    && s.w.log <= r.w.log
    && s.channels.Keys <= r.channels.Keys
    && (forall c :: c in s.channels ==> r.channels[c] == s.channels[c].(rx := r.channels[c].rx))
    && (forall c :: c in r.channels && c !in s.channels ==>
          var ch := r.channels[c]; ch.queue == [] && ch.accepted == [] && ch.emitted == [] && ch.destinations == {})
    && (forall t :: t in r.tasks && InDelivery(r.tasks[t]) ==> t in s.tasks && r.tasks[t] == s.tasks[t])
  }

  lemma ChannelOkGrows(log: seq<Event>, longer: seq<Event>, ch: Channel)
    requires ChannelOk(log, ch) && log <= longer
    ensures ChannelOk(longer, ch)
  {
    forall i | 0 <= i < |ch.accepted| ensures Belongs(longer, ch, ch.accepted[i]) {
      assert Belongs(log, ch, ch.accepted[i]);
      var post := ch.accepted[i];
      if post.origin.Broadcast? {
        AnnouncedStays(log, longer, post.origin.cause, post.mid, post.msg);
      }
    }
  }

  lemma QuietKeepsChannels(s: Server, r: Server)
    requires ChannelsOk(s) && Quiet(s, r)
    ensures ChannelsOk(r)
  {
    forall c | c in r.channels ensures ChannelOk(r.w.log, r.channels[c]) {
      if c in s.channels {
        ChannelOkGrows(s.w.log, r.w.log, s.channels[c]);
      }
    }
  }

  lemma QuietKeepsDelivery(s: Server, r: Server, task: Task)
    requires DeliveryOk(s, task) && Quiet(s, r)
    ensures DeliveryOk(r, task)
  {
    match task
    case ParamLooked(session, _, _, _) =>
    case Relaying(session, _) =>
    case Announcing(mid, cause, msg) =>
      AnnouncedStays(s.w.log, r.w.log, cause, mid, msg);
    case Sending(mid, Broadcast(cause), targets, msg) =>
      AnnouncedStays(s.w.log, r.w.log, cause, mid, msg);
    case _ =>
  }

  lemma QuietKeeps(s: Server, r: Server)
    requires DeliveryInv(s) && Quiet(s, r)
    ensures DeliveryInv(r)
  {
    QuietKeepsChannels(s, r);
    forall t | t in r.tasks ensures DeliveryOk(r, r.tasks[t]) {
      if InDelivery(r.tasks[t]) {
        QuietKeepsDelivery(s, r, s.tasks[t]);
      }
    }
  }

  predicate PostsNothing(l: Label) {
    l.Grpc? || l.SweepRead? || l.SweepRun? || l.RelayRun?
  }

  lemma JoinStepsAreQuiet(s: Server, l: Label)
    requires SessionInv(s) && Enabled(s, l) && IsJoinStep(l)
    ensures Quiet(s, JoinStep(s, l))
  {
    match l
    case JoinCheck(addr, token) => CheckIsQuiet(s, addr, token);
    case JoinConsume(t, now) => ConsumeIsQuiet(s, t, now);
    case JoinRegister(t, now) => RegisterIsQuiet(s, t, now);
    case JoinInsert(t) => InsertIsQuiet(s, t);
    case JoinReply(t, sent, ms) => ReplyIsQuiet(s, t, sent, ms);
    case DropSession(t) => DropIsQuiet(s, t);
    case DropPlayer(t, now) => LeaveIsQuiet(s, t, now);
  }

  lemma OtherStepsAreQuiet(s: Server, l: Label)
    requires Enabled(s, l) && PostsNothing(l)
    ensures Quiet(s, OtherStep(s, l))
  {
    match l
    case Grpc(op) =>
    case SweepRead(_) =>
    case SweepRun(t) =>
    case RelayRun(t) =>
  }

  lemma CheckIsQuiet(s: Server, addr: SocketAddr, token: Token)
    ensures Quiet(s, DoJoinCheck(s, addr, token))
  {
  }

  lemma ReplyIsQuiet(s: Server, t: nat, sent: bool, ms: nat)
    requires Enabled(s, JoinReply(t, sent, ms))
    ensures Quiet(s, DoJoinReply(s, t, sent, ms))
  {
  }

  lemma InsertIsQuiet(s: Server, t: nat)
    requires HoldersHold(s) && Enabled(s, JoinInsert(t))
    ensures Quiet(s, DoJoinInsert(s, t))
  {
    JoinInsertShape(s, t);
    InsertShapeIsQuiet(s, DoJoinInsert(s, t), t);
  }

  lemma InsertShapeIsQuiet(s: Server, r: Server, t: nat)
    requires InsertShape(s, r, t) && r.w == s.w
    ensures Quiet(s, r)
  {
  }

  lemma DropIsQuiet(s: Server, t: nat)
    requires Enabled(s, DropSession(t))
    ensures Quiet(s, DoDropSession(s, t))
  {
  }

  lemma ConsumeIsQuiet(s: Server, t: nat, now: Unix)
    requires Enabled(s, JoinConsume(t, now))
    ensures Quiet(s, DoJoinConsume(s, t, now))
  {
  }

  lemma RegisterIsQuiet(s: Server, t: nat, now: Unix)
    requires NamesFresh(s) && Enabled(s, JoinRegister(t, now))
    ensures Quiet(s, DoJoinRegister(s, t, now))
  {
  }

  lemma LeaveIsQuiet(s: Server, t: nat, now: Unix)
    requires Enabled(s, DropPlayer(t, now))
    ensures Quiet(s, DoDropPlayer(s, t, now))
  {
  }

  // ----- steps that prepare a message -----

  /** A task that carries a copied session joins the others. */
  lemma LookupKeeps(s: Server, task: Task)
    requires NamesFresh(s) && DeliveryInv(s) && (task.ParamLooked? || task.Relaying?)
    requires task.session.tx in s.channels && Names(s.channels[task.session.tx], task.session)
    ensures DeliveryInv(Spawn(s, task))
  {
    var r := Spawn(s, task);
    forall t | t in r.tasks ensures DeliveryOk(r, r.tasks[t]) {
      if t != s.next { assert DeliveryOk(s, s.tasks[t]); }
    }
  }

  lemma ParamLookupKeeps(s: Server, addr: SocketAddr, seqNo: nat, param: ParamKind, direction: ParamDirection)
    requires SessionInv(s) && DeliveryInv(s)
    ensures DeliveryInv(DoParamLookup(s, addr, seqNo, param, direction))
  {
    if addr in s.sessions {
      SessionNamesChannel(s, addr);
      LookupKeeps(s, ParamLooked(s.sessions[addr], seqNo, param, direction));
    }
  }

  lemma RelayLookupKeeps(s: Server, addr: SocketAddr, suppress: bool)
    requires SessionInv(s) && DeliveryInv(s)
    ensures DeliveryInv(DoRelayLookup(s, addr, suppress))
  {
    if addr in s.sessions {
      SessionNamesChannel(s, addr);
      LookupKeeps(s, Relaying(s.sessions[addr], suppress));
    }
  }

  /** One task takes on a new message; the rest of the server only sees the log grow. */
  ghost predicate Prepares(s: Server, r: Server, t: nat) {
    && r.channels == s.channels && s.w.log <= r.w.log
    && t in r.tasks && r.tasks == s.tasks[t := r.tasks[t]]
  }

  lemma PreparingKeeps(s: Server, r: Server, t: nat)
    requires DeliveryInv(s) && Prepares(s, r, t) && DeliveryOk(r, r.tasks[t])
    requires CauseOf(r.tasks[t]).Some? ==> CauseOf(r.tasks[t]).value < |r.w.log|
    requires CauseOf(r.tasks[t]).Some? ==>
      CauseOf(r.tasks[t]).value >= |s.w.log| || (t in s.tasks && CauseOf(s.tasks[t]) == CauseOf(r.tasks[t]))
    ensures DeliveryInv(r)
  {
    forall c | c in r.channels ensures ChannelOk(r.w.log, r.channels[c]) {
      ChannelOkGrows(s.w.log, r.w.log, s.channels[c]);
    }
    forall u | u in r.tasks ensures DeliveryOk(r, r.tasks[u]) {
      if u != t {
        assert DeliveryOk(s, s.tasks[u]);
        GrowthKeepsDelivery(s, r, s.tasks[u]);
      }
    }
  }

  lemma GrowthKeepsDelivery(s: Server, r: Server, task: Task)
    requires DeliveryOk(s, task) && r.channels == s.channels && s.w.log <= r.w.log
    ensures DeliveryOk(r, task)
  {
    match task
    case Announcing(mid, cause, msg) =>
      AnnouncedStays(s.w.log, r.w.log, cause, mid, msg);
    case Sending(mid, Broadcast(cause), targets, msg) =>
      AnnouncedStays(s.w.log, r.w.log, cause, mid, msg);
    case _ =>
  }

  lemma ParamUpdateShape(s: Server, t: nat, now: Unix, after: Unix, ms: nat)
    requires Agree(s.w) && Enabled(s, ParamUpdate(t, now, after, ms))
    ensures var r := DoParamUpdate(s, t, now, after, ms);
      var session := s.tasks[t].session;
      && Prepares(s, r, t)
      && (if r.tasks[t].Announcing?
          then r.tasks[t].mid == session.matchId && r.tasks[t].cause == |s.w.log| < |r.w.log|
               && Announces(r.w.log[|s.w.log|], session.matchId, r.tasks[t].msg)
               && r.tasks[t].msg.seqNo == s.tasks[t].seqNo
          else r.tasks[t].Sending? && r.tasks[t].mid == session.matchId
               && r.tasks[t].origin == Complaint(session.playerId)
               && r.tasks[t].targets == [session.tx] && r.tasks[t].msg.Error?)
  {
  }

  /** An accepted change: the player is there, and the levels announced are the new ones. */
  lemma ParamUpdateLevels(w: World, op: Op)
    requires Agree(w) && RateInv(w) && LevelsAddUp(w) && Permitted(w, op) && op.Update?
    ensures var r := UpdatePlayerParams(w.core, op.mid, op.pid, op.param, op.direction, op.now, op.after).1;
      var v := Do(w, op);
      r.Ok? ==>
        && |v.log| == |w.log| + 1
        && forall param: ParamKind :: Level(r.value.params, param) as int == 2 + Net(v.log, op.pid, param)
  {
    var r := UpdatePlayerParams(w.core, op.mid, op.pid, op.param, op.direction, op.now, op.after).1;
    if r.Ok? {
      UpdateReply(w.core, op);
      LevelsAddUpKept(w, op);
      assert InRoom(Do(w, op), op.mid, op.pid);
      assert PlayerAt(Do(w, op), op.mid, op.pid).params == r.value.params;
    }
  }

  lemma ParamUpdateAnnounces(s: Server, t: nat, now: Unix, after: Unix, ms: nat)
    requires Agree(s.w) && RateInv(s.w) && LevelsAddUp(s.w) && Enabled(s, ParamUpdate(t, now, after, ms))
    ensures var r := DoParamUpdate(s, t, now, after, ms);
      t in r.tasks && (r.tasks[t].Announcing? ==> |r.w.log| == |s.w.log| + 1 && ShowsLevels(r.w.log, r.tasks[t].msg))
  {
    var session := s.tasks[t].session;
    var task := s.tasks[t];
    ParamUpdateLevels(s.w, Update(session.matchId, session.playerId, task.param, task.direction, now, after));
  }

  /** A task that has just logged an event and announces it fits in; so does a complaint. */
  lemma NewAnnouncementKeeps(s: Server, r: Server, t: nat)
    requires DeliveryInv(s) && Prepares(s, r, t) && r.tasks[t].Announcing? && r.tasks[t].cause == |s.w.log|
    requires AnnouncesAt(r.w.log, |s.w.log|, r.tasks[t].mid, r.tasks[t].msg)
    ensures DeliveryInv(r)
  {
    forall c | c in s.channels ensures !Heard(s.channels[c].accepted, |s.w.log|) {
    }
    PreparingKeeps(s, r, t);
  }

  lemma ParamUpdateKeeps(s: Server, t: nat, now: Unix, after: Unix, ms: nat)
    requires SessionInv(s) && RateInv(s.w) && LevelsAddUp(s.w) && DeliveryInv(s)
    requires Enabled(s, ParamUpdate(t, now, after, ms))
    ensures DeliveryInv(DoParamUpdate(s, t, now, after, ms))
  {
    var r := DoParamUpdate(s, t, now, after, ms);
    ParamUpdateShape(s, t, now, after, ms);
    ParamUpdateAnnounces(s, t, now, after, ms);
    if r.tasks[t].Announcing? {
      assert r.w.log[..|s.w.log| + 1] == r.w.log;
      NewAnnouncementKeeps(s, r, t);
    } else {
      NewComplaintKeeps(s, r, t);
    }
  }

  lemma NewComplaintKeeps(s: Server, r: Server, t: nat)
    requires DeliveryInv(s) && Prepares(s, r, t) && t in s.tasks && s.tasks[t].ParamLooked? && r.tasks[t].Sending?
    requires var session := s.tasks[t].session;
      && r.tasks[t].mid == session.matchId && r.tasks[t].origin == Complaint(session.playerId)
      && r.tasks[t].targets == [session.tx] && r.tasks[t].msg.Error?
    ensures DeliveryInv(r)
  {
    assert DeliveryOk(s, s.tasks[t]);
    PreparingKeeps(s, r, t);
  }

  /** The event, the task and the roster of a start all come from the one reply. */
  lemma StartRoomShape(s: Server, mid: Id, now: Unix, picks: Picks, ms: nat)
    requires Permitted(s.w, Start(mid, now, picks)) && s.next !in s.tasks
    ensures var r := DoStartRoom(s, mid, now, picks, ms);
      && s.w.log <= r.w.log && r.channels == s.channels
      && (r.tasks == s.tasks || (Prepares(s, r, s.next) && AnnouncesStart(s, r, mid)))
  {
    var r := DoStartRoom(s, mid, now, picks, ms);
    var reply := StartMatch(s.w.core, mid, now, picks).1;
    if reply.Ok? && reply.value.justStarted {
      StartTaskShape(s, r, mid, reply.value, ms);
    }
  }

  ghost predicate AnnouncesStart(s: Server, r: Server, mid: Id) {
    && s.next in r.tasks && r.tasks[s.next].Announcing? && r.tasks[s.next].mid == mid
    && r.tasks[s.next].cause == |s.w.log| < |r.w.log|
    && Announces(r.w.log[|s.w.log|], mid, r.tasks[s.next].msg) && r.tasks[s.next].msg.MatchStarted?
  }

  lemma StartTaskShape(s: Server, r: Server, mid: Id, reply: StartReply, ms: nat)
    requires reply.justStarted && r.channels == s.channels && s.next !in s.tasks
    requires r.w.log == s.w.log + [Started(mid, reply)]
    requires var msg := MatchStarted(mid, reply.startedAt, reply.players, ms);
      r.tasks == s.tasks[s.next := Announcing(mid, |s.w.log|, msg)]
    ensures Prepares(s, r, s.next) && AnnouncesStart(s, r, mid)
  {
  }

  lemma StartRoomKeeps(s: Server, mid: Id, now: Unix, picks: Picks, ms: nat)
    requires SessionInv(s) && DeliveryInv(s) && Permitted(s.w, Start(mid, now, picks))
    ensures DeliveryInv(DoStartRoom(s, mid, now, picks, ms))
  {
    var r := DoStartRoom(s, mid, now, picks, ms);
    StartRoomShape(s, mid, now, picks, ms);
    if r.tasks == s.tasks {
      QuietKeeps(s, r);
    } else {
      NewAnnouncementKeeps(s, r, s.next);
    }
  }

  // ----- fan-out, enqueue and drain -----

  /** The channels of a match's players are distinct and belong to that match. */
  lemma TargetsAreSeats(s: Server, mid: Id, order: seq<Id>, targets: seq<ChannelId>)
    requires SessionInv(s) && HasRoom(s.w, mid) && Enumerates(order, s.w.core.matches[mid].players.Keys)
    requires |targets| == |order|
    requires forall i :: 0 <= i < |order| ==>
      order[i] in s.w.core.matches[mid].players && targets[i] == s.w.core.matches[mid].players[order[i]].tx
    ensures forall c :: c in targets ==> c in s.channels && s.channels[c].mid == mid
    ensures Distinct(targets)
  {
    forall i | 0 <= i < |order|
      ensures targets[i] in s.channels && s.channels[targets[i]].mid == mid && s.channels[targets[i]].pid == order[i]
    {
      assert InRoom(s.w, mid, order[i]);
      var c := SeatChannel(s, mid, order[i]);
    }
  }

  lemma FanoutFits(s: Server, t: nat, order: seq<Id>)
    requires SessionInv(s) && Enabled(s, Fanout(t, order)) && HasRoom(s.w, s.tasks[t].mid) && DeliveryOk(s, s.tasks[t])
    ensures var r := DoFanout(s, t, order);
      && Prepares(s, r, t) && DeliveryOk(r, r.tasks[t]) && CauseOf(r.tasks[t]) == CauseOf(s.tasks[t])
  {
    assert forall i :: 0 <= i < |order| ==> order[i] in Elements(order);
    TargetsAreSeats(s, s.tasks[t].mid, order, DoFanout(s, t, order).tasks[t].targets);
  }

  lemma FanoutKeeps(s: Server, t: nat, order: seq<Id>)
    requires SessionInv(s) && DeliveryInv(s) && Enabled(s, Fanout(t, order))
    ensures DeliveryInv(DoFanout(s, t, order))
  {
    var r := DoFanout(s, t, order);
    if HasRoom(s.w, s.tasks[t].mid) {
      FanoutFits(s, t, order);
      PreparingKeeps(s, r, t);
    } else {
      QuietKeeps(s, r);
    }
  }

  /** The sending task moves on to the other targets; a live one has received the message. */
  ghost predicate EnqueueShape(s: Server, r: Server, t: nat) {
    && t in s.tasks && s.tasks[t].Sending? && s.tasks[t].targets != [] && r.w == s.w
    && var task := s.tasks[t];
       var c := task.targets[0];
       && r.tasks == s.tasks[t := task.(targets := task.targets[1..])]
       && c in s.channels
       && var ch := s.channels[c];
          var post := Post(task.mid, task.origin, task.msg);
          (r.channels == s.channels
           || (|ch.queue| < CHANNEL_CAPACITY
               && r.channels == s.channels[c := ch.(queue := ch.queue + [post], accepted := ch.accepted + [post])]))
  }

  lemma EnqueueKeepsChannels(s: Server, r: Server, t: nat)
    requires DeliveryInv(s) && EnqueueShape(s, r, t)
    ensures ChannelsOk(r)
  {
  }

  lemma EnqueueKeepsOthers(s: Server, r: Server, t: nat, u: nat)
    requires DeliveryInv(s) && EnqueueShape(s, r, t) && u in s.tasks && u != t
    ensures DeliveryOk(r, s.tasks[u])
  {
  }

  lemma EnqueueKeepsSender(s: Server, r: Server, t: nat)
    requires DeliveryInv(s) && EnqueueShape(s, r, t)
    ensures DeliveryOk(r, r.tasks[t])
  {
  }

  lemma EnqueueKeeps(s: Server, t: nat)
    requires DeliveryInv(s) && Enabled(s, Enqueue(t))
    ensures DeliveryInv(DoEnqueue(s, t))
  {
    var r := DoEnqueue(s, t);
    if s.tasks[t].targets == [] {
      QuietKeeps(s, r);
    } else {
      assert DeliveryOk(s, s.tasks[t]);
      assert s.tasks[t].targets[0] in s.tasks[t].targets;
      EnqueueKeepsChannels(s, r, t);
      EnqueueKeepsSender(s, r, t);
      forall u | u in r.tasks ensures DeliveryOk(r, r.tasks[u]) {
        if u != t { EnqueueKeepsOthers(s, r, t, u); }
      }
    }
  }

  lemma DrainKeeps(s: Server, addr: SocketAddr)
    requires SessionInv(s) && DeliveryInv(s) && addr in s.sessions
    ensures DeliveryInv(DoDrain(s, addr))
  {
    var r := DoDrain(s, addr);
    SessionNamesChannel(s, addr);
    if r != s {
      var c := s.sessions[addr].tx;
      DrainedChannel(s.w.log, s.channels[c], r.channels[c]);
      forall t | t in r.tasks ensures DeliveryOk(r, r.tasks[t]) {
        assert DeliveryOk(s, s.tasks[t]);
      }
    }
  }

  lemma DrainedChannel(log: seq<Event>, ch: Channel, after: Channel)
    requires ChannelOk(log, ch) && ch.queue != []
    requires after == ch.(queue := ch.queue[1..], emitted := ch.emitted + [ch.queue[0]],
                          destinations := ch.destinations + {ch.addr})
    ensures ChannelOk(log, after)
  {
  }

  lemma StepKeepsDelivery(s: Server, l: Label)
    requires SessionInv(s) && RateInv(s.w) && LevelsAddUp(s.w) && DeliveryInv(s) && Enabled(s, l)
    ensures DeliveryInv(Step(s, l))
  {
    if IsJoinStep(l) {
      JoinStepsAreQuiet(s, l);
      QuietKeeps(s, JoinStep(s, l));
    } else {
      OtherStepKeepsDelivery(s, l);
    }
  }

  lemma OtherStepKeepsDelivery(s: Server, l: Label)
    requires SessionInv(s) && RateInv(s.w) && LevelsAddUp(s.w) && DeliveryInv(s) && Enabled(s, l) && !IsJoinStep(l)
    ensures DeliveryInv(OtherStep(s, l))
  {
    if PostsNothing(l) {
      OtherStepsAreQuiet(s, l);
      QuietKeeps(s, OtherStep(s, l));
    } else {
      match l
      case ParamLookup(addr, seqNo, param, direction) => ParamLookupKeeps(s, addr, seqNo, param, direction);
      case RelayLookup(addr, suppress) => RelayLookupKeeps(s, addr, suppress);
      case ParamUpdate(t, now, after, ms) => ParamUpdateKeeps(s, t, now, after, ms);
      case StartRoom(mid, now, picks, ms) => StartRoomKeeps(s, mid, now, picks, ms);
      case Fanout(t, order) => FanoutKeeps(s, t, order);
      case Enqueue(t) => EnqueueKeeps(s, t);
      case Drain(addr) => DrainKeeps(s, addr);
    }
  }

  lemma LevelsAlways(ss: seq<Server>, ls: seq<Label>, i: nat)
    requires Run(ss, ls) && i < |ss|
    ensures RateInv(ss[i].w) && LevelsAddUp(ss[i].w)
  {
    EveryReachableServer(ss, ls, i);
  }

  /** In every state of every run. */
  lemma {:induction false} DeliveryAlways(ss: seq<Server>, ls: seq<Label>, i: nat)
    requires Run(ss, ls) && i < |ss|
    ensures DeliveryInv(ss[i])
  {
    if i == 0 {
    } else {
      DeliveryAlways(ss, ls, i - 1);
      SessionInvAlways(ss, ls, i - 1);
      LevelsAlways(ss, ls, i - 1);
      RunStepDelivers(ss, ls, i - 1);
    }
  }

  lemma RunStepDelivers(ss: seq<Server>, ls: seq<Label>, i: nat)
    requires Run(ss, ls) && i < |ls|
    requires SessionInv(ss[i]) && RateInv(ss[i].w) && LevelsAddUp(ss[i].w) && DeliveryInv(ss[i])
    ensures DeliveryInv(ss[i + 1])
  {
    assert RunStep(ss, ls, i);
    StepKeepsDelivery(ss[i], ls[i]);
  }

  // ----- what a client sees -----

  /**
   What has left a channel, followed by what waits in it, is what was accepted; it went to one
   address only; and each message is an error for that player or a broadcast to that match.
   */
  lemma ChannelsConserveAndIsolate(ss: seq<Server>, ls: seq<Label>, n: nat, c: ChannelId)
    requires Run(ss, ls) && n < |ss| && c in ss[n].channels
    ensures var ch := ss[n].channels[c];
      && ch.emitted + ch.queue == ch.accepted && |ch.queue| <= 1024
      && ch.destinations <= {ch.addr}
      && forall i :: 0 <= i < |ch.accepted| ==>
           var post := ch.accepted[i];
           || (post.msg.Error? && post.origin == Complaint(ch.pid))
           || (exists k: nat :: AnnouncesAt(ss[n].w.log, k, ch.mid, post.msg))
  {
    DeliveryAlways(ss, ls, n);
    var ch := ss[n].channels[c];
    forall i | 0 <= i < |ch.accepted|
      ensures var post := ch.accepted[i];
        || (post.msg.Error? && post.origin == Complaint(ch.pid))
        || (exists k: nat :: AnnouncesAt(ss[n].w.log, k, ch.mid, post.msg))
    {
      assert Belongs(ss[n].w.log, ch, ch.accepted[i]);
    }
  }

  /** With a positive clock a channel carries at most one announcement that its match started. */
  lemma AtMostOneStartPerChannel(ss: seq<Server>, ls: seq<Label>, n: nat, c: ChannelId, i: nat, j: nat)
    requires Run(ss, ls) && n < |ss| && PositiveStarts(ss[n].w.log)
    requires c in ss[n].channels && i < j < |ss[n].channels[c].accepted|
    requires ss[n].channels[c].accepted[i].msg.MatchStarted?
    ensures !ss[n].channels[c].accepted[j].msg.MatchStarted?
  {
    var s := ss[n];
    DeliveryAlways(ss, ls, n);
    EveryReachableServer(ss, ls, n);
    var ch := s.channels[c];
  }

  /** Two changes a channel announces for one player are at least 7 seconds apart. */
  lemma AnnouncedChangesAreSpaced(ss: seq<Server>, ls: seq<Label>, n: nat, c: ChannelId, i: nat, j: nat)
    requires Run(ss, ls) && n < |ss| && c in ss[n].channels
    requires i < j < |ss[n].channels[c].accepted|
    requires ss[n].channels[c].accepted[i].msg.ParamApplied? && ss[n].channels[c].accepted[j].msg.ParamApplied?
    requires ss[n].channels[c].accepted[i].msg.fromPlayerId == ss[n].channels[c].accepted[j].msg.fromPlayerId
    ensures var a := ss[n].channels[c].accepted[i].msg.nextParamChangeAt;
      var b := ss[n].channels[c].accepted[j].msg.nextParamChangeAt;
      a + 7 <= b || b + 7 <= a
  {
    DeliveryAlways(ss, ls, n);
    EveryReachableServer(ss, ls, n);
    ChangesDiffer(ss[n].w.log, ss[n].channels[c], i, j);
  }

  lemma ChangesDiffer(log: seq<Event>, ch: Channel, i: nat, j: nat)
    requires ChangesSpaced(log) && ChannelOk(log, ch) && i < j < |ch.accepted|
    requires ch.accepted[i].msg.ParamApplied? && ch.accepted[j].msg.ParamApplied?
    requires ch.accepted[i].msg.fromPlayerId == ch.accepted[j].msg.fromPlayerId
    ensures var a, b := ch.accepted[i].msg.nextParamChangeAt, ch.accepted[j].msg.nextParamChangeAt;
      a + 7 <= b || b + 7 <= a
  {
  }
}
