/** The registry of sessions behind its own lock, as the UDP server updates it in place. */
module Registry {
  import opened Wrappers
  import opened Types
  import opened Server
  import opened Sessions

  /** What one full turn of the outgoing loop makes of a session's channel. */
  function Drained(ch: Channel, addr: SocketAddr): Channel {
    ch.(queue := [], emitted := ch.emitted + ch.queue,
        destinations := if ch.queue == [] then ch.destinations else ch.destinations + {addr})
  }

  /** Every session sends into a channel of its own. */
  ghost predicate OwnChannels(sessions: map<SocketAddr, Session>, channels: map<ChannelId, Channel>) {
    && (forall a :: a in sessions ==> sessions[a].tx in channels)
    && (forall a, b :: a in sessions && b in sessions && a != b ==> sessions[a].tx != sessions[b].tx)
  }

  /** In every reachable state they do. */
  lemma SessionsOwnChannels(s: Server)
    requires SessionInv(s)
    ensures OwnChannels(s.sessions, s.channels)
  {
    assert forall a :: a in s.sessions ==> s.channels[s.sessions[a].tx].addr == a;
  }

  class ClientRegistry {
    var sessions: map<SocketAddr, Session>
    var channels: map<ChannelId, Channel>

    constructor ()
      ensures sessions == map[] && channels == map[]
    {
      sessions, channels := map[], map[];
    }

    /** The check at the head of a join, which lets the join go on exactly if it says no. */
    method Contains(addr: SocketAddr) returns (joined: bool)
      ensures joined <==> addr in sessions
      ensures forall s: Server, token :: s.sessions == sessions ==>
        DoJoinCheck(s, addr, token) == if joined then s else Spawn(s, JoinChecked(addr, token))
    {
      joined := addr in sessions;
    }

    /** The lookup at the head of a parameter change or a datagram, which carries the session it finds. */
    method Get(addr: SocketAddr) returns (r: Option<Session>)
      ensures r == if addr in sessions then Some(sessions[addr]) else None
      ensures forall s: Server, seqNo, param, direction :: s.sessions == sessions ==>
        DoParamLookup(s, addr, seqNo, param, direction) ==
          if r.None? then s else Spawn(s, ParamLooked(r.value, seqNo, param, direction))
      ensures forall s: Server, suppress :: s.sessions == sessions ==>
        DoRelayLookup(s, addr, suppress) == if r.None? then s else Spawn(s, Relaying(r.value, suppress))
    {
      if addr in sessions { r := Some(sessions[addr]); } else { r := None; }
    }

    /** Storing a session drops the one it replaces, and with it that one's receiver. */
    method Insert(mid: Id, pid: Id, addr: SocketAddr, tx: ChannelId)
      modifies this
      ensures sessions == old(sessions)[addr := Session(mid, pid, addr, tx)]
      ensures channels == Give(
        if addr in old(sessions) then Give(old(channels), old(sessions)[addr].tx, Dropped) else old(channels),
        tx, ByRegistry)
      ensures forall s: Server, t ::
        (s.sessions == old(sessions) && s.channels == old(channels) && t == tx && t in s.tasks
         && s.tasks[t].JoinRegistered? && s.tasks[t].addr == addr && s.tasks[t].mid == mid && s.tasks[t].pid == pid) ==>
        DoJoinInsert(s, t).sessions == sessions && DoJoinInsert(s, t).channels == channels
    {
      if addr in sessions {
        channels := Give(channels, sessions[addr].tx, Dropped);
      }
      sessions := sessions[addr := Session(mid, pid, addr, tx)];
      channels := Give(channels, tx, ByRegistry);
    }

    /** The removed session moves into the removing task, its receiver with it. */
    method Remove(addr: SocketAddr, task: nat) returns (r: Option<Session>)
      modifies this
      ensures r == if addr in old(sessions) then Some(old(sessions)[addr]) else None
      ensures sessions == old(sessions) - {addr}
      ensures forall s: Server ::
        (s.sessions == old(sessions) && s.channels == old(channels) && task in s.tasks
         && s.tasks[task] == JoinFailed(addr)) ==>
        DoDropSession(s, task).sessions == sessions && DoDropSession(s, task).channels == channels
    {
      if addr in sessions {
        r := Some(sessions[addr]);
        channels := Give(channels, sessions[addr].tx, ByRemoval(task));
        sessions := sessions - {addr};
      } else {
        r := None;
        assert sessions - {addr} == sessions;
      }
    }

    /** One pass of the outgoing loop over all sessions, in the map's order. */
    method DrainAll()
      requires OwnChannels(sessions, channels)
      modifies this
      ensures sessions == old(sessions) && channels.Keys == old(channels).Keys
      ensures forall a :: a in sessions ==>
        channels[sessions[a].tx] == Drained(old(channels)[sessions[a].tx], sessions[a].addr)
      ensures forall c :: c in channels && (forall a :: a in sessions ==> sessions[a].tx != c) ==>
                channels[c] == old(channels)[c]
    {
      var left := sessions.Keys;
      while left != {}
        invariant sessions == old(sessions) && channels.Keys == old(channels).Keys && left <= sessions.Keys
        invariant forall a :: a in sessions && a in left ==> channels[sessions[a].tx] == old(channels)[sessions[a].tx]
        invariant forall a :: a in sessions && a !in left ==>
          channels[sessions[a].tx] == Drained(old(channels)[sessions[a].tx], sessions[a].addr)
        invariant forall c :: c in channels && (forall a :: a in sessions ==> sessions[a].tx != c) ==>
          channels[c] == old(channels)[c]
        decreases left
      {
        var a :| a in left;
        left := left - {a};
        DrainOne(sessions[a]);
      }
    }

    /** Send what waits in one session's channel, message by message. */
    method DrainOne(session: Session)
      requires session.tx in channels
      modifies this`channels
      ensures channels == old(channels)[session.tx := Drained(old(channels)[session.tx], session.addr)]
    {
      var c := session.tx;
      while channels[c].queue != []
        invariant c in channels && channels == old(channels)[c := channels[c]]
        invariant Drained(channels[c], session.addr) == Drained(old(channels)[c], session.addr)
        decreases |channels[c].queue|
      {
        var ch := channels[c];
        assert ch.emitted + ch.queue == ch.emitted + [ch.queue[0]] + ch.queue[1..];
        channels := channels[c := ch.(queue := ch.queue[1..], emitted := ch.emitted + [ch.queue[0]],
                                      destinations := ch.destinations + {session.addr})];
      }
      assert channels[c].emitted + [] == channels[c].emitted;
    }
  }

  /** The machine's single drain step, repeated. */
  function DrainTimes(s: Server, addr: SocketAddr, n: nat): (r: Server)
    requires addr in s.sessions
    ensures r.sessions == s.sessions
    decreases n
  {
    if n == 0 then s else DrainTimes(DoDrain(s, addr), addr, n - 1)
  }

  /** Draining one session in the loop is as many drain steps as messages were waiting. */
  lemma {:induction false} DrainingIsSteps(s: Server, addr: SocketAddr)
    requires addr in s.sessions && s.sessions[addr].tx in s.channels
    ensures var c := s.sessions[addr].tx;
      DrainTimes(s, addr, |s.channels[c].queue|)
      == s.(channels := s.channels[c := Drained(s.channels[c], s.sessions[addr].addr)])
    decreases |s.channels[s.sessions[addr].tx].queue|
  {
    var c := s.sessions[addr].tx;
    var ch := s.channels[c];
    if ch.queue == [] {
      assert ch.emitted + [] == ch.emitted;
      assert s.channels[c := ch] == s.channels;
    } else {
      var r := DoDrain(s, addr);
      DrainingIsSteps(r, addr);
      assert ch.emitted + ch.queue == ch.emitted + [ch.queue[0]] + ch.queue[1..];
      assert Drained(r.channels[c], s.sessions[addr].addr) == Drained(ch, s.sessions[addr].addr);
      assert r.channels[c := Drained(ch, s.sessions[addr].addr)] == s.channels[c := Drained(ch, s.sessions[addr].addr)];
    }
  }
}
