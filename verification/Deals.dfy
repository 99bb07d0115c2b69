/** The deal: who gets which hand, and that no hand is out of reach. */
module Deals {
  import opened Wrappers
  import opened Types
  import opened Ordering
  import opened Shuffle
  import opened Lobby
  import opened Rooms

  lemma DistinctMultiset<T(!new)>(xs: seq<T>, x: T)
    requires Distinct(xs)
    ensures multiset(xs)[x] == if x in xs then 1 else 0
  {
    if x in xs {
      var i :| 0 <= i < |xs| && xs[i] == x;
      var (before, rest) := (xs[..i], xs[i + 1..]);
      assert xs == before + [x] + rest;
      assert x !in before && x !in rest;
    }
  }

  /** A list without repetitions of numbers below its length is an arrangement of all of them. */
  lemma FullIsArrangement(full: seq<u8>)
    requires |full| <= 256 && Distinct(full) && forall x :: x in full ==> x < |full|
    ensures multiset(full) == multiset(Range(|full|))
  {
    var all := Range(|full|);
    EnumerationLength(full, Elements(full));
    EnumerationLength(all, Elements(all));
    SubsetOfSameSize(Elements(full), Elements(all));
    assert forall x :: x in full <==> x in Elements(full);
    assert forall x :: x in all <==> x in Elements(all);
    SameElementsSameMultiset(full, all);
  }

  lemma SameElementsSameMultiset<T(!new)>(a: seq<T>, b: seq<T>)
    requires Distinct(a) && Distinct(b) && forall x :: x in a <==> x in b
    ensures multiset(a) == multiset(b)
  {
    forall x ensures multiset(a)[x] == multiset(b)[x] {
      DistinctMultiset(a, x);
      DistinctMultiset(b, x);
    }
  }

  lemma SubsetOfSameSize<T>(a: set<T>, b: set<T>)
    requires a <= b && |a| == |b|
    ensures a == b
  {
    assert b == a + (b - a);
    assert |b - a| == 0;
  }

  lemma OneMissing<T>(a: set<T>, b: set<T>) returns (x: T)
    requires |a| < |b|
    ensures x in b && x !in a
  {
    assert b - a != {} by {
      assert |b| <= |a| + |b - a| by {
        assert b == (b * a) + (b - a);
        Smaller(b * a, a);
      }
    }
    x :| x in b - a;
  }

  lemma Smaller<T>(a: set<T>, b: set<T>)
    requires a <= b
    ensures |a| <= |b|
  {
    assert b == a + (b - a);
  }

  /** Any list without repetitions of numbers below `n` goes on to an arrangement of all of them. */
  lemma {:induction false} Complete(part: seq<u8>, n: nat) returns (full: seq<u8>)
    requires |part| <= n <= 256 && Distinct(part) && forall x :: x in part ==> x < n
    ensures |full| == n && part <= full && multiset(full) == multiset(Range(n))
    decreases n - |part|
  {
    if |part| == n {
      full := part;
      FullIsArrangement(full);
    } else {
      var all := Range(n);
      EnumerationLength(part, Elements(part));
      EnumerationLength(all, Elements(all));
      var x := OneMissing(Elements(part), Elements(all));
      assert x !in part;
      full := Complete(part + [x], n);
    }
  }

  /** Four different stages of the pool. */
  ghost predicate IsRun(run: seq<u8>) {
    |run| == 4 && Distinct(run) && forall stage :: stage in run ==> stage < 5
  }

  /** Any four different stages out of the five are dealt by some picks. */
  lemma RunHappens(run: seq<u8>) returns (picks: seq<nat>)
    requires IsRun(run)
    ensures ValidPicks(picks, MATCH_STAGE_POOL_SIZE) && StageOrder(picks) == run
  {
    var full := Complete(run, MATCH_STAGE_POOL_SIZE);
    picks := EachArrangementHasItsPicks(Range(MATCH_STAGE_POOL_SIZE), full);
  }

  /** Any different colours for at most four players are dealt by some picks. */
  lemma ColoursHappen(colours: seq<u8>) returns (picks: seq<nat>)
    requires |colours| <= 4 && Distinct(colours) && forall colour :: colour in colours ==> colour < 4
    ensures ValidPicks(picks, ROOM_MAX_PLAYERS) && colours <= Colours(picks)
  {
    var full := Complete(colours, ROOM_MAX_PLAYERS);
    picks := EachArrangementHasItsPicks(Range(ROOM_MAX_PLAYERS), full);
  }

  lemma {:induction false} RunsHappen(runs: seq<seq<u8>>) returns (picks: seq<seq<nat>>)
    requires forall i :: 0 <= i < |runs| ==> IsRun(runs[i])
    ensures |picks| == |runs|
    ensures forall i :: 0 <= i < |runs| ==>
      ValidPicks(picks[i], MATCH_STAGE_POOL_SIZE) && StageOrder(picks[i]) == runs[i]
  {
    if runs == [] {
      picks := [];
    } else {
      var first := RunHappens(runs[0]);
      var rest := RunsHappen(runs[1..]);
      picks := [first] + rest;
    }
  }

  /** Hands that a deal may hold: different colours of the palette, and four different stages each. */
  ghost predicate FairHands(players: set<Id>, colours: map<Id, u8>, runs: map<Id, seq<u8>>) {
    && colours.Keys == players && runs.Keys == players
    && (forall p :: p in colours ==> colours[p] < 4)
    && (forall p, q :: p in colours && q in colours && p != q ==> colours[p] != colours[q])
    && (forall p :: p in runs ==> IsRun(runs[p]))
  }

  /** What the lists hold for each id. */
  ghost predicate Listed(ids: seq<Id>, colours: map<Id, u8>, runs: map<Id, seq<u8>>, cs: seq<u8>, rs: seq<seq<u8>>) {
    && |cs| == |rs| == |ids|
    && forall i :: 0 <= i < |ids| ==>
         ids[i] in colours && cs[i] == colours[ids[i]] && ids[i] in runs && rs[i] == runs[ids[i]]
  }

  lemma FairLists(ids: seq<Id>, players: set<Id>, colours: map<Id, u8>, runs: map<Id, seq<u8>>)
    returns (cs: seq<u8>, rs: seq<seq<u8>>)
    requires FairHands(players, colours, runs) && Elements(ids) == players && Distinct(ids)
    ensures Listed(ids, colours, runs, cs, rs)
    ensures Distinct(cs) && forall colour :: colour in cs ==> colour < 4
    ensures forall i :: 0 <= i < |rs| ==> IsRun(rs[i])
  {
    assert forall i :: 0 <= i < |ids| ==> ids[i] in Elements(ids);
    cs := seq(|ids|, i requires 0 <= i < |ids| => colours[ids[i]]);
    rs := seq(|ids|, i requires 0 <= i < |ids| => runs[ids[i]]);
  }

  lemma PicksFor(cs: seq<u8>, rs: seq<seq<u8>>) returns (picks: Picks)
    requires |cs| == |rs| <= 4 && Distinct(cs) && forall colour :: colour in cs ==> colour < 4
    requires forall i :: 0 <= i < |rs| ==> IsRun(rs[i])
    ensures Fits(picks, |rs|) && cs <= Colours(picks.colours)
    ensures forall i :: 0 <= i < |rs| ==> StageOrder(picks.stages[i]) == rs[i]
  {
    var colourPicks := ColoursHappen(cs);
    var stagePicks := RunsHappen(rs);
    picks := Picks(colourPicks, stagePicks);
  }

  /** Every choice of different colours and of stages for each player is what some picks deal. */
  lemma EveryHandHappens(players: map<Id, PlayerHandle>, colours: map<Id, u8>, runs: map<Id, seq<u8>>)
    returns (picks: Picks)
    requires |players| <= 4 && FairHands(players.Keys, colours, runs)
    ensures Fits(picks, |players|)
    ensures forall p :: p in players ==>
      Deal(players, picks)[p] == players[p].(
        colorIndex := Some(colours[p]), stageOrder := runs[p], currentStageIndex := 0)
  {
    var cs, rs;
    picks, cs, rs := FairPicks(players.Keys, colours, runs);
    forall p | p in players
      ensures Deal(players, picks)[p] == players[p].(
        colorIndex := Some(colours[p]), stageOrder := runs[p], currentStageIndex := 0)
    {
      var i := HandIsChosen(players, picks, p, cs, rs);
    }
  }

  lemma FairPicks(players: set<Id>, colours: map<Id, u8>, runs: map<Id, seq<u8>>)
    returns (picks: Picks, cs: seq<u8>, rs: seq<seq<u8>>)
    requires |players| <= 4 && FairHands(players, colours, runs)
    ensures Listed(SortedKeys(players), colours, runs, cs, rs)
    ensures Fits(picks, |rs|) && cs <= Colours(picks.colours)
    ensures forall i :: 0 <= i < |rs| ==> StageOrder(picks.stages[i]) == rs[i]
  {
    SortedKeysDiffer(players);
    cs, rs := FairLists(SortedKeys(players), players, colours, runs);
    picks := PicksFor(cs, rs);
  }

  lemma HandIsChosen(players: map<Id, PlayerHandle>, picks: Picks, p: Id, cs: seq<u8>, rs: seq<seq<u8>>)
    returns (i: nat)
    requires |players| <= 4 && Fits(picks, |players|) && p in players && |cs| == |rs| == |players|
    requires cs <= Colours(picks.colours) && forall i :: 0 <= i < |rs| ==> StageOrder(picks.stages[i]) == rs[i]
    ensures i < |rs| && i < |SortedKeys(players.Keys)| && SortedKeys(players.Keys)[i] == p
    ensures Deal(players, picks)[p] == players[p].(
      colorIndex := Some(cs[i]), stageOrder := rs[i], currentStageIndex := 0)
  {
    assert |players| == |players.Keys|;
    i := HandOf(players, picks, p);
    assert Colours(picks.colours)[i] == cs[i];
    assert SameButHand(players[p], Deal(players, picks)[p]);
  }

  /** The ids before `pid`. */
  ghost function Before(ids: set<Id>, pid: Id): set<Id> {
    set q | q in ids && Less(q, pid)
  }

  /**
   The player with `n` members before it in id order gets position `n` of the shuffled palette, if
   there is one, and the first four stages of shuffle `n` of the pool.
   */
  lemma DealMeaning(players: map<Id, PlayerHandle>, picks: Picks, pid: Id)
    requires Fits(picks, |players|) && pid in players
    ensures var n := |Before(players.Keys, pid)|;
      && n < |players|
      && Deal(players, picks)[pid] == players[pid].(
           colorIndex := if n < 4 then Some(Shuffled(Range(4), picks.colours)[n]) else None,
           stageOrder := Shuffled(Range(5), picks.stages[n])[..4], currentStageIndex := 0)
  {
    var ids := SortedKeys(players.Keys);
    assert |players| == |players.Keys|;
    assert pid in Elements(ids);
    SortedKeysAscend(players.Keys);
    PlaceInOrder(ids, IndexIn(ids, pid));
  }

  lemma PlaceInOrder(ids: seq<Id>, index: nat)
    requires Ascending(ids, Self) && index < |ids|
    ensures |Before(Elements(ids), ids[index])| == index
  {
    var earlier := ids[..index];
    forall q ensures q in earlier <==> q in Before(Elements(ids), ids[index]) {
      if q in earlier {
        var i :| 0 <= i < index && ids[i] == q;
        assert Less(Self(ids[i]), Self(ids[index]));
      }
      if q in Before(Elements(ids), ids[index]) {
        ComesEarlier(ids, index, q);
      }
    }
    assert Elements(earlier) == Before(Elements(ids), ids[index]);
    forall i, j | 0 <= i < j < index ensures earlier[i] != earlier[j] {
      assert Less(Self(ids[i]), Self(ids[j]));
      LessIrreflexive(ids[i]);
    }
    EnumerationLength(earlier, Elements(earlier));
  }

  lemma ComesEarlier(ids: seq<Id>, index: nat, q: Id)
    requires Ascending(ids, Self) && index < |ids| && q in ids && Less(q, ids[index])
    ensures q in ids[..index]
  {
    var i :| 0 <= i < |ids| && ids[i] == q;
    LessIrreflexive(q);
    if i > index {
      assert Less(Self(ids[index]), Self(ids[i]));
      LessTransitive(q, ids[index], q);
    }
    assert i < index;
    assert ids[..index][i] == q;
  }
}
