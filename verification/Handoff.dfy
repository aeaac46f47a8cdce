/** When the replay-to-live handoff is exact. */
module Handoff {
  import opened Realtime

  function Ids(events: seq<Event>): seq<int> {
    seq(|events|, k requires 0 <= k < |events| => events[k].id)
  }

  /** The events beyond a cursor, in order. */
  function Above(events: seq<Event>, cursor: int): seq<Event> {
    if events == [] then []
    else
      var e := events[|events| - 1];
      Above(events[..|events| - 1], cursor) + if e.id > cursor then [e] else []
  }

  function VisibleOf(a: Actor, events: seq<Event>): seq<Event> {
    if events == [] then []
    else
      var e := events[|events| - 1];
      VisibleOf(a, events[..|events| - 1]) + if Visible(a, e) then [e] else []
  }

  /** Everything the client has been sent or will be sent from the queue. */
  function Stream(s: Conn): seq<int> {
    s.at.sent + Ids(Above(s.queue, s.at.cursor))
  }

  /** No gap, no repeat: in order, the ids of the visible events after the start cursor that the relay
      has published or the replay has read. */
  ghost predicate Exact(s: Conn) {
    && s.relayed <= |s.log| && Increasing(Stream(s))
    && forall e | e in s.log ::
         e.id in Stream(s) <==> Wanted(s.actor, s.start, e) && (e in s.log[..s.relayed] || e in s.page)
  }

  /** The cursor when the stream went live. */
  function Floor(s: Conn): int {
    if s.page == [] then s.start else s.page[|s.page| - 1].id
  }

  /** What the relay offered this connection since it subscribed. */
  function Arrived(s: Conn): seq<Event>
    requires s.base <= s.relayed <= |s.log|
  {
    VisibleOf(s.actor, s.log[s.base..s.relayed])
  }

  /** The backlog at subscription: visible, after the start cursor, already relayed. */
  function Backlog(s: Conn): set<int>
    requires s.base <= |s.log|
  {
    set e | e in s.log[..s.base] && Wanted(s.actor, s.start, e) :: e.id
  }

  // ---------- sequences of events ----------

  lemma {:induction false} AboveConcat(a: seq<Event>, b: seq<Event>, cursor: int)
    ensures Above(a + b, cursor) == Above(a, cursor) + Above(b, cursor)
  {
    if b == [] {
      assert a + b == a;
    } else {
      assert (a + b)[..|a + b| - 1] == a + b[..|b| - 1];
      AboveConcat(a, b[..|b| - 1], cursor);
    }
  }

  lemma {:induction false} AboveAre(events: seq<Event>, cursor: int)
    ensures forall e :: e in Above(events, cursor) <==> e in events && e.id > cursor
  {
    if events != [] {
      AboveAre(events[..|events| - 1], cursor);
      assert events == events[..|events| - 1] + [events[|events| - 1]];
    }
  }

  lemma {:induction false} VisibleAre(a: Actor, events: seq<Event>)
    ensures forall e :: e in VisibleOf(a, events) <==> e in events && Visible(a, e)
  {
    if events != [] {
      VisibleAre(a, events[..|events| - 1]);
      assert events == events[..|events| - 1] + [events[|events| - 1]];
    }
  }

  lemma {:induction false} VisibleAscend(a: Actor, events: seq<Event>)
    requires Ascending(events)
    ensures Ascending(VisibleOf(a, events))
  {
    if events != [] {
      var rest := events[..|events| - 1];
      VisibleAscend(a, rest);
      VisibleAre(a, rest);
      assert forall k | 0 <= k < |VisibleOf(a, rest)| :: VisibleOf(a, rest)[k] in rest;
    }
  }

  lemma {:induction false} AboveAscend(events: seq<Event>, cursor: int)
    requires Ascending(events)
    ensures Ascending(Above(events, cursor))
  {
    if events != [] {
      var rest := events[..|events| - 1];
      AboveAscend(rest, cursor);
      AboveAre(rest, cursor);
      assert forall k | 0 <= k < |Above(rest, cursor)| :: Above(rest, cursor)[k] in rest;
    }
  }

  /** A higher cursor keeps fewer events, or the same ones. */
  lemma {:induction false} AboveShrinks(events: seq<Event>, low: int, high: int)
    requires low <= high
    ensures |Above(events, high)| <= |Above(events, low)|
    ensures |Above(events, high)| == |Above(events, low)| ==> Above(events, high) == Above(events, low)
  {
    if events != [] {
      AboveShrinks(events[..|events| - 1], low, high);
    }
  }

  /** The events that moved the cursor. */
  function Kept(p: Position, events: seq<Event>): seq<Event> {
    if events == [] then []
    else
      var rest, e := events[..|events| - 1], events[|events| - 1];
      Kept(p, rest) + if e.id > DeliverAll(p, rest).cursor then [e] else []
  }

  /** What is sent are the kept events: at most those above the cursor, and if as many, the same. */
  lemma {:induction false} KeptAreSent(p: Position, events: seq<Event>)
    ensures var d := DeliverAll(p, events);
            && d.cursor >= p.cursor && d.sent == p.sent + Ids(Kept(p, events))
            && |Kept(p, events)| <= |Above(events, p.cursor)|
            && (|Kept(p, events)| == |Above(events, p.cursor)| ==> Kept(p, events) == Above(events, p.cursor))
            && forall e | e in Kept(p, events) :: e in events && e.id > p.cursor
  {
    if events != [] {
      var rest, e := events[..|events| - 1], events[|events| - 1];
      KeptAreSent(p, rest);
      assert events == rest + [e];
      if e.id > DeliverAll(p, rest).cursor {
        assert Ids(Kept(p, rest) + [e]) == Ids(Kept(p, rest)) + [e.id];
        assert (p.sent + Ids(Kept(p, rest))) + [e.id] == p.sent + (Ids(Kept(p, rest)) + [e.id]);
      }
    }
  }

  /** Events relayed in ascending order are all kept. */
  lemma {:induction false} AscendingAreKept(p: Position, events: seq<Event>)
    requires Ascending(Above(events, p.cursor))
    ensures Kept(p, events) == Above(events, p.cursor)
    ensures DeliverAll(p, events).cursor
            == if Above(events, p.cursor) == [] then p.cursor else Above(events, p.cursor)[|Above(events, p.cursor)| - 1].id
  {
    if events != [] {
      var rest, e := events[..|events| - 1], events[|events| - 1];
      var before := Above(rest, p.cursor);
      AscendingPrefix(before, if e.id > p.cursor then [e] else []);
      AscendingAreKept(p, rest);
      KeptAreSent(p, rest);
      if e.id > p.cursor && before != [] {
        assert (before + [e])[|before| - 1].id < (before + [e])[|before|].id;
      }
    }
  }

  lemma AscendingPrefix(a: seq<Event>, b: seq<Event>)
    requires Ascending(a + b)
    ensures Ascending(a)
  {
    assert forall i | 0 <= i < |a| :: a[i] == (a + b)[i];
  }

  lemma DeliverSplit(p: Position, events: seq<Event>, k: nat)
    requires k < |events|
    ensures DeliverAll(p, events[..k + 1]) == Deliver(DeliverAll(p, events[..k]), events[k])
  {
    assert events[..k + 1][..k] == events[..k];
  }

  /** A page beyond the cursor is sent in full. */
  lemma {:induction false} PageIsSent(p: Position, page: seq<Event>)
    requires Ascending(page) && (page != [] ==> page[0].id > p.cursor)
    ensures DeliverAll(p, page) == Position(if page == [] then p.cursor else page[|page| - 1].id, p.sent + Ids(page))
  {
    if page != [] {
      var n := |page| - 1;
      PageIsSent(p, page[..n]);
      assert n > 0 ==> page[..n][n - 1] == page[n - 1] && page[n - 1].id < page[n].id;
      assert Ids(page) == Ids(page[..n]) + [page[n].id];
      assert p.sent + (Ids(page[..n]) + [page[n].id]) == (p.sent + Ids(page[..n])) + [page[n].id];
    }
  }

  // ---------- what every loss-free run keeps ----------

  ghost predicate DistinctIds(log: seq<Event>) {
    forall i, j | 0 <= i < j < |log| :: log[i].id != log[j].id
  }

  /** The queue and the position are functions of what has arrived. */
  ghost predicate Tracked(s: Conn) {
    && s.base <= s.relayed <= |s.log| && s.received <= |Arrived(s)|
    && s.queue == Arrived(s)[s.received..]
    && (s.stage == Live ==> s.at == DeliverAll(DeliverAll(Position(s.start, []), s.page), Arrived(s)[..s.received]))
    && (s.stage != Live ==> s.received == 0 && s.page == [] && s.at == Position(s.start, []))
  }

  ghost predicate PageOk(s: Conn) {
    Ascending(s.page) && forall e | e in s.page :: e in s.log && Wanted(s.actor, s.start, e)
  }

  ghost predicate BacklogRead(s: Conn)
    requires s.base <= |s.log|
  {
    forall e | e in s.log[..s.base] && Wanted(s.actor, s.start, e) :: e in s.page
  }

  ghost predicate Inv(s: Conn) {
    && DistinctIds(s.log)
    && (s.stage == Opening ==> s.queue == [] && s.page == [] && s.received == 0 && s.at == Position(s.start, []) && s.relayed <= |s.log|)
    && (s.stage != Opening ==> Tracked(s) && PageOk(s))
  }

  lemma CommitKeeps(s: Conn, e: Event)
    requires Inv(s) && Enabled(s, Commit(e))
    ensures Inv(Next(s, Commit(e)))
  {
    var s' := Next(s, Commit(e));
    assert forall i | 0 <= i < |s.log| :: s.log[i] in s.log;
    if s.stage != Opening {
      assert s'.log[..s.base] == s.log[..s.base] && s'.log[s.base..s.relayed] == s.log[s.base..s.relayed];
      assert forall f | f in s.log :: f in s'.log;
    }
  }

  lemma ArrivedGrows(s: Conn)
    requires s.base <= s.relayed < |s.log|
    ensures var e := s.log[s.relayed];
            Arrived(s.(relayed := s.relayed + 1)) == Arrived(s) + if Visible(s.actor, e) then [e] else []
  {
    var window := s.log[s.base..s.relayed + 1];
    assert window[..|window| - 1] == s.log[s.base..s.relayed];
  }

  /** Nothing was lost, so the queue had room. */
  lemma NotDropped(s: Conn)
    requires Enabled(s, Relay) && s.stage != Opening && s.lost == 0 && Next(s, Relay).lost == 0
    ensures var e := s.log[s.relayed];
            Offer(s.actor, s.queue, e) == s.queue + if Visible(s.actor, e) then [e] else []
  {
  }

  lemma RelayKeeps(s: Conn)
    requires Inv(s) && Enabled(s, Relay) && s.lost == 0 && Next(s, Relay).lost == 0
    ensures Inv(Next(s, Relay))
  {
    if s.stage != Opening {
      var s', a := Next(s, Relay), Arrived(s);
      ArrivedGrows(s);
      NotDropped(s);
      assert Arrived(s') == Arrived(s.(relayed := s.relayed + 1));
      assert Arrived(s')[..s.received] == a[..s.received];
      assert PageOk(s');
    }
  }

  lemma MissKeeps(s: Conn)
    requires Inv(s) && Enabled(s, Miss) && s.lost == 0 && Next(s, Miss).lost == 0
    ensures Inv(Next(s, Miss))
  {
    if s.stage != Opening {
      var s' := Next(s, Miss);
      ArrivedGrows(s);
      assert !Visible(s.actor, s.log[s.relayed]);
      assert Arrived(s') == Arrived(s.(relayed := s.relayed + 1)) == Arrived(s);
      assert PageOk(s');
    }
  }

  lemma ReceiveKeeps(s: Conn)
    requires Inv(s) && Enabled(s, Receive)
    ensures Inv(Next(s, Receive))
  {
    var s', a := Next(s, Receive), Arrived(s);
    assert Arrived(s') == a && s.queue[0] == a[s.received] && a[s.received..][1..] == a[s.received + 1..];
    DeliverSplit(DeliverAll(Position(s.start, []), s.page), a, s.received);
    assert PageOk(s');
  }

  lemma SubscribeKeeps(s: Conn)
    requires Inv(s) && Enabled(s, Subscribe)
    ensures Inv(Next(s, Subscribe))
  {
    assert s.log[s.relayed..s.relayed] == [];
  }

  // ---------- the replay itself ----------

  lemma OtherId(log: seq<Event>, e: Event, f: Event)
    requires DistinctIds(log) && e in log && f in log && e != f
    ensures e.id != f.id
  {
  }

  lemma {:induction false} DistinctCard(page: seq<Event>)
    requires DistinctIds(page)
    ensures |set e | e in page :: e.id| == |page|
  {
    if page == [] {
      assert (set e | e in page :: e.id) == {};
    } else {
      var rest, last := page[..|page| - 1], page[|page| - 1];
      DistinctCard(rest);
      assert page == rest + [last];
      assert (set e | e in page :: e.id) == (set e | e in rest :: e.id) + {last.id};
      assert last.id !in set e | e in rest :: e.id;
    }
  }

  lemma SmallerSet(a: set<int>, b: set<int>, x: int)
    requires a <= b && x in b && x !in a
    ensures |a| < |b|
  {
    assert b == a + (b - a);
    assert x in b - a;
  }

  lemma SubsetCard(a: set<int>, b: set<int>)
    requires a <= b
    ensures |a| <= |b|
  {
    assert b == a + (b - a);
    assert |b| == |a| + |b - a|;
  }

  lemma ReplayKeeps(s: Conn, page: seq<Event>)
    requires Inv(s) && Enabled(s, Replay(page))
    ensures Inv(Next(s, Replay(page)))
  {
    assert Arrived(Next(s, Replay(page))) == Arrived(s);
    assert Arrived(s)[..0] == [];
  }

  lemma LatestKeeps(s: Conn, id: int)
    requires Inv(s) && Enabled(s, Latest(id))
    ensures Inv(Next(s, Latest(id)))
  {
    assert Arrived(Next(s, Latest(id))) == Arrived(s);
    assert Arrived(s)[..0] == [];
  }

  lemma StepKeeps(s: Conn, step: Step)
    requires Inv(s) && Enabled(s, step) && s.lost == 0 && Next(s, step).lost == 0
    ensures Inv(Next(s, step))
  {
    match step
    case Commit(e) => CommitKeeps(s, e);
    case Relay => RelayKeeps(s);
    case Miss => MissKeeps(s);
    case Subscribe => SubscribeKeeps(s);
    case Replay(page) => ReplayKeeps(s, page);
    case Latest(id) => LatestKeeps(s, id);
    case Receive => ReceiveKeeps(s);
  }

  lemma {:induction false} NothingWasLost(s: Conn, steps: seq<Step>)
    requires Valid(s, steps) && After(s, steps).lost == 0
    ensures s.lost == 0
    decreases |steps|
  {
    if steps != [] {
      NothingWasLost(Next(s, steps[0]), steps[1..]);
    }
  }

  lemma {:induction false} RunKeeps(s: Conn, steps: seq<Step>)
    requires Inv(s) && Valid(s, steps) && After(s, steps).lost == 0
    ensures Inv(After(s, steps))
    decreases |steps|
  {
    if steps != [] {
      NothingWasLost(s, steps);
      NothingWasLost(Next(s, steps[0]), steps[1..]);
      StepKeeps(s, steps[0]);
      RunKeeps(Next(s, steps[0]), steps[1..]);
    }
  }

  // ---------- the exact condition, whatever the order of ids ----------

  /** Beyond the floor, ids are relayed in ascending order. */
  ghost predicate RelayedInOrder(s: Conn)
    requires s.base <= s.relayed <= |s.log|
  {
    Ascending(Above(Arrived(s), Floor(s)))
  }

  /** What arrived at or below the floor had been read by the replay. */
  ghost predicate NothingBelow(s: Conn)
    requires s.base <= s.relayed <= |s.log|
  {
    forall e | e in s.log[s.base..s.relayed] && Wanted(s.actor, s.start, e) && e.id <= Floor(s) :: e in s.page
  }

  /** The replay read the backlog, no id arrived at or below where it stopped, and the ids beyond were
      relayed in ascending order. */
  ghost predicate Clean(s: Conn)
    requires s.base <= s.relayed <= |s.log|
  {
    BacklogRead(s) && NothingBelow(s) && RelayedInOrder(s)
  }

  /** The part of the stream that came from the queue: kept already, or still pending. */
  function FromQueue(s: Conn): seq<Event>
    requires s.base <= s.relayed <= |s.log| && s.received <= |Arrived(s)|
  {
    Kept(Position(Floor(s), Ids(s.page)), Arrived(s)[..s.received]) + Above(s.queue, s.at.cursor)
  }

  lemma IdsConcat(a: seq<Event>, b: seq<Event>)
    ensures Ids(a + b) == Ids(a) + Ids(b)
  {
  }

  lemma PageFirst(s: Conn)
    requires Inv(s) && s.stage == Live
    ensures DeliverAll(Position(s.start, []), s.page) == Position(Floor(s), Ids(s.page)) && Floor(s) >= s.start
  {
    assert s.page != [] ==> s.page[0] in s.page && s.page[|s.page| - 1] in s.page;
    PageIsSent(Position(s.start, []), s.page);
    assert [] + Ids(s.page) == Ids(s.page);
  }

  lemma PageThenQueue(s: Conn)
    requires Inv(s) && s.stage == Live
    ensures Stream(s) == Ids(s.page) + Ids(FromQueue(s))
    ensures s.at == DeliverAll(Position(Floor(s), Ids(s.page)), Arrived(s)[..s.received])
    ensures Floor(s) >= s.start && s.at.cursor >= Floor(s)
  {
    var p, taken := Position(Floor(s), Ids(s.page)), Arrived(s)[..s.received];
    PageFirst(s);
    KeptAreSent(p, taken);
    IdsConcat(Kept(p, taken), Above(s.queue, s.at.cursor));
  }

  /** The queue contributes arrived events above the floor only: never more of them, and if as many, all. */
  lemma QueueContributes(s: Conn)
    requires Inv(s) && s.stage == Live
    ensures forall e | e in FromQueue(s) :: e in Arrived(s) && e.id > Floor(s)
    ensures |FromQueue(s)| <= |Above(Arrived(s), Floor(s))|
    ensures |FromQueue(s)| == |Above(Arrived(s), Floor(s))| ==> FromQueue(s) == Above(Arrived(s), Floor(s))
  {
    PageThenQueue(s);
    var p, a := Position(Floor(s), Ids(s.page)), Arrived(s);
    assert a == a[..s.received] + s.queue;
    KeptAreSent(p, a[..s.received]);
    AboveConcat(a[..s.received], s.queue, Floor(s));
    AboveShrinks(s.queue, Floor(s), s.at.cursor);
    AboveAre(s.queue, s.at.cursor);
  }

  /** Relayed in order, everything above the floor gets through. */
  lemma InOrderGetsThrough(s: Conn)
    requires Inv(s) && s.stage == Live && RelayedInOrder(s)
    ensures FromQueue(s) == Above(Arrived(s), Floor(s))
  {
    PageThenQueue(s);
    var p, a := Position(Floor(s), Ids(s.page)), Arrived(s);
    var taken, floor := a[..s.received], Floor(s);
    assert a == taken + s.queue;
    AboveConcat(taken, s.queue, floor);
    AscendingPrefix(Above(taken, floor), Above(s.queue, floor));
    AscendingAreKept(p, taken);
    SameAbove(Above(taken, floor), s.queue, floor, s.at.cursor);
  }

  lemma {:induction false} SameAbove(before: seq<Event>, queue: seq<Event>, low: int, high: int)
    requires Ascending(before + Above(queue, low))
    requires high == if before == [] then low else before[|before| - 1].id
    requires low <= high
    ensures Above(queue, high) == Above(queue, low)
  {
    if queue != [] {
      var rest, e := queue[..|queue| - 1], queue[|queue| - 1];
      assert before + Above(queue, low) == (before + Above(rest, low)) + if e.id > low then [e] else [];
      AscendingPrefix(before + Above(rest, low), if e.id > low then [e] else []);
      SameAbove(before, rest, low, high);
      if e.id > low && before != [] {
        var all := before + Above(queue, low);
        assert all[|before| - 1] == before[|before| - 1] && all[|all| - 1] == e;
      }
    }
  }

  lemma InLog(s: Conn, e: Event)
    requires Inv(s) && s.stage == Live && (e in s.page || e in FromQueue(s))
    ensures e in s.log && Wanted(s.actor, s.start, e) && (e in s.log[..s.relayed] || e in s.page)
  {
    QueueContributes(s);
    PageThenQueue(s);
    if e in FromQueue(s) {
      VisibleAre(s.actor, s.log[s.base..s.relayed]);
      assert s.log[..s.relayed][s.base..] == s.log[s.base..s.relayed];
      assert e in s.log[s.base..s.relayed];
      assert e in s.log[..s.relayed];
    }
  }

  /** An id is in the stream just when its event was read by the replay or got through the queue. */
  lemma InStream(s: Conn, e: Event)
    requires Inv(s) && s.stage == Live && e in s.log
    ensures e.id in Stream(s) <==> e in s.page || e in FromQueue(s)
  {
    PageThenQueue(s);
    IdIn(s.log, s.page, e);
    forall f | f in FromQueue(s) {
      InLog(s, f);
    }
    IdIn(s.log, FromQueue(s), e);
  }

  lemma IdIn(log: seq<Event>, events: seq<Event>, e: Event)
    requires DistinctIds(log) && e in log && forall f | f in events :: f in log
    ensures e.id in Ids(events) <==> e in events
  {
    if e in events {
      var k :| 0 <= k < |events| && events[k] == e;
      assert Ids(events)[k] == e.id;
    }
    forall k | 0 <= k < |events| && events[k] != e
      ensures Ids(events)[k] != e.id
    {
      assert events[k] in events;
      OtherId(log, events[k], e);
    }
  }

  lemma CleanIsExact(s: Conn)
    requires Inv(s) && s.stage == Live && Clean(s)
    ensures Exact(s)
  {
    CleanAscends(s);
    forall e | e in s.log
      ensures e.id in Stream(s) <==> Wanted(s.actor, s.start, e) && (e in s.log[..s.relayed] || e in s.page)
    {
      CleanAt(s, e);
    }
  }

  lemma CleanAscends(s: Conn)
    requires Inv(s) && s.stage == Live && Clean(s)
    ensures Increasing(Stream(s))
  {
    PageThenQueue(s);
    InOrderGetsThrough(s);
    QueueContributes(s);
    PageUnderFloor(s);
    TwoRuns(s.page, FromQueue(s), Floor(s));
  }

  lemma PageUnderFloor(s: Conn)
    requires Inv(s) && s.stage == Live
    ensures Ascending(s.page) && forall k | 0 <= k < |s.page| :: s.page[k].id <= Floor(s)
  {
  }

  lemma TwoRuns(low: seq<Event>, high: seq<Event>, floor: int)
    requires Ascending(low) && Ascending(high)
    requires (forall k | 0 <= k < |low| :: low[k].id <= floor) && (forall e | e in high :: e.id > floor)
    ensures Increasing(Ids(low) + Ids(high))
  {
    forall i, j | 0 <= i < j < |low| + |high|
      ensures (Ids(low) + Ids(high))[i] < (Ids(low) + Ids(high))[j]
    {
      assert i >= |low| ==> high[i - |low|].id < high[j - |low|].id;
      assert j >= |low| ==> high[j - |low|] in high;
    }
  }

  lemma CleanAt(s: Conn, e: Event)
    requires Inv(s) && s.stage == Live && Clean(s) && e in s.log
    ensures e.id in Stream(s) <==> Wanted(s.actor, s.start, e) && (e in s.log[..s.relayed] || e in s.page)
  {
    InStream(s, e);
    if e in s.page || e in FromQueue(s) {
      InLog(s, e);
    } else if Wanted(s.actor, s.start, e) && e in s.log[..s.relayed] {
      RelayedGetsThrough(s, e);
    }
  }

  lemma RelayedGetsThrough(s: Conn, e: Event)
    requires Inv(s) && s.stage == Live && Clean(s) && Wanted(s.actor, s.start, e) && e in s.log[..s.relayed]
    ensures e in s.page || e in FromQueue(s)
  {
    InOrderGetsThrough(s);
    assert s.log[..s.relayed] == s.log[..s.base] + s.log[s.base..s.relayed];
    if e in s.log[s.base..s.relayed] && e.id > Floor(s) {
      VisibleAre(s.actor, s.log[s.base..s.relayed]);
      AboveAre(Arrived(s), Floor(s));
    }
  }

  /** Events before the subscription never come through the queue. */
  lemma BacklogIsNotQueued(s: Conn, e: Event)
    requires Inv(s) && s.stage == Live && e in s.log[..s.base]
    ensures e !in FromQueue(s)
  {
    QueueContributes(s);
    VisibleAre(s.actor, s.log[s.base..s.relayed]);
    var i :| 0 <= i < s.base && s.log[..s.base][i] == e;
    forall k | 0 <= k < s.relayed - s.base
      ensures s.log[s.base..s.relayed][k] != e
    {
      assert s.log[i].id != s.log[s.base + k].id;
    }
  }

  lemma SnocDistinct(events: seq<Event>, kept: seq<Event>)
    requires events != [] && DistinctIds(events) && DistinctIds(kept)
    requires forall k | 0 <= k < |kept| :: kept[k] in events[..|events| - 1]
    ensures DistinctIds(kept + [events[|events| - 1]])
  {
    forall k | 0 <= k < |kept|
      ensures kept[k].id != events[|events| - 1].id
    {
      var i :| 0 <= i < |events| - 1 && events[i] == kept[k];
    }
  }

  lemma {:induction false} AboveDistinct(events: seq<Event>, cursor: int)
    requires DistinctIds(events)
    ensures DistinctIds(Above(events, cursor))
  {
    if events != [] {
      var rest := events[..|events| - 1];
      AboveDistinct(rest, cursor);
      AboveAre(rest, cursor);
      assert forall k | 0 <= k < |Above(rest, cursor)| :: Above(rest, cursor)[k] in Above(rest, cursor);
      SnocDistinct(events, Above(rest, cursor));
    }
  }

  lemma {:induction false} VisibleDistinct(a: Actor, events: seq<Event>)
    requires DistinctIds(events)
    ensures DistinctIds(VisibleOf(a, events))
  {
    if events != [] {
      var rest := events[..|events| - 1];
      VisibleDistinct(a, rest);
      VisibleAre(a, rest);
      assert forall k | 0 <= k < |VisibleOf(a, rest)| :: VisibleOf(a, rest)[k] in VisibleOf(a, rest);
      SnocDistinct(events, VisibleOf(a, rest));
    }
  }

  lemma ArrivedDistinct(s: Conn)
    requires Inv(s) && s.stage == Live
    ensures DistinctIds(Above(Arrived(s), Floor(s)))
  {
    assert DistinctIds(s.log[s.base..s.relayed]);
    VisibleDistinct(s.actor, s.log[s.base..s.relayed]);
    AboveDistinct(Arrived(s), Floor(s));
  }

  /** If all that arrived above the floor got through, it got through in order. */
  lemma ExactIsWhole(s: Conn)
    requires Inv(s) && s.stage == Live && Exact(s)
    ensures FromQueue(s) == Above(Arrived(s), Floor(s))
  {
    var r, q := Above(Arrived(s), Floor(s)), FromQueue(s);
    QueueContributes(s);
    AllGetThrough(s);
    ArrivedDistinct(s);
    DistinctCard(r);
    IdsCard(q);
    SubsetCard(set e | e in r :: e.id, set e | e in q :: e.id);
  }

  lemma IncreasingTail(a: seq<int>, events: seq<Event>)
    requires Increasing(a + Ids(events))
    ensures Ascending(events)
  {
    forall i, j | 0 <= i < j < |events|
      ensures events[i].id < events[j].id
    {
      assert (a + Ids(events))[|a| + i] == events[i].id && (a + Ids(events))[|a| + j] == events[j].id;
    }
  }

  lemma ExactIsInOrder(s: Conn)
    requires Inv(s) && s.stage == Live && Exact(s)
    ensures RelayedInOrder(s)
  {
    PageThenQueue(s);
    ExactIsWhole(s);
    IncreasingTail(Ids(s.page), FromQueue(s));
  }

  lemma {:induction false} IdsCard(q: seq<Event>)
    ensures |set e | e in q :: e.id| <= |q|
  {
    if q == [] {
      assert (set e | e in q :: e.id) == {};
    } else {
      var rest, last := q[..|q| - 1], q[|q| - 1];
      IdsCard(rest);
      assert q == rest + [last];
      assert (set e | e in q :: e.id) == (set e | e in rest :: e.id) + {last.id};
    }
  }

  lemma AllGetThrough(s: Conn)
    requires Inv(s) && s.stage == Live && Exact(s)
    ensures forall e | e in Above(Arrived(s), Floor(s)) :: e in FromQueue(s)
  {
    AboveAre(Arrived(s), Floor(s));
    forall e | e in Above(Arrived(s), Floor(s))
      ensures e in FromQueue(s)
    {
      ArrivedIsRelayed(s, e);
      PageUnderFloor(s);
      InStream(s, e);
    }
  }

  lemma ArrivedIsRelayed(s: Conn, e: Event)
    requires Inv(s) && s.stage == Live && e in Arrived(s) && e.id > Floor(s)
    ensures e in s.log[..s.relayed] && e in s.log && Wanted(s.actor, s.start, e)
  {
    PageThenQueue(s);
    VisibleAre(s.actor, s.log[s.base..s.relayed]);
    assert s.log[..s.relayed][s.base..] == s.log[s.base..s.relayed];
  }

  lemma ExactIsClean(s: Conn)
    requires Inv(s) && s.stage == Live && Exact(s)
    ensures Clean(s)
  {
    ExactIsInOrder(s);
    QueueContributes(s);
    assert s.log[..s.relayed] == s.log[..s.base] + s.log[s.base..s.relayed];
    forall e | e in s.log[..s.base] && Wanted(s.actor, s.start, e)
      ensures e in s.page
    {
      assert e in s.log;
      InStream(s, e);
      BacklogIsNotQueued(s, e);
    }
    forall e | e in s.log[s.base..s.relayed] && Wanted(s.actor, s.start, e) && e.id <= Floor(s)
      ensures e in s.page
    {
      assert e in s.log;
      InStream(s, e);
    }
  }

  /** With nothing dropped, and ids committed and relayed in any order whatever: the stream is exact if
      and only if the replay read the backlog, nothing arrived at or below the id where it stopped that
      it had not read, and the ids beyond that one were relayed in ascending order. */
  lemma LossFreeIsExactIff(actor: Actor, requested: nat, steps: seq<Step>)
    requires Valid(Initial(actor, requested), steps)
    requires var s := After(Initial(actor, requested), steps); s.stage == Live && s.lost == 0
    ensures var s := After(Initial(actor, requested), steps);
            s.base <= s.relayed <= |s.log| && (Exact(s) <==> Clean(s))
  {
    RunKeeps(Initial(actor, requested), steps);
    var s := After(Initial(actor, requested), steps);
    if Exact(s) {
      ExactIsClean(s);
    }
    if Clean(s) {
      CleanIsExact(s);
    }
  }

  // ---------- ids in order ----------

  ghost predicate InOrder(s: Conn) {
    Ascending(s.log) && s.lost == 0
  }

  /** In order, the page covers the backlog exactly when that has at most 100 events, and no event ever
      turns up at or below the floor. */
  ghost predicate OrderedInv(s: Conn) {
    s.stage == Live ==>
      && s.base <= |s.log|
      && (|Backlog(s)| <= REPLAY_LIMIT <==> BacklogRead(s))
      && forall e | e in s.log && Wanted(s.actor, s.start, e) && e.id <= Floor(s) :: e in s.page
  }

  /** A page covers the backlog exactly when the backlog has at most 100 events. */
  lemma PageCovers(s: Conn, page: seq<Event>)
    requires Inv(s) && s.stage == Subscribed && Ascending(s.log) && IsPage(s.log, s.actor, s.start, page)
    ensures |Backlog(s)| <= 100
            <==> forall e | e in s.log[..s.base] && Wanted(s.actor, s.start, e) :: e in page
  {
    var ids := set e | e in page :: e.id;
    DistinctCard(page);
    if b :| b in s.log[..s.base] && Wanted(s.actor, s.start, b) && b !in page {
      forall e | e in page
        ensures e.id in Backlog(s) && e.id != b.id
      {
        PageBelow(s, page, e, b);
      }
      assert b.id in Backlog(s);
      SmallerSet(ids, Backlog(s), b.id);
    } else {
      SubsetCard(Backlog(s), ids);
    }
  }

  lemma PageBelow(s: Conn, page: seq<Event>, e: Event, b: Event)
    requires Ascending(s.log) && s.base <= |s.log| && IsPage(s.log, s.actor, s.start, page)
    requires e in page && b in s.log[..s.base] && Wanted(s.actor, s.start, b) && b !in page
    ensures e.id in Backlog(s) && e.id < b.id
  {
    var i :| 0 <= i < |s.log| && s.log[i] == e;
    var j :| 0 <= j < s.base && s.log[..s.base][j] == b;
    assert s.log[j] == b && b in s.log;
    assert e.id < b.id;
    assert i < j;
    assert s.log[..s.base][i] == e;
  }

  lemma OrderedReplay(s: Conn, page: seq<Event>)
    requires Inv(s) && Enabled(s, Replay(page)) && Ascending(s.log)
    ensures OrderedInv(Next(s, Replay(page)))
  {
    PageCovers(s, page);
    assert Backlog(Next(s, Replay(page))) == Backlog(s);
  }

  lemma OrderedLatest(s: Conn, id: int)
    requires Inv(s) && Enabled(s, Latest(id))
    ensures OrderedInv(Next(s, Latest(id)))
  {
    var s' := Next(s, Latest(id));
    assert forall e | e in s.log[..s.base] :: e in s.log;
    assert Backlog(s') == {};
  }

  /** A new event lies above the floor if it is wanted at all. */
  lemma OrderedCommit(s: Conn, e: Event)
    requires Inv(s) && OrderedInv(s) && Enabled(s, Commit(e)) && Ascending(s.log + [e])
    ensures OrderedInv(Next(s, Commit(e)))
  {
    var s' := Next(s, Commit(e));
    if s.stage == Live {
      assert s'.log[..s.base] == s.log[..s.base] && Backlog(s') == Backlog(s);
      if s.page != [] {
        var last := s.page[|s.page| - 1];
        assert last in s.page;
        var i :| 0 <= i < |s.log| && s.log[i] == last;
        assert s'.log[i] == last && s'.log[|s.log|] == e;
      }
    }
  }

  lemma OrderedStep(s: Conn, step: Step)
    requires Inv(s) && OrderedInv(s) && Enabled(s, step) && InOrder(s) && InOrder(Next(s, step))
    ensures OrderedInv(Next(s, step))
  {
    match step
    case Commit(e) => OrderedCommit(s, e);
    case Replay(page) => OrderedReplay(s, page);
    case Latest(id) => OrderedLatest(s, id);
    case Relay => OrderedOther(s, step);
    case Miss => OrderedOther(s, step);
    case Receive => OrderedOther(s, step);
    case Subscribe =>
  }

  lemma OrderedOther(s: Conn, step: Step)
    requires Inv(s) && OrderedInv(s) && Enabled(s, step) && (step.Relay? || step.Miss? || step.Receive?)
    ensures OrderedInv(Next(s, step))
  {
    if s.stage == Live {
      assert Backlog(Next(s, step)) == Backlog(s);
    }
  }

  /** Order and loss can only get worse. */
  lemma {:induction false} WasInOrder(s: Conn, steps: seq<Step>)
    requires Valid(s, steps) && InOrder(After(s, steps))
    ensures InOrder(s)
    decreases |steps|
  {
    if steps != [] {
      var s' := Next(s, steps[0]);
      WasInOrder(s', steps[1..]);
      assert s.log == s'.log[..|s.log|];
    }
  }

  lemma {:induction false} OrderedRun(s: Conn, steps: seq<Step>)
    requires Inv(s) && OrderedInv(s) && Valid(s, steps) && InOrder(After(s, steps))
    ensures Inv(After(s, steps)) && OrderedInv(After(s, steps))
    decreases |steps|
  {
    if steps != [] {
      WasInOrder(s, steps);
      WasInOrder(Next(s, steps[0]), steps[1..]);
      StepKeeps(s, steps[0]);
      OrderedStep(s, steps[0]);
      OrderedRun(Next(s, steps[0]), steps[1..]);
    }
  }

  lemma OrderedIsClean(s: Conn)
    requires Inv(s) && OrderedInv(s) && InOrder(s) && s.stage == Live
    ensures Clean(s) <==> |Backlog(s)| <= REPLAY_LIMIT
  {
    var window := s.log[s.base..s.relayed];
    assert forall e | e in window :: e in s.log;
    assert Ascending(window);
    VisibleAscend(s.actor, window);
    AboveAscend(Arrived(s), Floor(s));
  }

  /** With ids committed and relayed in order and nothing dropped, the stream is exact if and only
      if at most 100 relayed events were pending when the connection subscribed. */
  lemma HandoffIsExactIff(actor: Actor, requested: nat, steps: seq<Step>)
    requires Valid(Initial(actor, requested), steps)
    requires var s := After(Initial(actor, requested), steps); s.stage == Live && InOrder(s)
    ensures var s := After(Initial(actor, requested), steps);
            s.base <= |s.log| && (Exact(s) <==> |Backlog(s)| <= 100)
  {
    var s := After(Initial(actor, requested), steps);
    OrderedRun(Initial(actor, requested), steps);
    OrderedIsClean(s);
    LossFreeIsExactIff(actor, requested, steps);
  }

  // ---------- why the backlog matters ----------

  /** `n` events of the actor, with ids in order beyond 1. */
  function Burst(actor: Actor, n: nat): (log: seq<Event>)
    ensures |log| == n && forall k | 0 <= k < n :: log[k] == Event(k + 2, actor.id)
  {
    seq(n, k requires 0 <= k < n => Event(k + 2, actor.id))
  }

  /** They are committed and relayed before a client that has seen event 1 subscribes. */
  function Waiting(actor: Actor, n: nat): Conn {
    Initial(actor, 1).(log := Burst(actor, n), relayed := n)
  }

  lemma {:induction false} OneMore(s: Conn, steps: seq<Step>, step: Step)
    requires Valid(s, steps) && Enabled(After(s, steps), step)
    ensures Valid(s, steps + [step]) && After(s, steps + [step]) == Next(After(s, steps), step)
    decreases |steps|
  {
    if steps == [] {
      assert steps + [step] == [step];
    } else {
      assert (steps + [step])[1..] == steps[1..] + [step];
      OneMore(Next(s, steps[0]), steps[1..], step);
    }
  }

  lemma {:induction false} BurstRun(actor: Actor, n: nat) returns (steps: seq<Step>)
    ensures Valid(Initial(actor, 1), steps) && After(Initial(actor, 1), steps) == Waiting(actor, n)
  {
    if n == 0 {
      steps := [];
      assert Burst(actor, 0) == [];
    } else {
      steps := BurstRun(actor, n - 1);
      var e := Event(n + 1, actor.id);
      assert Burst(actor, n) == Burst(actor, n - 1) + [e];
      OneMore(Initial(actor, 1), steps, Commit(e));
      steps := steps + [Commit(e)];
      OneMore(Initial(actor, 1), steps, Relay);
      steps := steps + [Relay];
    }
  }

  lemma BurstPage(actor: Actor, n: nat)
    requires n > REPLAY_LIMIT
    ensures IsPage(Burst(actor, n), actor, 1, Burst(actor, REPLAY_LIMIT))
  {
    var log, page := Burst(actor, n), Burst(actor, REPLAY_LIMIT);
    forall k | 0 <= k < REPLAY_LIMIT
      ensures log[k] in page && page[k] in log
    {
      assert log[k] == page[k];
    }
    forall e | e in log && e !in page
      ensures e.id > page[REPLAY_LIMIT - 1].id
    {
      var k :| 0 <= k < n && log[k] == e;
    }
  }

  /** One event more than a page holds: all are relayed in order before the subscription, nothing is
      dropped, and still the stream is not exact. */
  lemma LongBacklogSkips(actor: Actor) returns (steps: seq<Step>)
    ensures Valid(Initial(actor, 1), steps)
    ensures var s := After(Initial(actor, 1), steps);
            && s.stage == Live && InOrder(s) && s.log == Burst(actor, 101) && s.base == s.relayed == |s.log|
            && !Exact(s)
  {
    var n, page := 101, Burst(actor, 100);
    steps := BurstRun(actor, n);
    OneMore(Initial(actor, 1), steps, Subscribe);
    steps := steps + [Subscribe];
    BurstPage(actor, n);
    OneMore(Initial(actor, 1), steps, Replay(page));
    steps := steps + [Replay(page)];
    var s := After(Initial(actor, 1), steps);
    BurstBacklog(s, n);
    HandoffIsExactIff(actor, 1, steps);
  }

  lemma BurstBacklog(s: Conn, n: nat)
    requires s.log == Burst(s.actor, n) && s.base == n && s.start == 1
    ensures |Backlog(s)| == n
  {
    assert s.log[..n] == s.log;
    DistinctCard(s.log);
    assert Backlog(s) == set e | e in s.log :: e.id;
  }

  // ---------- why the order matters ----------

  /** What the cursor has passed is never sent afterwards. */
  lemma {:induction false} NeverBackfilled(s: Conn, steps: seq<Step>, id: int)
    requires Safe(s) && s.stage == Live && Valid(s, steps) && id <= s.at.cursor && id !in s.at.sent
    ensures id !in After(s, steps).at.sent
    decreases |steps|
  {
    if steps != [] {
      SafeStep(s, steps[0]);
      NeverBackfilled(Next(s, steps[0]), steps[1..], id);
    }
  }

  lemma Prepend(s: Conn, step: Step, steps: seq<Step>)
    requires Enabled(s, step) && Valid(Next(s, step), steps)
    ensures Valid(s, [step] + steps) && After(s, [step] + steps) == After(Next(s, step), steps)
  {
    assert ([step] + steps)[1..] == steps;
  }

  /** Ids are drawn before transactions commit, so a lower id can be relayed after a higher one:
      then nothing is dropped and still a relayed event is skipped for good. */
  lemma OutOfOrderSkips(actor: Actor) returns (steps: seq<Step>)
    ensures Valid(Initial(actor, 0), steps)
    ensures var s := After(Initial(actor, 0), steps);
            && s.stage == Live && s.lost == 0 && s.base == 0 && s.relayed == |s.log|
            && s.queue == [] && Event(1, actor.id) in s.log && s.at == Position(2, [2]) && !Exact(s)
  {
    var first, second := Event(2, actor.id), Event(1, actor.id);
    var s1 := Next(Initial(actor, 0), Subscribe);
    var s2 := Next(s1, Latest(0));
    var s3 := Next(s2, Commit(first));
    var s4 := Next(s3, Relay);
    var s7 := Next(Next(Next(s4, Receive), Commit(second)), Relay);
    steps := TakenThenLate(s4, second);
    Prepend(s3, Relay, steps);
    steps := [Relay] + steps;
    Prepend(s2, Commit(first), steps);
    steps := [Commit(first)] + steps;
    Prepend(s1, Latest(0), steps);
    steps := [Latest(0)] + steps;
    Prepend(Initial(actor, 0), Subscribe, steps);
    steps := [Subscribe] + steps;
    MissedIsNotExact(Next(s7, Receive), second);
  }

  /** One queued event is taken, then a late one is committed, relayed and taken. */
  lemma TakenThenLate(s: Conn, e: Event) returns (steps: seq<Step>)
    requires Enabled(s, Receive) && Enabled(Next(s, Receive), Commit(e))
    requires var s2 := Next(Next(s, Receive), Commit(e)); Enabled(s2, Relay) && Enabled(Next(s2, Relay), Receive)
    ensures Valid(s, steps) && After(s, steps) == Next(Next(Next(Next(s, Receive), Commit(e)), Relay), Receive)
  {
    var s1 := Next(s, Receive);
    var s2 := Next(s1, Commit(e));
    var s3 := Next(s2, Relay);
    steps := [Receive];
    assert Valid(s3, steps) && After(s3, steps) == Next(s3, Receive);
    Prepend(s2, Relay, steps);
    steps := [Relay] + steps;
    Prepend(s1, Commit(e), steps);
    steps := [Commit(e)] + steps;
    Prepend(s, Receive, steps);
    steps := [Receive] + steps;
  }

  /** A relayed event that is wanted but neither sent nor queued. */
  lemma MissedIsNotExact(s: Conn, e: Event)
    requires s.queue == [] && s.relayed == |s.log| && e in s.log && Wanted(s.actor, s.start, e) && e.id !in s.at.sent
    ensures !Exact(s)
  {
    assert s.log[..s.relayed] == s.log;
    assert e.id !in Stream(s);
  }
}
