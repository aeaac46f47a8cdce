/** The realtime event stream: database relay, process-local hub, and the replay-to-live handoff of
    one connection. */
module Realtime {

  datatype Event = Event(id: int, owner: nat)

  datatype Actor = Actor(id: nat, admin: bool)

  const CAPACITY: nat := 32
  const REPLAY_LIMIT: nat := 100

  predicate Visible(a: Actor, e: Event) {
    a.admin || a.id == e.owner
  }

  /** publish for one subscriber: a full queue drops the event. */
  function Offer(a: Actor, queue: seq<Event>, e: Event): seq<Event> {
    if Visible(a, e) && |queue| < CAPACITY then queue + [e] else queue
  }

  datatype Position = Position(cursor: int, sent: seq<int>)

  /** Both the replay loop and the live loop skip what the cursor has passed. */
  function Deliver(p: Position, e: Event): Position {
    if e.id <= p.cursor then p else Position(e.id, p.sent + [e.id])
  }

  function DeliverAll(p: Position, events: seq<Event>): Position {
    if events == [] then p else Deliver(DeliverAll(p, events[..|events| - 1]), events[|events| - 1])
  }

  // ---------- the two queries ----------

  ghost predicate Ascending(events: seq<Event>) {
    forall i, j | 0 <= i < j < |events| :: events[i].id < events[j].id
  }

  predicate Wanted(a: Actor, cursor: int, e: Event) {
    Visible(a, e) && e.id > cursor
  }

  /** WHERE id > cursor AND visible ORDER BY id LIMIT 100. */
  ghost predicate IsPage(log: seq<Event>, a: Actor, cursor: int, page: seq<Event>) {
    && Ascending(page) && |page| <= REPLAY_LIMIT
    && (forall e | e in page :: e in log && Wanted(a, cursor, e))
    && (forall e | e in log && Wanted(a, cursor, e) && e !in page ::
          |page| == REPLAY_LIMIT && e.id > page[|page| - 1].id)
  }

  /** COALESCE(MAX(id), 0) over the visible events. */
  ghost predicate IsLatest(log: seq<Event>, a: Actor, id: int) {
    && (forall e | e in log && Visible(a, e) :: e.id <= id)
    && (id == 0 || exists e :: e in log && Visible(a, e) && e.id == id)
  }

  // ---------- one connection ----------

  datatype Stage = Opening | Subscribed | Live

  /** `log` is the event table in commit order and `relayed` how far notifications have come.
      `base` is where the relay stood at subscription; `lost` counts what it dropped since: full
      queues, and notifications missed while disconnected. `page` is what the replay read and `received`
      how many queued events have been taken. */
  datatype Conn = Conn(
    actor: Actor, log: seq<Event>, relayed: nat, stage: Stage,
    start: int, at: Position, queue: seq<Event>, base: nat, lost: nat, page: seq<Event>, received: nat)

  datatype Step =
    | Commit(e: Event)
    | Relay
    | Miss
    | Subscribe
    | Replay(page: seq<Event>)
    | Latest(id: int)
    | Receive

  function Initial(actor: Actor, requested: nat): Conn {
    Conn(actor, [], 0, Opening, requested, Position(requested, []), [], 0, 0, [], 0)
  }

  ghost predicate Enabled(s: Conn, step: Step) {
    match step
    case Commit(e) => e.id > 0 && forall f | f in s.log :: f.id != e.id
    case Relay => s.relayed < |s.log|
    case Miss => s.relayed < |s.log|
    case Subscribe => s.stage == Opening
    case Replay(page) => s.stage == Subscribed && s.start > 0 && IsPage(s.log, s.actor, s.start, page)
    case Latest(id) => s.stage == Subscribed && s.start == 0 && IsLatest(s.log, s.actor, id)
    case Receive => s.stage == Live && s.queue != []
  }

  function Next(s: Conn, step: Step): Conn
    requires Enabled(s, step)
  {
    match step
    case Commit(e) => s.(log := s.log + [e])
    case Relay =>
      var e := s.log[s.relayed];
      var s1 := s.(relayed := s.relayed + 1);
      if s.stage == Opening then s1
      else
        var queue := Offer(s.actor, s.queue, e);
        s1.(queue := queue, lost := if Visible(s.actor, e) && queue == s.queue then s.lost + 1 else s.lost)
    case Miss =>
      s.(relayed := s.relayed + 1,
         lost := if s.stage != Opening && Visible(s.actor, s.log[s.relayed]) then s.lost + 1 else s.lost)
    case Subscribe => s.(stage := Subscribed, base := s.relayed)
    case Replay(page) => s.(stage := Live, page := page, at := DeliverAll(s.at, page))
    case Latest(id) => s.(stage := Live, start := id, at := Position(id, []))
    case Receive => s.(queue := s.queue[1..], received := s.received + 1, at := Deliver(s.at, s.queue[0]))
  }

  ghost predicate Valid(s: Conn, steps: seq<Step>)
    decreases |steps|
  {
    steps == [] || (Enabled(s, steps[0]) && Valid(Next(s, steps[0]), steps[1..]))
  }

  ghost function After(s: Conn, steps: seq<Step>): Conn
    requires Valid(s, steps)
    decreases |steps|
  {
    if steps == [] then s else After(Next(s, steps[0]), steps[1..])
  }

  // ---------- what holds on every run ----------

  ghost predicate Increasing(ids: seq<int>) {
    forall i, j | 0 <= i < j < |ids| :: ids[i] < ids[j]
  }

  /** The cursor is the last id sent. */
  ghost predicate PositionOk(start: int, p: Position) {
    && Increasing(p.sent) && start <= p.cursor
    && (if p.sent == [] then p.cursor == start else p.cursor == p.sent[|p.sent| - 1])
    && (forall id | id in p.sent :: start < id <= p.cursor)
  }

  ghost predicate SentVisible(log: seq<Event>, a: Actor, sent: seq<int>) {
    forall id | id in sent :: exists e :: e in log && Visible(a, e) && e.id == id
  }

  ghost predicate Safe(s: Conn) {
    && PositionOk(s.start, s.at) && SentVisible(s.log, s.actor, s.at.sent)
    && s.base <= s.relayed <= |s.log|
    && (forall e | e in s.queue :: e in s.log && Visible(s.actor, e))
    && (s.stage == Opening ==> s.queue == [] && s.lost == 0)
    && (s.stage != Live ==> s.at == Position(s.start, []))
  }

  lemma DeliverOk(start: int, p: Position, e: Event, log: seq<Event>, a: Actor)
    requires PositionOk(start, p) && SentVisible(log, a, p.sent) && e in log && Visible(a, e)
    ensures PositionOk(start, Deliver(p, e)) && SentVisible(log, a, Deliver(p, e).sent)
  {
  }

  lemma {:induction false} DeliverAllOk(start: int, p: Position, events: seq<Event>, log: seq<Event>, a: Actor)
    requires PositionOk(start, p) && SentVisible(log, a, p.sent)
    requires forall e | e in events :: e in log && Visible(a, e)
    ensures PositionOk(start, DeliverAll(p, events)) && SentVisible(log, a, DeliverAll(p, events).sent)
  {
    if events != [] {
      DeliverAllOk(start, p, events[..|events| - 1], log, a);
      DeliverOk(start, DeliverAll(p, events[..|events| - 1]), events[|events| - 1], log, a);
    }
  }

  lemma SafeStep(s: Conn, step: Step)
    requires Safe(s) && Enabled(s, step)
    ensures Safe(Next(s, step))
  {
    match step
    case Commit(e) =>
      assert forall f | f in s.log :: f in s.log + [e];
    case Replay(page) => DeliverAllOk(s.start, s.at, page, s.log, s.actor);
    case Receive =>
      DeliverOk(s.start, s.at, s.queue[0], s.log, s.actor);
      assert forall e | e in s.queue[1..] :: e in s.queue;
    case _ =>
  }

  lemma {:induction false} RunSafe(s: Conn, steps: seq<Step>)
    requires Safe(s) && Valid(s, steps)
    ensures Safe(After(s, steps))
    decreases |steps|
  {
    if steps != [] {
      SafeStep(s, steps[0]);
      RunSafe(Next(s, steps[0]), steps[1..]);
    }
  }

  /** Whatever the relay does, a client sees strictly increasing ids after its cursor, each of an
      event it may see. */
  lemma SentIsSafe(actor: Actor, requested: nat, steps: seq<Step>)
    requires Valid(Initial(actor, requested), steps)
    ensures var s := After(Initial(actor, requested), steps);
            && Increasing(s.at.sent)
            && forall id | id in s.at.sent :: id > s.start && exists e :: e in s.log && e.id == id && (actor.admin || e.owner == actor.id)
  {
    RunSafe(Initial(actor, requested), steps);
    ActorStays(Initial(actor, requested), steps);
  }

  /** The relay passes an event on to a connection that has subscribed, if its user is an administrator or
      the owner, and loses it exactly when 32 events are waiting already. */
  lemma RelayPasses(s: Conn)
    requires Enabled(s, Relay) && s.stage != Opening
    ensures var s', e := Next(s, Relay), s.log[s.relayed];
            var mine := s.actor.admin || e.owner == s.actor.id;
            && s' == s.(relayed := s.relayed + 1, queue := s'.queue, lost := s'.lost)
            && s'.queue == (if mine && |s.queue| < 32 then s.queue + [e] else s.queue)
            && s'.lost == (if mine && |s.queue| >= 32 then s.lost + 1 else s.lost)
  {
  }

  lemma {:induction false} ActorStays(s: Conn, steps: seq<Step>)
    requires Valid(s, steps)
    ensures After(s, steps).actor == s.actor
    decreases |steps|
  {
    if steps != [] {
      ActorStays(Next(s, steps[0]), steps[1..]);
    }
  }
}
