/** The process-local hub and the stream handler as the mutable objects they are. */
module RealtimeHub {
  import opened Realtime

  datatype Subscriber = Subscriber(actor: Actor, queue: seq<Event>)

  function Published(subscribers: map<nat, Subscriber>, e: Event): map<nat, Subscriber> {
    map i | i in subscribers :: subscribers[i].(queue := Offer(subscribers[i].actor, subscribers[i].queue, e))
  }

  /** An event goes to the administrators and its owner, as far as their queues have room. */
  lemma PublishedReaches(subscribers: map<nat, Subscriber>, e: Event, i: nat)
    requires i in subscribers
    ensures var s := subscribers[i];
            && Published(subscribers, e).Keys == subscribers.Keys
            && Published(subscribers, e)[i].actor == s.actor
            && Published(subscribers, e)[i].queue
               == if (s.actor.admin || s.actor.id == e.owner) && |s.queue| < 32 then s.queue + [e] else s.queue
  {
  }

  class Hub {
    var nextId: nat
    var subscribers: map<nat, Subscriber>

    /** Ids are never reused while the hub lives, and no queue exceeds its capacity. */
    ghost predicate Valid()
      reads this
    {
      forall i | i in subscribers :: i < nextId && |subscribers[i].queue| <= CAPACITY
    }

    constructor ()
      ensures Valid() && subscribers == map[]
    {
      nextId, subscribers := 0, map[];
    }

    method Subscribe(actor: Actor) returns (id: nat)
      requires Valid()
      modifies this
      ensures Valid() && id !in old(subscribers) && nextId > old(nextId)
      ensures subscribers == old(subscribers)[id := Subscriber(actor, [])]
    {
      id := nextId;
      nextId := nextId + 1;
      subscribers := subscribers[id := Subscriber(actor, [])];
    }

    method Unsubscribe(id: nat)
      requires Valid()
      modifies this
      ensures Valid() && nextId == old(nextId) && subscribers == old(subscribers) - {id}
    {
      subscribers := subscribers - {id};
    }

    /** Every subscriber gets its own offer, whatever order the map is walked in. */
    method Publish(e: Event)
      requires Valid()
      modifies this
      ensures Valid() && nextId == old(nextId) && subscribers == Published(old(subscribers), e)
    {
      var left := subscribers.Keys;
      while left != {}
        invariant Valid() && nextId == old(nextId)
        invariant subscribers.Keys == old(subscribers).Keys && left <= subscribers.Keys
        invariant forall i | i in subscribers ::
                    subscribers[i] == if i in left then old(subscribers)[i] else Published(old(subscribers), e)[i]
        decreases left
      {
        var i :| i in left;
        var s := subscribers[i];
        if Visible(s.actor, e) {
          if |s.queue| < CAPACITY {
            subscribers := subscribers[i := s.(queue := s.queue + [e])];
          }
        }
        left := left - {i};
      }
    }

    method Take(id: nat) returns (e: Event)
      requires Valid() && id in subscribers && subscribers[id].queue != []
      modifies this
      ensures Valid() && nextId == old(nextId) && e == old(subscribers)[id].queue[0]
      ensures subscribers == old(subscribers)[id := old(subscribers)[id].(queue := old(subscribers)[id].queue[1..])]
    {
      e := subscribers[id].queue[0];
      subscribers := subscribers[id := subscribers[id].(queue := subscribers[id].queue[1..])];
    }
  }

  /** streamEvents: its cursor variable and what it has written to the response. */
  class Connection {
    var cursor: int
    var sent: seq<int>

    function At(): Position
      reads this
    {
      Position(cursor, sent)
    }

    constructor (requested: nat)
      ensures At() == Position(requested, [])
    {
      cursor, sent := requested, [];
    }

    method Replay(pending: seq<Event>)
      modifies this
      ensures At() == DeliverAll(old(At()), pending)
    {
      for n := 0 to |pending|
        invariant At() == DeliverAll(old(At()), pending[..n])
      {
        assert pending[..n + 1][..n] == pending[..n];
        if pending[n].id > cursor {
          sent := sent + [pending[n].id];
          cursor := pending[n].id;
        }
      }
      assert pending[..|pending|] == pending;
    }

    method Receive(e: Event)
      modifies this
      ensures At() == Deliver(old(At()), e)
    {
      if e.id <= cursor {
        return;
      }
      sent := sent + [e.id];
      cursor := e.id;
    }
  }
}
