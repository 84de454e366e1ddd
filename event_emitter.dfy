/** services/event_emmiter.py: a registry of callbacks per event name.
    Callbacks are opaque handler ids; `Emit` returns the ids it invokes,
    in the order it invokes them (`_run_callback` is one call each). */
module EventEmitters {

  type EventName = string
  type HandlerId = nat

  /** The handlers `emit(e)` runs for a registry `events`: none when `e`
      was never registered. */
  function Registered(events: map<EventName, seq<HandlerId>>, e: EventName): seq<HandlerId>
  {
    if e in events then events[e] else []
  }

  /** The registry after `on(e, h)`: `e`'s list, created empty when
      missing, with `h` appended. */
  function Register(events: map<EventName, seq<HandlerId>>, e: EventName, h: HandlerId): (r: map<EventName, seq<HandlerId>>)
    ensures r.Keys == events.Keys + {e}
  {
    events[e := Registered(events, e) + [h]]
  }

  /** `on(e, h)` appends `h` to the end of `e`'s handlers and no other
      event's handlers change. */
  lemma RegisterAppends(events: map<EventName, seq<HandlerId>>, e: EventName, h: HandlerId, other: EventName)
    ensures Registered(Register(events, e, h), e) == Registered(events, e) + [h]
    ensures other != e ==> Registered(Register(events, e, h), other) == Registered(events, other)
  {
  }

  /** A handler registered twice for one event runs twice per emit. */
  lemma RegisterTwiceRunsTwice(events: map<EventName, seq<HandlerId>>, e: EventName, h: HandlerId)
    ensures var twice := Registered(Register(Register(events, e, h), e, h), e);
            multiset(twice)[h] == multiset(Registered(events, e))[h] + 2
  {
  }

  class EventEmitter {
    var events: map<EventName, seq<HandlerId>>

    /** A fresh emitter has no registrations. */
    constructor ()
      ensures events == map[]
    {
      events := map[];
    }

    /** The handlers registered for `e`, in registration order. */
    function Handlers(e: EventName): seq<HandlerId>
      reads this
    {
      Registered(events, e)
    }

    /** `on(e, cb)`. */
    method On(e: EventName, cb: HandlerId)
      modifies this
      ensures events == Register(old(events), e, cb)
      ensures Handlers(e) == old(Handlers(e)) + [cb]
    {
      if e !in events {
        events := events[e := []];
      }
      events := events[e := events[e] + [cb]];
    }

    /** `emit(e)`: every handler registered for `e` runs once, in
        registration order, and nothing runs for an unregistered event. */
    method Emit(e: EventName) returns (invoked: seq<HandlerId>)
      ensures |invoked| == |Handlers(e)|
      ensures forall i :: 0 <= i < |invoked| ==> invoked[i] == Handlers(e)[i]
      ensures e !in events ==> invoked == []
    {
      invoked := [];
      if e in events {
        var handlers := events[e];
        var i := 0;
        while i < |handlers|
          invariant 0 <= i <= |handlers|
          invariant invoked == handlers[..i]
        {
          invoked := invoked + [handlers[i]];
          i := i + 1;
        }
      }
    }
  }
}
