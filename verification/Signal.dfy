/** The in-process wake-up: an event per ticket, kept until someone waiting hears it. */
module Signal {

  class MemoryDecisionSignal {
    var events: map<string, bool>  // ticket -> whether its event is set

    /** The tickets whose event is set: a wait on one of them returns at once. */
    ghost function Sent(): set<string>
      reads this
    {
      set id | id in events && events[id]
    }

    constructor ()
      ensures Sent() == {}
    {
      events := map[];
    }

    /** `meanwhile` is whether the event is set while the wait lasts. A signal sent before anyone waits is
        heard all the same, and each is heard once. */
    method WaitForDecision(id: string, meanwhile: bool) returns (heard: bool)
      modifies this
      ensures heard == (id in old(Sent()) || meanwhile)
      ensures Sent() == if heard then old(Sent()) - {id} else old(Sent())
    {
      if id !in events {
        events := events[id := false];
      }
      if !events[id] && !meanwhile {
        return false;
      }
      events := events - {id};
      return true;
    }

    method SignalDecision(id: string)
      modifies this
      ensures Sent() == old(Sent()) + {id}
    {
      events := events[id := true];
    }
  }
}
