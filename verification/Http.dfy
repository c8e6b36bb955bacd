/** The operator's REST surface: one page of the queue, and the cursor of the next. */
module Http {
  import opened Domain
  import opened MemoryStore
  import opened Paging
  import Glob

  const MAX_PAGE := 500

  /** The page size a request gets: what it asked for, brought into 1..MAX_PAGE. */
  function Clamp(limit: int): (l: nat)
    ensures 1 <= l <= MAX_PAGE
    ensures 1 <= limit <= MAX_PAGE ==> l == limit
    ensures limit < 1 ==> l == 1
  {
    var capped := if limit < MAX_PAGE then limit else MAX_PAGE;
    if capped < 1 then 1 else capped
  }

  class TicketController {
    const store: MemoryTicketStore

    constructor (store: MemoryTicketStore)
      ensures this.store == store
    {
      this.store := store;
    }

    /** However odd the requested limit, the answer is a page of the queue a walk can go on from. */
    method Pending(classes: Glob.Classes, limit: int, after: Option<string>, f: Filter)
      returns (items: seq<(string, Ticket)>, next: Option<string>)
      requires store.Valid()
      ensures PageIds(items) == Page(store.keys, Clamp(limit), after, Selected(classes, store.Contents(), f))
      ensures next == NextCursor(PageIds(items), Clamp(limit))
      ensures forall i :: 0 <= i < |items| ==> items[i].0 in store.tickets && items[i].1 == store.tickets[items[i].0]
    {
      var l := Clamp(limit);
      items := store.PendingPage(classes, l, after, f);
      next := if |items| == l then Some(items[|items| - 1].0) else None;
    }
  }
}
