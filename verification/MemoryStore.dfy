/** The single-process ticket store: dictionaries changed in place. */
module MemoryStore {
  import opened Domain
  import opened TicketMachine
  import opened Paging
  import Glob

  class MemoryTicketStore {
    var tickets: map<string, Ticket>
    var keys: seq<string>           // the dictionary's insertion order
    var claimed: map<string, real>  // ticket id -> when it was claimed

    ghost predicate Valid()
      reads this
    {
      && (forall id :: id in keys <==> id in tickets)
      && NoDuplicates(keys)
      && claimed.Keys <= tickets.Keys
    }

    /** The abstract machine's state. */
    ghost function Contents(): (m: Tickets)
      reads this
      requires Valid()
      ensures m.Valid()
    {
      View(keys, tickets, claimed)
    }

    constructor ()
      ensures Valid() && Contents() == NO_TICKETS
    {
      tickets, keys, claimed := map[], [], map[];
    }

    /** A reused id would overwrite its ticket in place; callers use random ids. */
    method Create(id: string, call: ToolCall)
      requires Valid()
      modifies this
      ensures Valid()
      ensures id !in old(tickets) ==> Contents() == TicketMachine.Create(old(Contents()), id, call)
      ensures id in old(tickets) ==>
                keys == old(keys) && claimed == old(claimed)
                && tickets == old(tickets)[id := Ticket(call, PENDING, None)]
    {
      if id !in tickets {
        ViewOfNew(keys, tickets, claimed, id, Ticket(call, PENDING, None));
        CreateEvolves(View(keys, tickets, claimed), id, call);
        keys := keys + [id];
      }
      tickets := tickets[id := Ticket(call, PENDING, None)];
    }

    method Get(id: string) returns (t: Option<Ticket>)
      requires Valid()
      ensures t == TicketMachine.Get(Contents(), id)
    {
      t := if id in tickets then Some(tickets[id]) else None;
    }

    method Decide(id: string, d: Decision) returns (won: bool)
      requires Valid()
      modifies this`tickets
      ensures Valid()
      ensures won == Decidable(old(Contents()), id)
      ensures Contents() == TicketMachine.Decide(old(Contents()), id, d)
    {
      if id !in tickets || tickets[id].decision.status != Pending {
        return false;
      }
      ViewOfChanged(keys, tickets, claimed, id, tickets[id].(decision := d));
      tickets := tickets[id := tickets[id].(decision := d)];
      return true;
    }

    method Claim(id: string, now: real) returns (won: bool)
      requires Valid()
      modifies this`claimed
      ensures Valid()
      ensures won == Claimable(old(Contents()), id)
      ensures Contents() == TicketMachine.Claim(old(Contents()), id, now)
    {
      if id !in tickets || tickets[id].result.Some? || id in claimed {
        return false;
      }
      ViewOfClaimed(keys, tickets, claimed, id, now);
      claimed := claimed[id := now];
      return true;
    }

    method CloseStaleClaim(id: string, lease: real, result: ToolResult, now: real) returns (closed: bool)
      requires Valid()
      modifies this`tickets
      ensures Valid()
      ensures closed == Stale(old(Contents()), id, lease, now)
      ensures Contents() == TicketMachine.CloseStale(old(Contents()), id, lease, result, now)
    {
      if id !in tickets || tickets[id].result.Some? || id !in claimed {
        return false;
      }
      if now - claimed[id] < lease {
        return false;
      }
      ViewOfChanged(keys, tickets, claimed, id, tickets[id].(result := Some(result)));
      tickets := tickets[id := tickets[id].(result := Some(result))];
      return true;
    }

    /** Fails (a KeyError) on an unknown id. */
    method Complete(id: string, result: ToolResult) returns (known: bool)
      requires Valid()
      modifies this`tickets
      ensures Valid()
      ensures known == (id in old(tickets))
      ensures Contents() == TicketMachine.Complete(old(Contents()), id, result)
    {
      known := id in tickets;
      if known {
        ViewOfChanged(keys, tickets, claimed, id, tickets[id].(result := Some(result)));
        tickets := tickets[id := tickets[id].(result := Some(result))];
      }
    }

    /** One page of the queue, oldest first. */
    method PendingPage(classes: Glob.Classes, limit: int, after: Option<string>, f: Filter)
      returns (page: seq<(string, Ticket)>)
      requires Valid()
      ensures PageIds(page) == Listed(keys, limit, after, Selected(classes, Contents(), f))
      ensures Shows(page, tickets)
    {
      page := [];
      var started := after.None?;
      ghost var sel := InQueue(classes, tickets, f);
      ghost var kept := ScanStarts(keys, after, sel);
      for n := 0 to |keys|
        invariant Shows(page, tickets)
        invariant limit >= 1 ==> |page| < limit
        invariant Scanned(kept, keys[n..], after, sel, started, PageIds(page))
      {
        var id := keys[n];
        assert keys[n..][0] == id && keys[n..][1..] == keys[n + 1..];
        ScanVisit(kept, keys[n..], after, sel, started, page, tickets);
        if !started {
          started := Some(id) == after;
        } else if tickets[id].decision.status == Pending && Keeps(classes, f, tickets[id].call) {
          page := page + [(id, tickets[id])];
          if |page| == limit {
            ScanFull(kept, keys[n + 1..], after, sel, PageIds(page));
            IsSelected(classes, keys, tickets, claimed, f, sel);
            return;
          }
        }
      }
      ScanEnds(kept, keys[|keys|..], after, sel, started, PageIds(page), limit);
      IsSelected(classes, keys, tickets, claimed, f, sel);
    }
  }

  /** One page of the queue. A limit below 1 is never reached, so it lists everything. */
  function Listed(keys: seq<string>, limit: int, after: Option<string>, sel: set<string>): seq<string> {
    if limit >= 1 then Page(keys, limit, after, sel) else Keep(After(keys, after), sel)
  }

  /** With `rest` still to read, what the page lacks of the queue behind the cursor is what `rest` holds of it. */
  ghost predicate Scanned(kept: seq<string>, rest: seq<string>, after: Option<string>, sel: set<string>, started: bool,
                          ids: seq<string>)
  {
    if started then kept == ids + Keep(rest, sel)
    else after.Some? && ids == [] && kept == Keep(After(rest, after), sel)
  }

  lemma ScanStarts(keys: seq<string>, after: Option<string>, sel: set<string>) returns (kept: seq<string>)
    ensures kept == Keep(After(keys, after), sel)
    ensures Scanned(kept, keys[0..], after, sel, after.None?, PageIds([]))
  {
    kept := Keep(After(keys, after), sel);
    assert keys[0..] == keys && [] + Keep(keys, sel) == Keep(keys, sel);
  }

  lemma ScanStep(kept: seq<string>, rest: seq<string>, after: Option<string>, sel: set<string>, started: bool,
                 ids: seq<string>)
    requires rest != [] && Scanned(kept, rest, after, sel, started, ids)
    ensures !started ==> Scanned(kept, rest[1..], after, sel, Some(rest[0]) == after, ids)
    ensures started ==> Scanned(kept, rest[1..], after, sel, true, if rest[0] in sel then ids + [rest[0]] else ids)
  {
    if started {
      if rest[0] in sel {
        assert ids + ([rest[0]] + Keep(rest[1..], sel)) == (ids + [rest[0]]) + Keep(rest[1..], sel);
      } else {
        assert Keep(rest, sel) == Keep(rest[1..], sel);
      }
    }
  }

  /** Reading one more key, whichever branch it takes. */
  lemma ScanVisit(kept: seq<string>, rest: seq<string>, after: Option<string>, sel: set<string>, started: bool,
                  page: seq<(string, Ticket)>, tickets: map<string, Ticket>)
    requires rest != [] && rest[0] in tickets && Shows(page, tickets)
    requires Scanned(kept, rest, after, sel, started, PageIds(page))
    ensures var id := rest[0];
            if !started then Scanned(kept, rest[1..], after, sel, Some(id) == after, PageIds(page))
            else if id !in sel then Scanned(kept, rest[1..], after, sel, true, PageIds(page))
            else var longer := page + [(id, tickets[id])];
                 Shows(longer, tickets) && Scanned(kept, rest[1..], after, sel, true, PageIds(longer))
  {
    ScanStep(kept, rest, after, sel, started, PageIds(page));
    PageAppend(page, tickets, rest[0]);
  }

  lemma ScanFull(kept: seq<string>, rest: seq<string>, after: Option<string>, sel: set<string>, ids: seq<string>)
    requires Scanned(kept, rest, after, sel, true, ids)
    ensures Take(kept, |ids|) == ids
  {
    assert (ids + Keep(rest, sel))[..|ids|] == ids;
  }

  lemma ScanEnds(kept: seq<string>, rest: seq<string>, after: Option<string>, sel: set<string>, started: bool,
                 ids: seq<string>, limit: int)
    requires rest == [] && Scanned(kept, rest, after, sel, started, ids) && (limit >= 1 ==> |ids| < limit)
    ensures ids == if limit >= 1 then Take(kept, limit) else kept
  {
    assert ids + [] == ids;
  }

  ghost function View(keys: seq<string>, tickets: map<string, Ticket>, claimed: map<string, real>): (m: Tickets) {
    Tickets(keys, map id | id in tickets :: EntryOf(tickets[id], id, claimed))
  }

  ghost function EntryOf(t: Ticket, id: string, claimed: map<string, real>): Entry {
    Entry(t, if id in claimed then Some(claimed[id]) else None)
  }

  /** Each id of the page comes with its ticket. */
  ghost predicate Shows(page: seq<(string, Ticket)>, tickets: map<string, Ticket>) {
    forall i :: 0 <= i < |page| ==> page[i].0 in tickets && page[i].1 == tickets[page[i].0]
  }

  lemma PageAppend(page: seq<(string, Ticket)>, tickets: map<string, Ticket>, id: string)
    requires Shows(page, tickets) && id in tickets
    ensures Shows(page + [(id, tickets[id])], tickets)
    ensures PageIds(page + [(id, tickets[id])]) == PageIds(page) + [id]
  {
    IdsAppend(page, id, tickets[id]);
  }

  lemma ViewOfNew(keys: seq<string>, tickets: map<string, Ticket>, claimed: map<string, real>, id: string, t: Ticket)
    requires id !in tickets && claimed.Keys <= tickets.Keys
    ensures View(keys + [id], tickets[id := t], claimed).entries
            == View(keys, tickets, claimed).entries[id := Entry(t, None)]
  {
    assert id !in claimed;
  }

  lemma ViewOfChanged(keys: seq<string>, tickets: map<string, Ticket>, claimed: map<string, real>, id: string,
                      t: Ticket)
    requires id in tickets
    ensures View(keys, tickets[id := t], claimed)
            == Put(View(keys, tickets, claimed), id, View(keys, tickets, claimed).entries[id].(ticket := t))
  {
  }

  lemma ViewOfClaimed(keys: seq<string>, tickets: map<string, Ticket>, claimed: map<string, real>, id: string,
                      now: real)
    requires id in tickets
    ensures View(keys, tickets, claimed[id := now])
            == Put(View(keys, tickets, claimed), id, View(keys, tickets, claimed).entries[id].(claimedAt := Some(now)))
  {
  }

  ghost predicate Picks(classes: Glob.Classes, tickets: map<string, Ticket>, f: Filter, sel: set<string>) {
    && sel <= tickets.Keys
    && forall id :: id in tickets ==>
         (id in sel <==> tickets[id].decision.status == Pending && Keeps(classes, f, tickets[id].call))
  }

  lemma InQueue(classes: Glob.Classes, tickets: map<string, Ticket>, f: Filter) returns (sel: set<string>)
    ensures Picks(classes, tickets, f, sel)
  {
    sel := set id | id in tickets && tickets[id].decision.status == Pending && Keeps(classes, f, tickets[id].call);
  }

  lemma IsSelected(classes: Glob.Classes, keys: seq<string>, tickets: map<string, Ticket>, claimed: map<string, real>,
                   f: Filter, sel: set<string>)
    requires Picks(classes, tickets, f, sel)
    ensures sel == Selected(classes, View(keys, tickets, claimed), f)
  {
  }
}
