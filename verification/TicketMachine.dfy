/** The one abstract machine behind both ticket stores: tickets in creation order, each with its
    claim. Every operation of the TicketStore port is one atomic step of it. */
module TicketMachine {
  import opened Domain

  datatype Entry = Entry(ticket: Ticket, claimedAt: Option<real>)

  /** `order` lists the ids oldest first. */
  datatype Tickets = Tickets(order: seq<string>, entries: map<string, Entry>) {
    ghost predicate Valid() {
      && (forall id :: id in order <==> id in entries)
      && NoDuplicates(order)
    }
  }

  const NO_TICKETS := Tickets([], map[])

  ghost predicate NoDuplicates(s: seq<string>) {
    forall i, j :: 0 <= i < j < |s| ==> s[i] != s[j]
  }

  // ---- the port's operations -------------------------------------------------------------------

  function Create(m: Tickets, id: string, call: ToolCall): Tickets {
    Tickets(m.order + [id], m.entries[id := Entry(Ticket(call, PENDING, None), None)])
  }

  function Get(m: Tickets, id: string): Option<Ticket> {
    if id in m.entries then Some(m.entries[id].ticket) else None
  }

  /** One ticket's entry replaced, its place in the queue kept. */
  function Put(m: Tickets, id: string, e: Entry): Tickets {
    m.(entries := m.entries[id := e])
  }

  predicate Decidable(m: Tickets, id: string) {
    id in m.entries && m.entries[id].ticket.decision.status == Pending
  }

  function Decide(m: Tickets, id: string, d: Decision): Tickets {
    if Decidable(m, id)
    then Put(m, id, m.entries[id].(ticket := m.entries[id].ticket.(decision := d)))
    else m
  }

  predicate Claimable(m: Tickets, id: string) {
    id in m.entries && m.entries[id].ticket.result.None? && m.entries[id].claimedAt.None?
  }

  function Claim(m: Tickets, id: string, now: real): Tickets {
    if Claimable(m, id)
    then Put(m, id, m.entries[id].(claimedAt := Some(now)))
    else m
  }

  /** The claim is at least `lease` old and still has no result. */
  predicate Stale(m: Tickets, id: string, lease: real, now: real) {
    && id in m.entries
    && m.entries[id].ticket.result.None?
    && m.entries[id].claimedAt.Some?
    && now - m.entries[id].claimedAt.value >= lease
  }

  function CloseStale(m: Tickets, id: string, lease: real, result: ToolResult, now: real): Tickets {
    if Stale(m, id, lease, now) then Complete(m, id, result) else m
  }

  function Complete(m: Tickets, id: string, result: ToolResult): Tickets {
    if id in m.entries
    then Put(m, id, m.entries[id].(ticket := m.entries[id].ticket.(result := Some(result))))
    else m
  }

  // ---- what no sequence of operations undoes ---------------------------------------------------

  predicate Decided(m: Tickets, id: string) {
    id in m.entries && m.entries[id].ticket.decision.status != Pending
  }

  /** The call is a snapshot, the verdict is final, a claim is never freed, a result never goes away. */
  ghost predicate EntryEvolves(e: Entry, f: Entry) {
    && f.ticket.call == e.ticket.call
    && (e.ticket.decision.status != Pending ==> f.ticket.decision == e.ticket.decision)
    && (e.claimedAt.Some? ==> f.claimedAt == e.claimedAt)
    && (e.ticket.result.Some? ==> f.ticket.result.Some?)
  }

  ghost predicate InOrder(s: seq<string>, a: string, b: string) {
    exists i, j :: 0 <= i < j < |s| && s[i] == a && s[j] == b
  }

  ghost predicate Before(m: Tickets, a: string, b: string) {
    InOrder(m.order, a, b)
  }

  ghost predicate EntriesEvolve(m: Tickets, n: Tickets) {
    forall id :: id in m.entries ==> id in n.entries && EntryEvolves(m.entries[id], n.entries[id])
  }

  /** `n` is a later state of the store that was `m`. */
  ghost predicate Evolves(m: Tickets, n: Tickets) {
    && EntriesEvolve(m, n)
    && (forall a, b :: Before(m, a, b) ==> Before(n, a, b))
  }

  lemma EvolvesTransitive(a: Tickets, b: Tickets, c: Tickets)
    requires Evolves(a, b) && Evolves(b, c)
    ensures Evolves(a, c)
  {
  }

  lemma EvolvesReflexive(m: Tickets)
    ensures Evolves(m, m)
  {
  }

  lemma PutEvolves(m: Tickets, id: string, e: Entry)
    requires m.Valid() && id in m.entries && EntryEvolves(m.entries[id], e)
    ensures Put(m, id, e).Valid() && Evolves(m, Put(m, id, e))
  {
    var n := Put(m, id, e);
    forall a, b | Before(m, a, b) ensures Before(n, a, b) {
      var i, j :| 0 <= i < j < |m.order| && m.order[i] == a && m.order[j] == b;
      assert n.order[i] == a && n.order[j] == b;
    }
  }

  /** Every operation only moves the store forward. */
  lemma CreateEvolves(m: Tickets, id: string, call: ToolCall)
    requires m.Valid() && id !in m.entries
    ensures Create(m, id, call).Valid() && Evolves(m, Create(m, id, call))
  {
    var n := Create(m, id, call);
    forall a, b | Before(m, a, b) ensures Before(n, a, b) {
      var i, j :| 0 <= i < j < |m.order| && m.order[i] == a && m.order[j] == b;
      assert n.order[i] == a && n.order[j] == b;
    }
    forall x ensures x in n.order <==> x in n.entries {
      assert x in n.order <==> x in m.order || x == id;
    }
  }

  lemma DecideEvolves(m: Tickets, id: string, d: Decision)
    requires m.Valid()
    ensures Decide(m, id, d).Valid() && Evolves(m, Decide(m, id, d))
  {
    if Decidable(m, id) {
      PutEvolves(m, id, m.entries[id].(ticket := m.entries[id].ticket.(decision := d)));
    } else {
      EvolvesReflexive(m);
    }
  }

  lemma ClaimEvolves(m: Tickets, id: string, now: real)
    requires m.Valid()
    ensures Claim(m, id, now).Valid() && Evolves(m, Claim(m, id, now))
  {
    if Claimable(m, id) {
      PutEvolves(m, id, m.entries[id].(claimedAt := Some(now)));
    } else {
      EvolvesReflexive(m);
    }
  }

  lemma CompleteEvolves(m: Tickets, id: string, result: ToolResult)
    requires m.Valid()
    ensures Complete(m, id, result).Valid() && Evolves(m, Complete(m, id, result))
  {
    if id in m.entries {
      PutEvolves(m, id, m.entries[id].(ticket := m.entries[id].ticket.(result := Some(result))));
    } else {
      EvolvesReflexive(m);
    }
  }

  // ---- what each operation does to what a caller can see ---------------------------------------

  /** A new ticket is the call as it is, pending, unclaimed and without a result, and stands last. */
  lemma CreatedTicket(m: Tickets, id: string, call: ToolCall, other: string)
    requires m.Valid() && id !in m.entries
    ensures var n := Create(m, id, call);
            && Get(n, id) == Some(Ticket(call, Decision(Pending, "", "", None), None))
            && n.entries[id].claimedAt == None
            && (other != id ==> Get(n, other) == Get(m, other))
            && (other in m.entries ==> Before(n, other, id))
  {
    var n := Create(m, id, call);
    if other in m.entries {
      var i :| 0 <= i < |m.order| && m.order[i] == other;
      assert n.order[i] == other && n.order[|m.order|] == id;
    }
  }

  /** Exactly a pending ticket can be decided; it then holds that very verdict, whatever it is, and nothing
      else of it or of another ticket changes. */
  lemma DecidedTicket(m: Tickets, id: string, d: Decision, other: string)
    ensures Decidable(m, id) <==> Get(m, id).Some? && Get(m, id).value.decision.status == Pending
    ensures var n := Decide(m, id, d);
            if Decidable(m, id)
            then Get(n, id) == Some(Get(m, id).value.(decision := d)) && n.entries[id].claimedAt == m.entries[id].claimedAt
            else n == m
    ensures other != id && other in m.entries ==> other in Decide(m, id, d).entries
                                                  && Decide(m, id, d).entries[other] == m.entries[other]
    ensures Decide(m, id, d).order == m.order
  {
  }

  /** Exactly a ticket with no claim and no result can be claimed, and then not again. */
  lemma ClaimedTicket(m: Tickets, id: string, now: real, again: real)
    ensures Claimable(m, id) <==> Get(m, id).Some? && Get(m, id).value.result.None? && m.entries[id].claimedAt.None?
    ensures var n := Claim(m, id, now);
            && !Claimable(n, id) && Claim(n, id, again) == n
            && (if Claimable(m, id) then n.entries == m.entries[id := Entry(m.entries[id].ticket, Some(now))] else n == m)
            && n.order == m.order
  {
  }

  /** Exactly a claim at least the lease old and without a result can be closed, and then not again. */
  lemma ClosedTicket(m: Tickets, id: string, lease: real, result: ToolResult, now: real)
    ensures Stale(m, id, lease, now) <==>
              id in m.entries && m.entries[id].ticket.result.None? && m.entries[id].claimedAt.Some?
              && now >= m.entries[id].claimedAt.value + lease
    ensures var n := CloseStale(m, id, lease, result, now);
            && !Stale(n, id, lease, now)
            && (if Stale(m, id, lease, now) then n == Complete(m, id, result) else n == m)
  {
  }

  /** Completing stores the result on a known ticket, over any earlier one, and changes nothing else. */
  lemma CompletedTicket(m: Tickets, id: string, result: ToolResult)
    ensures var n := Complete(m, id, result);
            if Get(m, id).None? then n == m
            else && Get(n, id) == Some(Get(m, id).value.(result := Some(result))) && n.order == m.order
                 && n.entries == m.entries[id := Entry(Get(n, id).value, m.entries[id].claimedAt)]
  {
  }
}
