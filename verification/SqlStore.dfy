/** The persistent ticket store: rows, conditional updates and keyset paging. */
module SqlStore {
  import opened Domain
  import opened TicketMachine
  import opened Paging
  import opened Table
  import Glob

  type Query = Row -> bool

  // The conditions and assignments of the store's statements.

  function IsUndecided(id: string): Query {
    (r: Row) => r.id == id && r.status == Pending
  }

  function IsUnclaimed(id: string): Query {
    (r: Row) => r.id == id && !r.claimed && r.result.None?
  }

  function IsStale(id: string, cutoff: real): Query {
    (r: Row) => r.id == id && r.claimed && r.result.None? && r.claimedAt.Some? && r.claimedAt.value <= cutoff
  }

  function IsTicket(id: string): Query {
    (r: Row) => r.id == id
  }

  function SetVerdict(d: Decision): Row -> Row {
    (r: Row) => r.(status := d.status, decision := d)
  }

  function SetClaim(now: real): Row -> Row {
    (r: Row) => r.(claimed := true, claimedAt := Some(now))
  }

  function SetResult(result: ToolResult): Row -> Row {
    (r: Row) => r.(result := Some(result))
  }

  class SqlTicketStore {
    const unlimited: bool  // whether the database takes a negative LIMIT for none; otherwise it refuses it
    var rows: seq<Row>

    ghost predicate Valid()
      reads this
    {
      TableOk(rows)
    }

    /** The abstract machine's state: tickets in (created_at, id) order. */
    ghost function Contents(): (m: Tickets)
      reads this
      requires Valid()
      ensures m.Valid()
    {
      AbstractIsValid(rows);
      Abstract(rows)
    }

    constructor (unlimited: bool)
      ensures Valid() && Contents() == NO_TICKETS && this.unlimited == unlimited
    {
      this.unlimited, rows := unlimited, [];
    }

    /** Fails on a reused id (the primary key). The new ticket goes last in the queue when it is newer
        than every other; in any case the others keep their order. */
    method Create(id: string, call: ToolCall, now: real) returns (inserted: bool)
      requires Valid()
      modifies this
      ensures Valid()
      ensures inserted == (id !in old(Contents()).entries)
      ensures !inserted ==> rows == old(rows)
      ensures inserted ==>
                && Contents().entries == TicketMachine.Create(old(Contents()), id, call).entries
                && Evolves(old(Contents()), Contents())
      ensures inserted && (forall i :: 0 <= i < |old(rows)| ==> old(rows)[i].createdAt < now) ==>
                Contents() == TicketMachine.Create(old(Contents()), id, call)
    {
      EntriesKeys(rows, id);
      if id in Ids(rows) {
        return false;
      }
      var row := Row(id, call.agentId, call.FullName(), PENDING.status, call, PENDING, false, None, None, now);
      InsertRow(rows, row);
      rows := [row] + rows;
      return true;
    }

    method Get(id: string) returns (t: Option<Ticket>)
      requires Valid()
      ensures t == TicketMachine.Get(Contents(), id)
    {
      EntriesKeys(rows, id);
      var i := 0;
      while i < |rows|
        invariant 0 <= i <= |rows|
        invariant id !in Ids(rows)[..i]
      {
        if rows[i].id == id {
          EntriesAt(rows, i);
          return Some(Ticket(rows[i].call, rows[i].decision, rows[i].result));
        }
        i := i + 1;
      }
      assert Ids(rows)[..|rows|] == Ids(rows);
      return None;
    }

    method Decide(id: string, d: Decision) returns (won: bool)
      requires Valid()
      modifies this
      ensures Valid()
      ensures won == Decidable(old(Contents()), id)
      ensures Contents() == TicketMachine.Decide(old(Contents()), id, d)
    {
      DecideRows(rows, id, d);
      won := RowCount(rows, IsUndecided(id)) == 1;
      rows := Update(rows, IsUndecided(id), SetVerdict(d));
    }

    method Claim(id: string, now: real) returns (won: bool)
      requires Valid()
      modifies this
      ensures Valid()
      ensures won == Claimable(old(Contents()), id)
      ensures Contents() == TicketMachine.Claim(old(Contents()), id, now)
    {
      ClaimRows(rows, id, now);
      won := RowCount(rows, IsUnclaimed(id)) == 1;
      rows := Update(rows, IsUnclaimed(id), SetClaim(now));
    }

    method CloseStaleClaim(id: string, lease: real, result: ToolResult, now: real) returns (closed: bool)
      requires Valid()
      modifies this
      ensures Valid()
      ensures closed == Stale(old(Contents()), id, lease, now)
      ensures Contents() == TicketMachine.CloseStale(old(Contents()), id, lease, result, now)
    {
      var cutoff := now - lease;
      CloseRows(rows, id, lease, result, now);
      closed := RowCount(rows, IsStale(id, cutoff)) == 1;
      rows := Update(rows, IsStale(id, cutoff), SetResult(result));
    }

    method Complete(id: string, result: ToolResult)
      requires Valid()
      modifies this
      ensures Valid()
      ensures Contents() == TicketMachine.Complete(old(Contents()), id, result)
    {
      CompleteRows(rows, id, result);
      rows := Update(rows, IsTicket(id), SetResult(result));
    }

    /** One page of the queue; the tickets come without a result. A negative limit goes to the database
        as it is: some take it for no limit, others fail the query. */
    method PendingPage(limit: int, after: Option<string>, f: Filter) returns (answer: Option<seq<(string, Ticket)>>)
      requires Valid()
      ensures answer.None? <==> limit < 0 && !unlimited && (after.Some? ==> after.value in Contents().entries)
      ensures answer.Some? ==> PageIds(answer.value) == Limited(Contents().order, limit, after, LikeSelected(Contents(), f))
      ensures answer.Some? ==> Bare(answer.value, Contents())
    {
      var query := IsPending();
      if f.tool != "" {
        var pattern := Glob.ToLike(f.tool);
        query := WithTool(query, pattern);
      }
      if f.agentId != "" {
        query := WithAgent(query, f.agentId);
      }
      if after.Some? {
        var cursor := CreatedAt(after.value);
        if cursor.None? {
          UnknownCursor(rows, limit, after, f);
          return Some([]);
        }
        query := PastCursor(query, cursor.value, after.value);
      }
      if limit < 0 && !unlimited {
        return None;
      }
      var found := OrderBy(Where(rows, query));
      var taken := if limit < 0 || |found| <= limit then found else found[..limit];
      Fetched(rows, query, limit, after, f, taken);
      return Some(Shown(taken));
    }

    /** The creation time of the cursor's row, pending or not. */
    method CreatedAt(id: string) returns (t: Option<real>)
      requires Valid()
      ensures t.None? <==> id !in Contents().entries
      ensures t.Some? ==> HasRow(rows, id, t.value)
    {
      EntriesKeys(rows, id);
      for i := 0 to |rows|
        invariant forall j :: 0 <= j < i ==> rows[j].id != id
      {
        if rows[i].id == id {
          assert Ids(rows)[i] == id;
          return Some(rows[i].createdAt);
        }
      }
      return None;
    }
  }

  ghost predicate HasRow(rows: seq<Row>, id: string, createdAt: real) {
    exists i :: 0 <= i < |rows| && rows[i].id == id && rows[i].createdAt == createdAt
  }

  function IsPending(): Query {
    (r: Row) => r.status == Pending
  }

  function WithTool(q: Query, pattern: string): Query {
    (r: Row) => q(r) && Glob.Like(pattern, r.tool)
  }

  function WithAgent(q: Query, agentId: string): Query {
    (r: Row) => q(r) && r.agentId == agentId
  }

  function PastCursor(q: Query, createdAt: real, id: string): Query {
    (r: Row) => q(r) && (r.createdAt > createdAt || (r.createdAt == createdAt && LexLess(id, r.id)))
  }

  // ---- each statement is the abstract operation ------------------------------------------------

  /** A row and its ticket. */
  lemma RowOfTicket(rows: seq<Row>, id: string)
    requires TableOk(rows)
    ensures id in Entries(rows) <==> exists i :: 0 <= i < |rows| && rows[i].id == id
    ensures forall i :: 0 <= i < |rows| && rows[i].id == id ==> id in Entries(rows) && Entries(rows)[id] == EntryOf(rows[i])
  {
    EntriesKeys(rows, id);
    forall i | 0 <= i < |rows| && rows[i].id == id
      ensures id in Entries(rows) && Entries(rows)[id] == EntryOf(rows[i])
    {
      EntriesAt(rows, i);
    }
    if id in Entries(rows) {
      var i :| 0 <= i < |rows| && Ids(rows)[i] == id;
      assert rows[i].id == id;
    }
  }

  lemma OneRowOk(rows: seq<Row>, i: nat, r: Row)
    requires TableOk(rows) && i < |rows| && r.id == rows[i].id && RowOk(r)
    ensures TableOk(rows[i := r])
  {
    assert Ids(rows[i := r]) == Ids(rows);
  }

  lemma DecideRows(rows: seq<Row>, id: string, d: Decision)
    requires TableOk(rows)
    ensures var q := IsUndecided(id); var n := Update(rows, q, SetVerdict(d));
      && TableOk(n) && Abstract(n) == TicketMachine.Decide(Abstract(rows), id, d)
      && (RowCount(rows, q) == 1 <==> Decidable(Abstract(rows), id))
  {
    UpdateOneTicket(rows, IsUndecided(id), SetVerdict(d), id);
    RowOfTicket(rows, id);
    if i: nat :| i < |rows| && IsUndecided(id)(rows[i]) {
      OneRowMatches(rows, IsUndecided(id), SetVerdict(d), i, id);
      OneRowOk(rows, i, SetVerdict(d)(rows[i]));
    }
  }

  lemma ClaimRows(rows: seq<Row>, id: string, now: real)
    requires TableOk(rows)
    ensures var q := IsUnclaimed(id); var n := Update(rows, q, SetClaim(now));
      && TableOk(n) && Abstract(n) == TicketMachine.Claim(Abstract(rows), id, now)
      && (RowCount(rows, q) == 1 <==> Claimable(Abstract(rows), id))
  {
    UpdateOneTicket(rows, IsUnclaimed(id), SetClaim(now), id);
    RowOfTicket(rows, id);
    if i: nat :| i < |rows| && IsUnclaimed(id)(rows[i]) {
      OneRowMatches(rows, IsUnclaimed(id), SetClaim(now), i, id);
      OneRowOk(rows, i, SetClaim(now)(rows[i]));
    }
  }

  lemma CloseRows(rows: seq<Row>, id: string, lease: real, result: ToolResult, now: real)
    requires TableOk(rows)
    ensures var q := IsStale(id, now - lease); var n := Update(rows, q, SetResult(result));
      && TableOk(n) && Abstract(n) == TicketMachine.CloseStale(Abstract(rows), id, lease, result, now)
      && (RowCount(rows, q) == 1 <==> Stale(Abstract(rows), id, lease, now))
  {
    var q := IsStale(id, now - lease);
    UpdateOneTicket(rows, q, SetResult(result), id);
    RowOfTicket(rows, id);
    if i: nat :| i < |rows| && q(rows[i]) {
      OneRowMatches(rows, q, SetResult(result), i, id);
      OneRowOk(rows, i, SetResult(result)(rows[i]));
    }
  }

  lemma CompleteRows(rows: seq<Row>, id: string, result: ToolResult)
    requires TableOk(rows)
    ensures var n := Update(rows, IsTicket(id), SetResult(result));
      && TableOk(n) && Abstract(n) == TicketMachine.Complete(Abstract(rows), id, result)
  {
    UpdateOneTicket(rows, IsTicket(id), SetResult(result), id);
    RowOfTicket(rows, id);
    if i: nat :| i < |rows| && IsTicket(id)(rows[i]) {
      OneRowMatches(rows, IsTicket(id), SetResult(result), i, id);
      OneRowOk(rows, i, SetResult(result)(rows[i]));
    }
  }

  // ---- the page query --------------------------------------------------------------------------

  /** The tickets the query's conditions select. */
  function LikeSelected(m: Tickets, f: Filter): set<string> {
    set id | id in m.entries && m.entries[id].ticket.decision.status == Pending
             && (f.tool == "" || Glob.Like(Glob.ToLike(f.tool), m.entries[id].ticket.call.FullName()))
             && (f.agentId == "" || m.entries[id].ticket.call.agentId == f.agentId)
  }

  /** On a plain tool filter both stores select, and therefore page, the same tickets. */
  lemma PlainFiltersSelectTheSame(classes: Glob.Classes, m: Tickets, f: Filter)
    requires Glob.Plain(f.tool)
    ensures LikeSelected(m, f) == Selected(classes, m, f)
  {
    Glob.ToLikeIsFaithfulIffPlain(classes, f.tool);
    forall id | id in m.entries
      ensures id in LikeSelected(m, f) <==> id in Selected(classes, m, f)
    {
      var name := m.entries[id].ticket.call.FullName();
      assert Glob.Like(Glob.ToLike(f.tool), name) == Glob.Matches(classes, f.tool, name);
    }
  }

  lemma SelectedRow(rows: seq<Row>, f: Filter, i: nat)
    requires TableOk(rows) && i < |rows|
    ensures rows[i].id in LikeSelected(Abstract(rows), f) <==>
            && rows[i].status == Pending
            && (f.tool == "" || Glob.Like(Glob.ToLike(f.tool), rows[i].tool))
            && (f.agentId == "" || rows[i].agentId == f.agentId)
  {
    EntriesAt(rows, i);
    assert RowOk(rows[i]);
  }

  /** The page as the store returns it. */
  function Shown(rows: seq<Row>): (page: seq<(string, Ticket)>)
    ensures |page| == |rows|
    ensures forall i :: 0 <= i < |rows| ==> page[i] == (rows[i].id, Ticket(rows[i].call, rows[i].decision, None))
  {
    seq(|rows|, i requires 0 <= i < |rows| => (rows[i].id, Ticket(rows[i].call, rows[i].decision, None)))
  }

  /** Each id of the page comes with its ticket, less the result. */
  ghost predicate Bare(page: seq<(string, Ticket)>, m: Tickets) {
    forall i :: 0 <= i < |page| ==>
      page[i].0 in m.entries && page[i].1 == m.entries[page[i].0].ticket.(result := None)
  }

  /** A page of the queue; all of it when the limit is negative. */
  function Limited(order: seq<string>, limit: int, after: Option<string>, sel: set<string>): seq<string> {
    if limit < 0 then Keep(After(order, after), sel) else Page(order, limit, after, sel)
  }

  lemma ShownTickets(rows: seq<Row>, q: Query, taken: seq<Row>)
    requires TableOk(rows) && taken <= OrderBy(Where(rows, q))
    ensures PageIds(Shown(taken)) == Ids(taken)
    ensures Bare(Shown(taken), Abstract(rows))
  {
    FoundRows(rows, q);
    forall i | 0 <= i < |taken| ensures taken[i] in rows {
      assert taken[i] == OrderBy(Where(rows, q))[i];
    }
    RowsAreBare(rows, taken);
  }

  lemma RowsAreBare(rows: seq<Row>, found: seq<Row>)
    requires TableOk(rows) && forall i :: 0 <= i < |found| ==> found[i] in rows
    ensures Bare(Shown(found), Abstract(rows))
  {
    forall i | 0 <= i < |found|
      ensures Shown(found)[i].0 in Entries(rows)
      ensures Shown(found)[i].1 == Entries(rows)[Shown(found)[i].0].ticket.(result := None)
    {
      var k :| 0 <= k < |rows| && rows[k] == found[i];
      EntriesAt(rows, k);
    }
  }

  lemma {:induction false} UnknownAfter(order: seq<string>, after: Option<string>)
    requires after.Some? && after.value !in order
    ensures After(order, after) == []
  {
    if order != [] {
      UnknownAfter(order[1..], after);
    }
  }

  lemma UnknownCursor(rows: seq<Row>, limit: int, after: Option<string>, f: Filter)
    requires TableOk(rows) && after.Some? && after.value !in Entries(rows)
    ensures Limited(Abstract(rows).order, limit, after, LikeSelected(Abstract(rows), f)) == []
  {
    EntriesKeys(rows, after.value);
    OrderByIds(rows, after.value);
    UnknownAfter(Abstract(rows).order, after);
  }

  lemma {:induction false} FoundRows(rows: seq<Row>, q: Query)
    ensures forall i :: 0 <= i < |OrderBy(Where(rows, q))| ==> OrderBy(Where(rows, q))[i] in rows
  {
    var found := Where(rows, q);
    OrderByMembers(found);
    forall i | 0 <= i < |OrderBy(found)| ensures OrderBy(found)[i] in rows {
      assert OrderBy(found)[i] in multiset(OrderBy(found));
      assert OrderBy(found)[i] in found;
      WhereMembers(rows, q, OrderBy(found)[i]);
    }
  }

  lemma {:induction false} WhereMembers(rows: seq<Row>, q: Query, r: Row)
    requires r in Where(rows, q)
    ensures r in rows
  {
    if q(rows[0]) && r == rows[0] {
    } else {
      WhereMembers(rows[1..], q, r);
    }
  }

  lemma SortedRows(rows: seq<Row>)
    ensures forall x :: x in OrderBy(rows) <==> x in rows
  {
    OrderByMembers(rows);
    forall x ensures x in OrderBy(rows) <==> x in rows {
      assert x in multiset(OrderBy(rows)) <==> x in multiset(rows);
    }
  }

  lemma SortedSelection(rows: seq<Row>, base: Query, sel: set<string>)
    requires forall i :: 0 <= i < |rows| ==> (base(rows[i]) <==> rows[i].id in sel)
    ensures forall i :: 0 <= i < |OrderBy(rows)| ==> (base(OrderBy(rows)[i]) <==> OrderBy(rows)[i].id in sel)
  {
    SortedRows(rows);
    forall i | 0 <= i < |OrderBy(rows)| ensures base(OrderBy(rows)[i]) <==> OrderBy(rows)[i].id in sel {
      assert OrderBy(rows)[i] in rows;
    }
  }

  /** The ordered query result is the filtered queue behind the cursor. */
  lemma PageOfQuery(rows: seq<Row>, base: Query, query: Query, after: Option<string>, sel: set<string>)
    requires TableOk(rows)
    requires forall i :: 0 <= i < |rows| ==> (base(rows[i]) <==> rows[i].id in sel)
    requires after.None? ==> query == base
    requires after.Some? ==> exists c :: 0 <= c < |rows| && rows[c].id == after.value
                                         && query == PastCursor(base, rows[c].createdAt, after.value)
    ensures Ids(OrderBy(Where(rows, query))) == Keep(After(Abstract(rows).order, after), sel)
  {
    WhereOrderBy(rows, query);
    if after.None? {
      SortedSelection(rows, base, sel);
      WhereIsKeep(OrderBy(rows), query, sel);
    } else {
      var c :| 0 <= c < |rows| && rows[c].id == after.value && query == PastCursor(base, rows[c].createdAt, after.value);
      QueryPastRow(rows, base, c, sel);
    }
  }

  lemma QueryPastRow(rows: seq<Row>, base: Query, c: nat, sel: set<string>)
    requires TableOk(rows) && c < |rows|
    requires forall i :: 0 <= i < |rows| ==> (base(rows[i]) <==> rows[i].id in sel)
    ensures Ids(Where(OrderBy(rows), PastCursor(base, rows[c].createdAt, rows[c].id)))
            == Keep(After(Ids(OrderBy(rows)), Some(rows[c].id)), sel)
  {
    var sorted := OrderBy(rows);
    OrderBySorts(rows);
    OrderByUnique(rows);
    SortedSelection(rows, base, sel);
    SortedRows(rows);
    assert rows[c] in sorted;
    var k :| 0 <= k < |sorted| && sorted[k] == rows[c];
    KeysetIsTail(sorted, k, PastCursor(base, rows[c].createdAt, rows[c].id), sel);
  }

  /** The query as the filter builds it, before the cursor. */
  function Filtered(f: Filter): Query {
    var all := IsPending();
    var byTool := if f.tool != "" then WithTool(all, Glob.ToLike(f.tool)) else all;
    if f.agentId != "" then WithAgent(byTool, f.agentId) else byTool
  }

  lemma FilteredRows(rows: seq<Row>, f: Filter)
    requires TableOk(rows)
    ensures forall i :: 0 <= i < |rows| ==> (Filtered(f)(rows[i]) <==> rows[i].id in LikeSelected(Abstract(rows), f))
  {
    forall i | 0 <= i < |rows| ensures Filtered(f)(rows[i]) <==> rows[i].id in LikeSelected(Abstract(rows), f) {
      SelectedRow(rows, f, i);
    }
  }

  /** What a limited query returns is the page. */
  lemma Fetched(rows: seq<Row>, query: Query, limit: int, after: Option<string>, f: Filter, taken: seq<Row>)
    requires TableOk(rows)
    requires after.None? ==> query == Filtered(f)
    requires after.Some? ==> exists t :: HasRow(rows, after.value, t) && query == PastCursor(Filtered(f), t, after.value)
    requires var found := OrderBy(Where(rows, query));
             taken == if limit < 0 || |found| <= limit then found else found[..limit]
    ensures PageIds(Shown(taken)) == Limited(Abstract(rows).order, limit, after, LikeSelected(Abstract(rows), f))
    ensures Bare(Shown(taken), Abstract(rows))
  {
    ShownTickets(rows, query, taken);
    FilteredRows(rows, f);
    PageOfQuery(rows, Filtered(f), query, after, LikeSelected(Abstract(rows), f));
    if limit >= 0 {
      IdsTake(OrderBy(Where(rows, query)), limit);
    }
  }

  lemma IdsTake(rows: seq<Row>, limit: nat)
    ensures Ids(if |rows| <= limit then rows else rows[..limit]) == Take(Ids(rows), limit)
  {
    if |rows| > limit {
      assert Ids(rows[..limit]) == Ids(rows)[..limit];
    }
  }
}
