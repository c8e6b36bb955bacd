/** The ticket table and the few SQL statements the store runs on it. */
module Table {
  import opened Domain
  import opened TicketMachine
  import opened Paging

  datatype Row = Row(id: string, agentId: string, tool: string, status: Status, call: ToolCall, decision: Decision,
                     claimed: bool, claimedAt: Option<real>, result: Option<ToolResult>, createdAt: real)

  /** SELECT ... WHERE. */
  function Where(rows: seq<Row>, q: Row -> bool): seq<Row> {
    if rows == [] then [] else (if q(rows[0]) then [rows[0]] else []) + Where(rows[1..], q)
  }

  predicate LexLess(a: string, b: string) {
    if a == "" || b == "" then a == "" && b != ""
    else if a[0] == b[0] then LexLess(a[1..], b[1..])
    else a[0] < b[0]
  }

  /** The queue order: creation time, then id. */
  predicate Precedes(t: real, id: string, u: real, jd: string) {
    t < u || (t == u && LexLess(id, jd))
  }

  function Insert(r: Row, sorted: seq<Row>): seq<Row> {
    if sorted == [] || Precedes(r.createdAt, r.id, sorted[0].createdAt, sorted[0].id)
    then [r] + sorted
    else [sorted[0]] + Insert(r, sorted[1..])
  }

  /** ORDER BY created_at, id. */
  function OrderBy(rows: seq<Row>): seq<Row> {
    if rows == [] then [] else Insert(rows[0], OrderBy(rows[1..]))
  }

  /** UPDATE ... SET ... WHERE. */
  function Update(rows: seq<Row>, q: Row -> bool, f: Row -> Row): seq<Row> {
    if rows == [] then [] else [if q(rows[0]) then f(rows[0]) else rows[0]] + Update(rows[1..], q, f)
  }

  /** The number of rows an UPDATE touched. */
  function RowCount(rows: seq<Row>, q: Row -> bool): nat {
    if rows == [] then 0 else (if q(rows[0]) then 1 else 0) + RowCount(rows[1..], q)
  }

  // ---- the abstract state of a table -----------------------------------------------------------

  function Ids(rows: seq<Row>): (ids: seq<string>)
    ensures |ids| == |rows|
    ensures forall i :: 0 <= i < |rows| ==> ids[i] == rows[i].id
  {
    if rows == [] then [] else [rows[0].id] + Ids(rows[1..])
  }

  ghost predicate Unique(rows: seq<Row>) {
    NoDuplicates(Ids(rows))
  }

  /** The `status` column repeats the decision, `claimed` repeats `claimed_at`, and the filter columns
      repeat the call. */
  ghost predicate RowOk(r: Row) {
    && r.status == r.decision.status
    && (r.claimed <==> r.claimedAt.Some?)
    && r.tool == r.call.FullName() && r.agentId == r.call.agentId
  }

  ghost predicate TableOk(rows: seq<Row>) {
    Unique(rows) && forall i :: 0 <= i < |rows| ==> RowOk(rows[i])
  }

  function EntryOf(r: Row): Entry {
    Entry(Ticket(r.call, r.decision, r.result), r.claimedAt)
  }

  function Entries(rows: seq<Row>): map<string, Entry> {
    if rows == [] then map[] else Entries(rows[1..])[rows[0].id := EntryOf(rows[0])]
  }

  function Abstract(rows: seq<Row>): Tickets {
    Tickets(Ids(OrderBy(rows)), Entries(rows))
  }

  // ---- the order is total ----------------------------------------------------------------------

  lemma {:induction false} LexTotal(a: string, b: string)
    ensures a != b ==> LexLess(a, b) || LexLess(b, a)
    ensures !(LexLess(a, b) && LexLess(b, a))
  {
    if a != "" && b != "" && a[0] == b[0] {
      LexTotal(a[1..], b[1..]);
      assert a == [a[0]] + a[1..] && b == [b[0]] + b[1..];
    }
  }

  lemma {:induction false} LexTransitive(a: string, b: string, c: string)
    requires LexLess(a, b) && LexLess(b, c)
    ensures LexLess(a, c)
  {
    if a != "" && a[0] == b[0] && b[0] == c[0] {
      LexTransitive(a[1..], b[1..], c[1..]);
    }
  }

  predicate Under(r: Row, s: Row) {
    Precedes(r.createdAt, r.id, s.createdAt, s.id)
  }

  lemma UnderTransitive(r: Row, s: Row, t: Row)
    requires Under(r, s) && Under(s, t)
    ensures Under(r, t)
  {
    if r.createdAt == s.createdAt && s.createdAt == t.createdAt {
      LexTransitive(r.id, s.id, t.id);
    }
  }

  ghost predicate InKeyOrder(rows: seq<Row>) {
    forall i, j :: 0 <= i < j < |rows| ==> Under(rows[i], rows[j])
  }

  lemma {:induction false} InsertMembers(r: Row, sorted: seq<Row>)
    ensures multiset(Insert(r, sorted)) == multiset{r} + multiset(sorted)
  {
    if sorted == [] || Under(r, sorted[0]) {
    } else {
      assert sorted == [sorted[0]] + sorted[1..];
      InsertMembers(r, sorted[1..]);
    }
  }

  lemma {:induction false} OrderByMembers(rows: seq<Row>)
    ensures multiset(OrderBy(rows)) == multiset(rows)
  {
    if rows != [] {
      assert rows == [rows[0]] + rows[1..];
      OrderByMembers(rows[1..]);
      InsertMembers(rows[0], OrderBy(rows[1..]));
    }
  }

  lemma {:induction false} InsertSorts(r: Row, sorted: seq<Row>)
    requires InKeyOrder(sorted) && forall i :: 0 <= i < |sorted| ==> sorted[i].id != r.id
    ensures InKeyOrder(Insert(r, sorted))
  {
    if sorted == [] {
    } else if Under(r, sorted[0]) {
      forall i | 0 <= i < |sorted| ensures Under(r, sorted[i]) {
        if i > 0 {
          UnderTransitive(r, sorted[0], sorted[i]);
        }
      }
    } else {
      InsertSorts(r, sorted[1..]);
      var rest := Insert(r, sorted[1..]);
      LexTotal(r.id, sorted[0].id);
      InsertMembers(r, sorted[1..]);
      forall i | 0 <= i < |rest| ensures Under(sorted[0], rest[i]) {
        assert rest[i] in multiset(rest);
        assert rest[i] == r || rest[i] in sorted[1..];
      }
    }
  }

  lemma {:induction false} UniqueTail(rows: seq<Row>)
    requires Unique(rows) && rows != []
    ensures Unique(rows[1..]) && forall i :: 0 <= i < |rows[1..]| ==> rows[1..][i].id != rows[0].id
  {
    assert forall i :: 0 <= i < |rows[1..]| ==> Ids(rows[1..])[i] == Ids(rows)[i + 1];
  }

  lemma {:induction false} OrderBySorts(rows: seq<Row>)
    requires Unique(rows)
    ensures InKeyOrder(OrderBy(rows))
  {
    if rows != [] {
      UniqueTail(rows);
      OrderBySorts(rows[1..]);
      OrderByMembers(rows[1..]);
      var sorted := OrderBy(rows[1..]);
      forall i | 0 <= i < |sorted| ensures sorted[i].id != rows[0].id {
        assert sorted[i] in multiset(sorted);
        assert sorted[i] in rows[1..];
      }
      InsertSorts(rows[0], sorted);
    }
  }

  lemma {:induction false} InsertIds(r: Row, sorted: seq<Row>, id: string)
    ensures id in Ids(Insert(r, sorted)) <==> id == r.id || id in Ids(sorted)
  {
    if sorted == [] || Under(r, sorted[0]) {
      assert Ids([r] + sorted) == [r.id] + Ids(sorted);
    } else {
      InsertIds(r, sorted[1..], id);
      assert Ids([sorted[0]] + Insert(r, sorted[1..])) == [sorted[0].id] + Ids(Insert(r, sorted[1..]));
      assert Ids(sorted) == [sorted[0].id] + Ids(sorted[1..]);
    }
  }

  lemma ConsUnique(id: string, ids: seq<string>)
    requires NoDuplicates(ids) && id !in ids
    ensures NoDuplicates([id] + ids)
  {
  }

  lemma {:induction false} InsertUnique(r: Row, sorted: seq<Row>)
    requires Unique(sorted) && r.id !in Ids(sorted)
    ensures Unique(Insert(r, sorted))
  {
    if sorted == [] || Under(r, sorted[0]) {
      assert Ids([r] + sorted) == [r.id] + Ids(sorted);
      ConsUnique(r.id, Ids(sorted));
    } else {
      var rest := Insert(r, sorted[1..]);
      assert Ids(sorted) == [sorted[0].id] + Ids(sorted[1..]);
      UniqueTail(sorted);
      InsertUnique(r, sorted[1..]);
      InsertIds(r, sorted[1..], sorted[0].id);
      ConsUnique(sorted[0].id, Ids(rest));
      assert Ids([sorted[0]] + rest) == [sorted[0].id] + Ids(rest);
    }
  }

  lemma {:induction false} OrderByIds(rows: seq<Row>, id: string)
    ensures id in Ids(OrderBy(rows)) <==> id in Ids(rows)
  {
    if rows != [] {
      OrderByIds(rows[1..], id);
      InsertIds(rows[0], OrderBy(rows[1..]), id);
    }
  }

  lemma {:induction false} OrderByUnique(rows: seq<Row>)
    requires Unique(rows)
    ensures Unique(OrderBy(rows))
  {
    if rows != [] {
      UniqueTail(rows);
      OrderByUnique(rows[1..]);
      OrderByIds(rows[1..], rows[0].id);
      InsertUnique(rows[0], OrderBy(rows[1..]));
    }
  }

  // ---- looking up ------------------------------------------------------------------------------

  lemma {:induction false} EntriesKeys(rows: seq<Row>, id: string)
    ensures id in Entries(rows) <==> id in Ids(rows)
  {
    if rows != [] {
      EntriesKeys(rows[1..], id);
    }
  }

  lemma {:induction false} EntriesAt(rows: seq<Row>, i: nat)
    requires Unique(rows) && i < |rows|
    ensures rows[i].id in Entries(rows) && Entries(rows)[rows[i].id] == EntryOf(rows[i])
  {
    if i > 0 {
      UniqueTail(rows);
      EntriesAt(rows[1..], i - 1);
      assert rows[1..][i - 1] == rows[i];
    }
  }

  lemma AbstractIsValid(rows: seq<Row>)
    requires Unique(rows)
    ensures Abstract(rows).Valid()
  {
    OrderByUnique(rows);
    forall id ensures id in Ids(OrderBy(rows)) <==> id in Entries(rows) {
      EntriesKeys(rows, id);
      OrderByIds(rows, id);
    }
  }

  // ---- UPDATE ----------------------------------------------------------------------------------

  /** A statement that updates one ticket, keeping its key. */
  ghost predicate OneTicket(q: Row -> bool, f: Row -> Row, id: string) {
    && (forall r :: q(r) ==> r.id == id)
    && (forall r :: f(r).id == r.id && f(r).createdAt == r.createdAt)
  }

  lemma {:induction false} UpdateAt(rows: seq<Row>, q: Row -> bool, f: Row -> Row)
    ensures |Update(rows, q, f)| == |rows|
    ensures forall i :: 0 <= i < |rows| ==> Update(rows, q, f)[i] == if q(rows[i]) then f(rows[i]) else rows[i]
  {
    if rows != [] {
      UpdateAt(rows[1..], q, f);
    }
  }

  lemma {:induction false} UpdateInsert(r: Row, sorted: seq<Row>, q: Row -> bool, f: Row -> Row, id: string)
    requires OneTicket(q, f, id)
    ensures Update(Insert(r, sorted), q, f) == Insert(if q(r) then f(r) else r, Update(sorted, q, f))
  {
    if sorted == [] || Under(r, sorted[0]) {
      assert ([r] + sorted)[1..] == sorted;
    } else {
      UpdateInsert(r, sorted[1..], q, f, id);
      assert ([sorted[0]] + Insert(r, sorted[1..]))[1..] == Insert(r, sorted[1..]);
    }
  }

  lemma {:induction false} UpdateOrderBy(rows: seq<Row>, q: Row -> bool, f: Row -> Row, id: string)
    requires OneTicket(q, f, id)
    ensures OrderBy(Update(rows, q, f)) == Update(OrderBy(rows), q, f)
  {
    if rows != [] {
      UpdateOrderBy(rows[1..], q, f, id);
      UpdateInsert(rows[0], OrderBy(rows[1..]), q, f, id);
    }
  }

  lemma SameIds(rows: seq<Row>, q: Row -> bool, f: Row -> Row, id: string)
    requires OneTicket(q, f, id)
    ensures Ids(Update(rows, q, f)) == Ids(rows)
  {
    UpdateAt(rows, q, f);
  }

  lemma {:induction false} NoRowMatches(rows: seq<Row>, q: Row -> bool, f: Row -> Row)
    requires forall i :: 0 <= i < |rows| ==> !q(rows[i])
    ensures Update(rows, q, f) == rows && RowCount(rows, q) == 0
  {
    if rows != [] {
      NoRowMatches(rows[1..], q, f);
    }
  }

  lemma {:induction false} OneRowMatches(rows: seq<Row>, q: Row -> bool, f: Row -> Row, i: nat, id: string)
    requires Unique(rows) && i < |rows| && q(rows[i]) && OneTicket(q, f, id)
    ensures Update(rows, q, f) == rows[i := f(rows[i])] && RowCount(rows, q) == 1
  {
    if i == 0 {
      UniqueTail(rows);
      NoRowMatches(rows[1..], q, f);
    } else {
      UniqueTail(rows);
      OneRowMatches(rows[1..], q, f, i - 1, id);
      assert rows[1..][i - 1] == rows[i];
      assert !q(rows[0]);
    }
  }

  /** A conditional UPDATE of one ticket, seen from the abstract machine: it touches one row exactly
      when the ticket exists and meets the condition, and then replaces that ticket's entry. */
  lemma UpdateOneTicket(rows: seq<Row>, q: Row -> bool, f: Row -> Row, id: string)
    requires Unique(rows) && OneTicket(q, f, id)
    ensures var n := Update(rows, q, f);
      && Unique(n) && Abstract(n).order == Abstract(rows).order
      && if exists i :: 0 <= i < |rows| && q(rows[i]) then
           RowCount(rows, q) == 1
           && exists i :: 0 <= i < |rows| && q(rows[i]) && n == rows[i := f(rows[i])]
                && Abstract(n) == Put(Abstract(rows), id, EntryOf(f(rows[i])))
         else RowCount(rows, q) == 0 && n == rows
  {
    var n := Update(rows, q, f);
    SameIds(rows, q, f, id);
    UpdateOrderBy(rows, q, f, id);
    SameIds(OrderBy(rows), q, f, id);
    if exists i :: 0 <= i < |rows| && q(rows[i]) {
      var i :| 0 <= i < |rows| && q(rows[i]);
      OneRowMatches(rows, q, f, i, id);
      EntriesPut(rows, i, f(rows[i]));
      assert q(rows[i]) && n == rows[i := f(rows[i])];
    } else {
      NoRowMatches(rows, q, f);
    }
  }

  lemma {:induction false} EntriesPut(rows: seq<Row>, i: nat, r: Row)
    requires Unique(rows) && i < |rows| && r.id == rows[i].id
    ensures Entries(rows[i := r]) == Entries(rows)[r.id := EntryOf(r)]
  {
    if i > 0 {
      UniqueTail(rows);
      EntriesPut(rows[1..], i - 1, r);
      assert rows[i := r][1..] == rows[1..][i - 1 := r];
    }
  }

  // ---- INSERT ----------------------------------------------------------------------------------

  lemma {:induction false} InsertKeepsOrder(r: Row, sorted: seq<Row>, a: string, b: string)
    requires InOrder(Ids(sorted), a, b)
    ensures InOrder(Ids(Insert(r, sorted)), a, b)
  {
    if Under(r, sorted[0]) {
      InOrderCons(r.id, Ids(sorted), a, b);
      assert Ids([r] + sorted) == [r.id] + Ids(sorted);
    } else {
      var head, tail := sorted[0].id, sorted[1..];
      assert Ids(sorted) == [head] + Ids(tail);
      assert Ids([sorted[0]] + Insert(r, tail)) == [head] + Ids(Insert(r, tail));
      InOrderCons(head, Ids(tail), a, b);
      InOrderCons(head, Ids(Insert(r, tail)), a, b);
      InsertIds(r, tail, b);
      if InOrder(Ids(tail), a, b) {
        InsertKeepsOrder(r, tail, a, b);
      }
    }
  }

  lemma {:induction false} InsertLast(r: Row, sorted: seq<Row>)
    requires forall i :: 0 <= i < |sorted| ==> sorted[i].createdAt < r.createdAt
    ensures Insert(r, sorted) == sorted + [r]
  {
    if sorted != [] {
      InsertLast(r, sorted[1..]);
    }
  }

  lemma NewestGoesLast(rows: seq<Row>, r: Row)
    requires forall i :: 0 <= i < |rows| ==> rows[i].createdAt < r.createdAt
    ensures Ids(Insert(r, OrderBy(rows))) == Ids(OrderBy(rows)) + [r.id]
  {
    var sorted := OrderBy(rows);
    OrderByMembers(rows);
    forall i | 0 <= i < |sorted| ensures sorted[i].createdAt < r.createdAt {
      assert sorted[i] in multiset(sorted);
      assert sorted[i] in rows;
    }
    InsertLast(r, sorted);
    assert Ids(sorted + [r]) == Ids(sorted) + [r.id];
  }

  /** INSERT of a row with a new key: the queue keeps its order, and the row goes last when it is newer
      than every other. */
  lemma InsertRow(rows: seq<Row>, r: Row)
    requires Unique(rows) && r.id !in Ids(rows)
    ensures Unique([r] + rows) && Evolves(Abstract(rows), Abstract([r] + rows))
    ensures Abstract([r] + rows).entries == Abstract(rows).entries[r.id := EntryOf(r)]
    ensures (forall i :: 0 <= i < |rows| ==> rows[i].createdAt < r.createdAt) ==>
              Abstract([r] + rows).order == Abstract(rows).order + [r.id]
  {
    var n := [r] + rows;
    assert n[1..] == rows && Ids(n) == [r.id] + Ids(rows);
    ConsUnique(r.id, Ids(rows));
    EntriesKeys(rows, r.id);
    EvolvesByInsertion(rows, r);
    if forall i :: 0 <= i < |rows| ==> rows[i].createdAt < r.createdAt {
      NewestGoesLast(rows, r);
    }
  }

  lemma EvolvesByInsertion(rows: seq<Row>, r: Row)
    requires r.id !in Entries(rows)
    ensures Evolves(Tickets(Ids(OrderBy(rows)), Entries(rows)),
                    Tickets(Ids(Insert(r, OrderBy(rows))), Entries(rows)[r.id := EntryOf(r)]))
  {
    var sorted := OrderBy(rows);
    forall a, b | InOrder(Ids(sorted), a, b) ensures InOrder(Ids(Insert(r, sorted)), a, b) {
      InsertKeepsOrder(r, sorted, a, b);
    }
  }

  // ---- SELECT ----------------------------------------------------------------------------------

  lemma {:induction false} WhereInsert(r: Row, sorted: seq<Row>, q: Row -> bool)
    requires InKeyOrder(sorted)
    ensures Where(Insert(r, sorted), q) == if q(r) then Insert(r, Where(sorted, q)) else Where(sorted, q)
  {
    if sorted == [] {
    } else if Under(r, sorted[0]) {
      assert ([r] + sorted)[1..] == sorted;
      FirstKept(r, sorted, q);
    } else {
      WhereInsert(r, sorted[1..], q);
      assert ([sorted[0]] + Insert(r, sorted[1..]))[1..] == Insert(r, sorted[1..]);
      assert ([sorted[0]] + Where(sorted[1..], q))[1..] == Where(sorted[1..], q);
      if !q(sorted[0]) {
        assert Where(sorted, q) == Where(sorted[1..], q);
      }
    }
  }

  lemma {:induction false} FirstKept(r: Row, sorted: seq<Row>, q: Row -> bool)
    requires InKeyOrder(sorted) && (sorted != [] ==> Under(r, sorted[0]))
    ensures Insert(r, Where(sorted, q)) == [r] + Where(sorted, q)
  {
    if sorted != [] && !q(sorted[0]) {
      if |sorted| > 1 {
        UnderTransitive(r, sorted[0], sorted[1]);
      }
      FirstKept(r, sorted[1..], q);
      assert Where(sorted, q) == Where(sorted[1..], q);
    }
  }

  /** Filtering and sorting commute. */
  lemma {:induction false} WhereOrderBy(rows: seq<Row>, q: Row -> bool)
    requires Unique(rows)
    ensures OrderBy(Where(rows, q)) == Where(OrderBy(rows), q)
  {
    if rows != [] {
      UniqueTail(rows);
      OrderBySorts(rows[1..]);
      WhereOrderBy(rows[1..], q);
      WhereInsert(rows[0], OrderBy(rows[1..]), q);
      if q(rows[0]) {
        assert ([rows[0]] + Where(rows[1..], q))[1..] == Where(rows[1..], q);
      } else {
        assert Where(rows, q) == Where(rows[1..], q);
      }
    }
  }

  lemma {:induction false} WhereIsKeep(sorted: seq<Row>, q: Row -> bool, sel: set<string>)
    requires forall i :: 0 <= i < |sorted| ==> (q(sorted[i]) <==> sorted[i].id in sel)
    ensures Ids(Where(sorted, q)) == Keep(Ids(sorted), sel)
  {
    if sorted != [] {
      WhereIsKeep(sorted[1..], q, sel);
      if q(sorted[0]) {
        assert Ids([sorted[0]] + Where(sorted[1..], q)) == [sorted[0].id] + Ids(Where(sorted[1..], q));
      }
    }
  }

  lemma {:induction false} NothingKept(sorted: seq<Row>, q: Row -> bool, n: nat)
    requires n <= |sorted| && forall i :: 0 <= i < n ==> !q(sorted[i])
    ensures Where(sorted, q) == Where(sorted[n..], q)
  {
    if n > 0 {
      NothingKept(sorted[1..], q, n - 1);
      assert sorted[1..][n - 1..] == sorted[n..];
    } else {
      assert sorted[0..] == sorted;
    }
  }

  /** Keyset pagination: the rows past the cursor's key are the tail of the queue behind the cursor. */
  lemma KeysetIsTail(sorted: seq<Row>, c: nat, q: Row -> bool, sel: set<string>)
    requires InKeyOrder(sorted) && Unique(sorted) && c < |sorted|
    requires forall i :: 0 <= i < |sorted| ==>
               (q(sorted[i]) <==> sorted[i].id in sel && Under(sorted[c], sorted[i]))
    ensures Ids(Where(sorted, q)) == Keep(After(Ids(sorted), Some(sorted[c].id)), sel)
  {
    forall i | 0 <= i <= c ensures !Under(sorted[c], sorted[i]) {
      LexTotal(sorted[c].id, sorted[i].id);
      if i < c {
        assert Under(sorted[i], sorted[c]);
      }
    }
    NothingKept(sorted, q, c + 1);
    WhereIsKeep(sorted[c + 1..], q, sel);
    AfterSplit(Ids(sorted), c);
    assert Ids(sorted[c + 1..]) == Ids(sorted)[c + 1..];
  }
}
