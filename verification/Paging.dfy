/** The operator's queue, page by page. */
module Paging {
  import opened Domain
  import opened TicketMachine
  import Glob

  datatype Filter = Filter(tool: string, agentId: string)  // "" filters nothing

  predicate Keeps(classes: Glob.Classes, f: Filter, call: ToolCall) {
    && (f.tool == "" || Glob.Matches(classes, f.tool, call.FullName()))
    && (f.agentId == "" || call.agentId == f.agentId)
  }

  /** The tickets an unpaged query would return. */
  function Selected(classes: Glob.Classes, m: Tickets, f: Filter): set<string> {
    set id | id in m.entries && m.entries[id].ticket.decision.status == Pending
             && Keeps(classes, f, m.entries[id].ticket.call)
  }

  /** A ticket is selected exactly if it is pending, its tool's name matches the tool glob, if there is one, and
      its agent is the one asked for, if any. */
  lemma SelectedMeans(classes: Glob.Classes, m: Tickets, f: Filter, id: string)
    ensures id in Selected(classes, m, f) <==>
              && id in m.entries && m.entries[id].ticket.decision.status == Pending
              && var call := m.entries[id].ticket.call;
                 && (f.tool != "" ==> Glob.Matches(classes, f.tool, call.upstreamId + "." + call.toolName))
                 && (f.agentId != "" ==> call.agentId == f.agentId)
  {
  }

  function Keep(s: seq<string>, sel: set<string>): seq<string> {
    if s == [] then [] else (if s[0] in sel then [s[0]] else []) + Keep(s[1..], sel)
  }

  /** What follows the cursor; nothing when the cursor is unknown. */
  function After(order: seq<string>, after: Option<string>): seq<string> {
    if after.None? then order
    else if order == [] then []
    else if order[0] == after.value then order[1..]
    else After(order[1..], after)
  }

  function Take(s: seq<string>, limit: nat): seq<string> {
    if |s| <= limit then s else s[..limit]
  }

  /** One page of the queue, oldest first. */
  function Page(order: seq<string>, limit: nat, after: Option<string>, sel: set<string>): seq<string> {
    Take(Keep(After(order, after), sel), limit)
  }

  /** The cursor of the following page, as the HTTP surface hands it out. */
  function NextCursor(page: seq<string>, limit: nat): Option<string> {
    if page != [] && |page| == limit then Some(page[|page| - 1]) else None
  }

  /** The ids of a page of tickets. */
  function PageIds(page: seq<(string, Ticket)>): (ids: seq<string>)
    ensures |ids| == |page|
    ensures forall i :: 0 <= i < |page| ==> ids[i] == page[i].0
  {
    if page == [] then [] else [page[0].0] + PageIds(page[1..])
  }

  lemma IdsAppend(page: seq<(string, Ticket)>, id: string, t: Ticket)
    ensures PageIds(page + [(id, t)]) == PageIds(page) + [id]
  {
  }

  // ---- order -----------------------------------------------------------------------------------

  lemma {:induction false} KeepMembers(s: seq<string>, sel: set<string>, id: string)
    ensures id in Keep(s, sel) <==> id in s && id in sel
  {
    if s != [] {
      KeepMembers(s[1..], sel, id);
      assert s == [s[0]] + s[1..];
    }
  }

  lemma InOrderCons(x: string, s: seq<string>, a: string, b: string)
    ensures InOrder([x] + s, a, b) <==> (a == x && b in s) || InOrder(s, a, b)
  {
    var t := [x] + s;
    if InOrder(s, a, b) {
      var i, j :| 0 <= i < j < |s| && s[i] == a && s[j] == b;
      assert t[i + 1] == a && t[j + 1] == b;
    }
    if a == x && b in s {
      var j :| 0 <= j < |s| && s[j] == b;
      assert t[0] == a && t[j + 1] == b;
    }
    if InOrder(t, a, b) {
      var i, j :| 0 <= i < j < |t| && t[i] == a && t[j] == b;
      assert s[j - 1] == b;
      if i > 0 {
        assert s[i - 1] == a;
      }
    }
  }

  lemma {:induction false} KeepInOrder(s: seq<string>, sel: set<string>, a: string, b: string)
    requires InOrder(Keep(s, sel), a, b)
    ensures InOrder(s, a, b)
  {
    if s != [] {
      assert s == [s[0]] + s[1..];
      InOrderCons(s[0], s[1..], a, b);
      if s[0] in sel {
        InOrderCons(s[0], Keep(s[1..], sel), a, b);
        KeepMembers(s[1..], sel, b);
      } else {
        assert Keep(s, sel) == Keep(s[1..], sel);
      }
      if InOrder(Keep(s[1..], sel), a, b) {
        KeepInOrder(s[1..], sel, a, b);
      }
    }
  }

  /** The tail behind the cursor holds exactly what comes later in the queue. */
  lemma {:induction false} AfterMembers(order: seq<string>, c: string, id: string)
    requires NoDuplicates(order)
    ensures id in After(order, Some(c)) <==> InOrder(order, c, id)
  {
    if order != [] {
      var rest := order[1..];
      assert order == [order[0]] + rest;
      InOrderCons(order[0], rest, c, id);
      assert forall i :: 0 <= i < |rest| ==> rest[i] == order[i + 1];
      if order[0] != c {
        AfterMembers(rest, c, id);
      }
    }
  }

  lemma {:induction false} AfterInOrder(order: seq<string>, after: Option<string>, a: string, b: string)
    requires InOrder(After(order, after), a, b)
    ensures InOrder(order, a, b)
  {
    if after.Some? && order != [] {
      assert order == [order[0]] + order[1..];
      InOrderCons(order[0], order[1..], a, b);
      if order[0] != after.value {
        AfterInOrder(order[1..], after, a, b);
      }
    }
  }

  lemma InOrderTransitive(s: seq<string>, a: string, b: string, c: string)
    requires NoDuplicates(s) && InOrder(s, a, b) && InOrder(s, b, c)
    ensures InOrder(s, a, c)
  {
    var i, j :| 0 <= i < j < |s| && s[i] == a && s[j] == b;
    var k, l :| 0 <= k < l < |s| && s[k] == b && s[l] == c;
    assert j == k;
  }

  // ---- one page --------------------------------------------------------------------------------

  /** A page lists tickets of the selection behind the cursor, in queue order; whatever of the
      selection it leaves out comes after a full page. */
  lemma PageProperties(m: Tickets, limit: nat, after: Option<string>, sel: set<string>)
    requires m.Valid() && limit >= 1
    ensures var page := Page(m.order, limit, after, sel);
      && |page| <= limit
      && (forall id :: id in page ==> id in sel && id in m.entries && (after.Some? ==> Before(m, after.value, id)))
      && (forall i, j :: 0 <= i < j < |page| ==> Before(m, page[i], page[j]))
      && (forall id :: id in sel && id in m.entries && id !in page && (after.Some? ==> Before(m, after.value, id)) ==>
            |page| == limit && Before(m, page[limit - 1], id))
  {
    var tail := After(m.order, after);
    var kept := Keep(tail, sel);
    var page := Take(kept, limit);
    forall id | id in page
      ensures id in sel && id in m.entries && (after.Some? ==> Before(m, after.value, id))
    {
      assert id in kept;
      KeepMembers(tail, sel, id);
      if after.Some? {
        AfterMembers(m.order, after.value, id);
        var i, j :| 0 <= i < j < |m.order| && m.order[i] == after.value && m.order[j] == id;
        assert id in m.order;
      }
    }
    forall i, j | 0 <= i < j < |page| ensures Before(m, page[i], page[j]) {
      KeptBefore(m, after, sel, i, j);
    }
    forall id | id in sel && id in m.entries && id !in page && (after.Some? ==> Before(m, after.value, id))
      ensures |page| == limit && Before(m, page[limit - 1], id)
    {
      if after.Some? {
        AfterMembers(m.order, after.value, id);
      }
      KeepMembers(tail, sel, id);
      assert forall j :: 0 <= j < |page| ==> page[j] == kept[j];
      var k :| 0 <= k < |kept| && kept[k] == id;
      KeptBefore(m, after, sel, limit - 1, k);
    }
  }

  lemma KeptBefore(m: Tickets, after: Option<string>, sel: set<string>, i: nat, j: nat)
    requires i < j < |Keep(After(m.order, after), sel)|
    ensures var kept := Keep(After(m.order, after), sel); Before(m, kept[i], kept[j])
  {
    var kept := Keep(After(m.order, after), sel);
    assert InOrder(kept, kept[i], kept[j]);
    KeepInOrder(After(m.order, after), sel, kept[i], kept[j]);
    AfterInOrder(m.order, after, kept[i], kept[j]);
  }

  // ---- a whole walk, with the queue changing under it ------------------------------------------

  function Flatten(pages: seq<seq<string>>): seq<string> {
    if pages == [] then [] else pages[0] + Flatten(pages[1..])
  }

  /** The queue as one request finds it: the store, and what the request's filter selects from it. */
  datatype Queue = Queue(store: Tickets, selected: set<string>)

  /** `qs[k]` is the queue when page k was asked for, whatever each store's filter means by its pattern;
      each page starts at the cursor of the one before, until one has no next cursor. */
  ghost predicate Walk(limit: nat, qs: seq<Queue>, after: Option<string>, pages: seq<seq<string>>) {
    && |pages| == |qs| >= 1
    && qs[0].store.Valid()
    && pages[0] == Page(qs[0].store.order, limit, after, qs[0].selected)
    && if |qs| == 1 then NextCursor(pages[0], limit).None?
       else NextCursor(pages[0], limit).Some? && Evolves(qs[0].store, qs[1].store)
            && Walk(limit, qs[1..], NextCursor(pages[0], limit), pages[1..])
  }

  lemma WalkTail(limit: nat, qs: seq<Queue>, after: Option<string>, pages: seq<seq<string>>) returns (rest: seq<Queue>)
    requires Walk(limit, qs, after, pages) && |qs| > 1
    ensures rest == qs[1..] && |rest| >= 1 && rest[|rest| - 1] == qs[|qs| - 1]
    ensures Evolves(qs[0].store, rest[0].store) && pages[0] != []
    ensures Walk(limit, rest, Some(pages[0][|pages[0]| - 1]), pages[1..])
  {
    rest := qs[1..];
  }

  lemma {:induction false} WalkEvolves(limit: nat, qs: seq<Queue>, after: Option<string>, pages: seq<seq<string>>)
    requires Walk(limit, qs, after, pages)
    ensures qs[|qs| - 1].store.Valid() && Evolves(qs[0].store, qs[|qs| - 1].store)
  {
    if |qs| == 1 {
      EvolvesReflexive(qs[0].store);
    } else {
      var rest := WalkTail(limit, qs, after, pages);
      WalkEvolves(limit, rest, Some(pages[0][|pages[0]| - 1]), pages[1..]);
      EvolvesTransitive(qs[0].store, rest[0].store, rest[|rest| - 1].store);
    }
  }

  ghost predicate StaysSelected(qs: seq<Queue>, id: string) {
    forall k :: 0 <= k < |qs| ==> id in qs[k].selected && id in qs[k].store.entries
  }

  lemma StillSelected(qs: seq<Queue>, id: string)
    requires StaysSelected(qs, id) && |qs| >= 1
    ensures StaysSelected(qs[1..], id)
  {
    forall k | 0 <= k < |qs[1..]| ensures id in qs[1..][k].selected && id in qs[1..][k].store.entries {
      assert qs[1..][k] == qs[k + 1];
    }
  }

  /** What a page leaves out stands behind the cursor it hands out. */
  lemma LeftForTheNextPage(m: Tickets, limit: nat, after: Option<string>, sel: set<string>, id: string)
    requires m.Valid() && limit >= 1 && id in sel && id in m.entries
    requires after.Some? ==> Before(m, after.value, id)
    requires id !in Page(m.order, limit, after, sel)
    ensures var next := NextCursor(Page(m.order, limit, after, sel), limit); next.Some? && Before(m, next.value, id)
  {
    PageProperties(m, limit, after, sel);
  }

  /** Every ticket that was in the queue when the walk began and stays pending throughout is listed,
      whatever is filed and decided between the pages, the cursor's ticket included. */
  lemma {:induction false} WalkMissesNothing(limit: nat, qs: seq<Queue>, after: Option<string>, pages: seq<seq<string>>,
                                             id: string)
    requires limit >= 1 && Walk(limit, qs, after, pages) && StaysSelected(qs, id)
    requires after.Some? ==> Before(qs[0].store, after.value, id)
    ensures id in Flatten(pages)
  {
    StillSelected(qs, id);
    if id !in pages[0] {
      LeftForTheNextPage(qs[0].store, limit, after, qs[0].selected, id);
      var rest := qs[1..];
      assert rest[0] == qs[1];
      WalkMissesNothing(limit, rest, NextCursor(pages[0], limit), pages[1..], id);
    }
  }

  /** Ids in queue order, all behind the cursor. */
  ghost predicate Sorted(m: Tickets, after: Option<string>, ids: seq<string>) {
    && (forall i :: 0 <= i < |ids| && after.Some? ==> Before(m, after.value, ids[i]))
    && (forall i, j :: 0 <= i < j < |ids| ==> Before(m, ids[i], ids[j]))
  }

  lemma SortedEvolves(m: Tickets, n: Tickets, after: Option<string>, ids: seq<string>)
    requires Sorted(m, after, ids) && Evolves(m, n)
    ensures Sorted(n, after, ids)
  {
  }

  lemma PageIsSorted(m: Tickets, limit: nat, after: Option<string>, sel: set<string>)
    requires m.Valid() && limit >= 1
    ensures Sorted(m, after, Page(m.order, limit, after, sel))
  {
    PageProperties(m, limit, after, sel);
    var page := Page(m.order, limit, after, sel);
    forall i | 0 <= i < |page| && after.Some? ensures Before(m, after.value, page[i]) {
      assert page[i] in page;
    }
  }

  lemma SortedAppend(m: Tickets, after: Option<string>, page: seq<string>, rest: seq<string>)
    requires NoDuplicates(m.order) && page != []
    requires Sorted(m, after, page) && Sorted(m, Some(page[|page| - 1]), rest)
    ensures Sorted(m, after, page + rest)
  {
    var cursor, ids := page[|page| - 1], page + rest;
    forall i, j | 0 <= i < |page| && 0 <= j < |rest| ensures Before(m, page[i], rest[j]) {
      if i < |page| - 1 {
        assert Before(m, page[i], page[|page| - 1]);
        InOrderTransitive(m.order, page[i], cursor, rest[j]);
      }
    }
    forall j | 0 <= j < |rest| && after.Some? ensures Before(m, after.value, rest[j]) {
      assert Before(m, after.value, page[|page| - 1]);
      InOrderTransitive(m.order, after.value, cursor, rest[j]);
    }
  }

  lemma FirstPageIsInOrder(limit: nat, qs: seq<Queue>, after: Option<string>, pages: seq<seq<string>>)
    requires limit >= 1 && Walk(limit, qs, after, pages)
    ensures qs[|qs| - 1].store.Valid() && Sorted(qs[|qs| - 1].store, after, pages[0])
  {
    PageIsSorted(qs[0].store, limit, after, qs[0].selected);
    WalkEvolves(limit, qs, after, pages);
    SortedEvolves(qs[0].store, qs[|qs| - 1].store, after, pages[0]);
  }

  /** The pages follow one another in queue order. */
  lemma {:induction false} WalkIsInOrder(limit: nat, qs: seq<Queue>, after: Option<string>, pages: seq<seq<string>>)
    requires limit >= 1 && Walk(limit, qs, after, pages)
    ensures qs[|qs| - 1].store.Valid() && Sorted(qs[|qs| - 1].store, after, Flatten(pages))
  {
    FirstPageIsInOrder(limit, qs, after, pages);
    if |qs| == 1 {
      assert pages[1..] == [];
      assert Flatten(pages) == pages[0];
    } else {
      var rest := WalkTail(limit, qs, after, pages);
      WalkIsInOrder(limit, rest, Some(pages[0][|pages[0]| - 1]), pages[1..]);
      SortedAppend(rest[|rest| - 1].store, after, pages[0], Flatten(pages[1..]));
    }
  }

  lemma SortedHasNoDuplicates(m: Tickets, ids: seq<string>)
    requires m.Valid() && Sorted(m, None, ids)
    ensures NoDuplicates(ids)
  {
    forall i, j | 0 <= i < j < |ids| ensures ids[i] != ids[j] {
      assert Before(m, ids[i], ids[j]);
    }
  }

  /** So no ticket is listed twice. */
  lemma WalkNeverRepeats(limit: nat, qs: seq<Queue>, pages: seq<seq<string>>)
    requires limit >= 1 && Walk(limit, qs, None, pages)
    ensures NoDuplicates(Flatten(pages))
  {
    WalkIsInOrder(limit, qs, None, pages);
    SortedHasNoDuplicates(qs[|qs| - 1].store, Flatten(pages));
  }

  // ---- a quiet queue ---------------------------------------------------------------------------

  lemma {:induction false} AfterSplit(order: seq<string>, i: nat)
    requires i < |order| && NoDuplicates(order)
    ensures After(order, Some(order[i])) == order[i + 1..]
  {
    if i > 0 {
      assert forall k :: 0 <= k < |order[1..]| ==> order[1..][k] == order[k + 1];
      AfterSplit(order[1..], i - 1);
    }
  }

  lemma {:induction false} KeepConcat(a: seq<string>, b: seq<string>, sel: set<string>)
    ensures Keep(a + b, sel) == Keep(a, sel) + Keep(b, sel)
  {
    if a == [] {
      assert a + b == b;
    } else {
      assert (a + b)[1..] == a[1..] + b;
      KeepConcat(a[1..], b, sel);
    }
  }

  /** Where the k-th kept element stands. */
  lemma {:induction false} KeptAt(s: seq<string>, sel: set<string>, k: nat) returns (i: nat)
    requires k < |Keep(s, sel)|
    ensures i < |s| && s[i] == Keep(s, sel)[k] && Keep(s[i + 1..], sel) == Keep(s, sel)[k + 1..]
  {
    if s[0] in sel && k == 0 {
      i := 0;
    } else {
      var skipped := if s[0] in sel then 1 else 0;
      var j := KeptAt(s[1..], sel, k - skipped);
      i := j + 1;
      assert s[i + 1..] == s[1..][j + 1..];
      assert Keep(s, sel)[k + 1..] == Keep(s[1..], sel)[k + 1 - skipped..];
    }
  }

  lemma {:induction false} AfterIsSuffix(order: seq<string>, after: Option<string>) returns (n: nat)
    ensures n <= |order| && After(order, after) == order[n..]
  {
    if after.None? || order == [] {
      n := 0;
    } else if order[0] == after.value {
      n := 1;
    } else {
      n := AfterIsSuffix(order[1..], after);
      assert order[1..][n..] == order[n + 1..];
      n := n + 1;
    }
  }

  lemma {:induction false} SuffixAt(order: seq<string>, n: nat, tail: seq<string>, i: nat)
    requires n <= |order| && tail == order[n..] && i < |tail|
    ensures order[n + i] == tail[i] && order[n + i + 1..] == tail[i + 1..]
  {
  }

  lemma {:induction false} BehindInTail(order: seq<string>, after: Option<string>, i: nat)
    requires NoDuplicates(order) && i < |After(order, after)|
    ensures After(order, Some(After(order, after)[i])) == After(order, after)[i + 1..]
  {
    var n := AfterIsSuffix(order, after);
    SuffixAt(order, n, After(order, after), i);
    AfterSplit(order, n + i);
  }

  /** Behind a full page's cursor comes exactly what the page left out. */
  lemma {:induction false} FullPageLeaves(m: Tickets, limit: nat, after: Option<string>, sel: set<string>)
    requires m.Valid() && 1 <= limit <= |Keep(After(m.order, after), sel)|
    ensures var kept := Keep(After(m.order, after), sel);
            Keep(After(m.order, Some(kept[limit - 1])), sel) == kept[limit..]
  {
    var i := KeptAt(After(m.order, after), sel, limit - 1);
    BehindInTail(m.order, after, i);
  }

  /** The pages a reader gets by following `next` on a queue nobody touches. */
  function QuietWalk(m: Tickets, limit: nat, after: Option<string>, sel: set<string>): (pages: seq<seq<string>>)
    requires m.Valid() && limit >= 1
    decreases |Keep(After(m.order, after), sel)|
  {
    var page := Page(m.order, limit, after, sel);
    var next := NextCursor(page, limit);
    if next.None? then [page]
    else
      FullPageLeaves(m, limit, after, sel);
      [page] + QuietWalk(m, limit, next, sel)
  }

  /** Following `next` ends, and the pages are the whole filtered queue. */
  lemma {:induction false} QuietWalkListsAll(m: Tickets, limit: nat, after: Option<string>, sel: set<string>)
    requires m.Valid() && limit >= 1
    ensures Flatten(QuietWalk(m, limit, after, sel)) == Keep(After(m.order, after), sel)
    decreases |Keep(After(m.order, after), sel)|
  {
    var kept, page := Keep(After(m.order, after), sel), Page(m.order, limit, after, sel);
    var next := NextCursor(page, limit);
    if next.None? {
      assert page == kept && [page][1..] == [];
    } else {
      FullPageLeaves(m, limit, after, sel);
      QuietWalkListsAll(m, limit, next, sel);
      assert ([page] + QuietWalk(m, limit, next, sel))[1..] == QuietWalk(m, limit, next, sel);
      assert kept == kept[..limit] + kept[limit..];
    }
  }

  /** And it is a walk in the sense above, with the queue standing still. */
  lemma {:induction false} QuietWalkIsAWalk(q: Queue, limit: nat, after: Option<string>)
    requires q.store.Valid() && limit >= 1
    ensures var pages := QuietWalk(q.store, limit, after, q.selected);
            Walk(limit, Still(q, |pages|), after, pages)
    decreases |Keep(After(q.store.order, after), q.selected)|
  {
    var next := NextCursor(Page(q.store.order, limit, after, q.selected), limit);
    EvolvesReflexive(q.store);
    if next.Some? {
      FullPageLeaves(q.store, limit, after, q.selected);
      QuietWalkIsAWalk(q, limit, next);
      var page, rest := Page(q.store.order, limit, after, q.selected), QuietWalk(q.store, limit, next, q.selected);
      assert ([page] + rest)[1..] == rest;
      assert Still(q, |rest| + 1)[1..] == Still(q, |rest|);
    }
  }

  function Still(q: Queue, n: nat): (qs: seq<Queue>)
    ensures |qs| == n && forall i :: 0 <= i < n ==> qs[i] == q
  {
    seq(n, i => q)
  }
}
