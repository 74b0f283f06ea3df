/**
 Paging by key: four listings ask for the rows after the last id of the page before.  Two go up
 the ids and two go down; the walk over their pages is studied for any strict order.
 */
module Keyset {
  import opened Basics

  type Id = string

  ghost predicate StrictOrder(less: (Id, Id) -> bool) {
    && (forall a :: !less(a, a))
    && (forall a, b :: a == b || less(a, b) || less(b, a))
    && (forall a, b, c :: less(a, b) && less(b, c) ==> less(a, c))
  }

  ghost predicate Ascending(less: (Id, Id) -> bool, s: seq<Id>) {
    forall i, j :: 0 <= i < j < |s| ==> less(s[i], s[j])
  }

  /** The empty cursor starts from the beginning. */
  predicate Follows(less: (Id, Id) -> bool, cursor: Id, id: Id) {
    cursor == "" || less(cursor, id)
  }

  function NormalLimit(limit: int): nat {
    if limit <= 0 || limit > 100 then 50 else limit
  }

  function NextCursor(page: seq<Id>, limit: nat): Id {
    if page != [] && |page| == limit then page[|page| - 1] else ""
  }

  /** The first `limit` ids after the cursor, in order: whatever is left out comes after all of a full page. */
  ghost predicate IsPage(less: (Id, Id) -> bool, table: set<Id>, limit: nat, cursor: Id, page: seq<Id>) {
    && Ascending(less, page) && |page| <= limit
    && (forall id :: id in page ==> id in table && Follows(less, cursor, id))
    && (forall id :: id in table && Follows(less, cursor, id) && id !in page ==>
          |page| == limit && forall x :: x in page ==> less(x, id))
  }

  // ---- the listings -------------------------------------------------------------------

  lemma {:induction false} HasLeast(less: (Id, Id) -> bool, s: set<Id>) returns (least: Id)
    requires StrictOrder(less) && s != {}
    ensures least in s && forall x :: x in s && x != least ==> less(least, x)
    decreases |s|
  {
    var some :| some in s;
    if s == {some} {
      least := some;
    } else {
      assert s - {some} != {};
      var other := HasLeast(less, s - {some});
      least := if less(some, other) then some else other;
      forall x | x in s && x != least ensures less(least, x) {
        assert x == some || x == other || less(other, x);
      }
    }
  }

  /** ORDER BY and LIMIT: the least matching ids, in order. */
  method Fetch(less: (Id, Id) -> bool, ids: set<Id>, limit: nat) returns (rows: seq<Id>)
    requires StrictOrder(less)
    ensures Ascending(less, rows) && |rows| <= limit
    ensures forall id :: id in rows ==> id in ids
    ensures forall id :: id in ids && id !in rows ==> |rows| == limit && forall x :: x in rows ==> less(x, id)
  {
    rows := [];
    var left := ids;
    while left != {} && |rows| < limit
      invariant |rows| <= limit && Ascending(less, rows)
      invariant forall id :: id in ids <==> id in rows || id in left
      invariant forall x, id :: x in rows && id in left ==> less(x, id)
      decreases |left|
    {
      ghost var _ := HasLeast(less, left);
      var id :| id in left && forall x :: x in left && x != id ==> less(id, x);
      rows := rows + [id];
      left := left - {id};
    }
  }

  /** A row's owner is the organisation or the knowledge base it is listed under. */
  datatype Row<T> = Row(owner: Id, view: T)

  /** The ids of a result and its views, which are those of the rows. */
  function Ids<T>(out: seq<(Id, T)>): seq<Id> {
    seq(|out|, i requires 0 <= i < |out| => out[i].0)
  }

  ghost predicate ViewsOf<T>(rows: map<Id, Row<T>>, out: seq<(Id, T)>) {
    forall i :: 0 <= i < |out| ==> out[i].0 in rows && out[i].1 == rows[out[i].0].view
  }

  function Owned<T>(rows: map<Id, Row<T>>, owner: Id): set<Id> {
    set id | id in rows && rows[id].owner == owner
  }

  /** Only the owner's rows, and none of them that follows the cursor is left out of a page that is not full. */
  ghost predicate OwnersPage<T>(less: (Id, Id) -> bool, rows: map<Id, Row<T>>, owner: Id, size: nat, cursor: Id, out: seq<(Id, T)>) {
    && |out| <= size
    && (forall i :: 0 <= i < |out| ==> out[i].0 in rows && rows[out[i].0].owner == owner && (cursor == "" || less(cursor, out[i].0)))
    && (|out| < size ==>
          forall id :: id in rows && rows[id].owner == owner && (cursor == "" || less(cursor, id)) ==> id in Ids(out))
  }

  lemma PageIsOwners<T>(less: (Id, Id) -> bool, rows: map<Id, Row<T>>, owner: Id, size: nat, cursor: Id, out: seq<(Id, T)>)
    requires IsPage(less, Owned(rows, owner), size, cursor, Ids(out))
    ensures OwnersPage(less, rows, owner, size, cursor, out)
  {
    forall i | 0 <= i < |out| ensures out[i].0 in Owned(rows, owner) && Follows(less, cursor, out[i].0) {
      assert out[i].0 == Ids(out)[i] && Ids(out)[i] in Ids(out);
    }
  }

  /** ListDocuments and ListByOrg: ids greater than the cursor, going up. */
  method ListUp<T>(lt: (Id, Id) -> bool, rows: map<Id, Row<T>>, owner: Id, limit: int, cursor: Id)
    returns (out: seq<(Id, T)>, next: Id)
    requires StrictOrder(lt) && forall id :: id in rows ==> lt("", id)
    ensures IsPage(lt, Owned(rows, owner), NormalLimit(limit), cursor, Ids(out)) && ViewsOf(rows, out)
    ensures OwnersPage(lt, rows, owner, if 1 <= limit <= 100 then limit else 50, cursor, out)
    ensures next == NextCursor(Ids(out), NormalLimit(limit))
  {
    var size := if limit <= 0 || limit > 100 then 50 else limit;
    var matching := set id | id in rows && rows[id].owner == owner && lt(cursor, id);
    var ids := Fetch(lt, matching, size);
    out, next := Scan(rows, ids, size);
    PageIsOwners(lt, rows, owner, size, cursor, out);
  }

  /** The sessions and the evaluation runs: ids less than the cursor, going down. */
  method ListDown<T>(lt: (Id, Id) -> bool, rows: map<Id, Row<T>>, owner: Id, limit: int, cursor: Id)
    returns (out: seq<(Id, T)>, next: Id)
    requires StrictOrder(lt)
    ensures IsPage((a, b) => lt(b, a), Owned(rows, owner), NormalLimit(limit), cursor, Ids(out)) && ViewsOf(rows, out)
    ensures OwnersPage((a, b) => lt(b, a), rows, owner, if 1 <= limit <= 100 then limit else 50, cursor, out)
    ensures next == NextCursor(Ids(out), NormalLimit(limit))
  {
    var size := if limit <= 0 || limit > 100 then 50 else limit;
    var gt := (a, b) => lt(b, a);
    assert StrictOrder(gt);
    var matching := set id | id in rows && rows[id].owner == owner && (cursor == "" || lt(id, cursor));
    var ids := Fetch(gt, matching, size);
    out, next := Scan(rows, ids, size);
    PageIsOwners(gt, rows, owner, size, cursor, out);
  }

  /** The loop over the result rows, and the cursor for the next page. */
  method Scan<T>(rows: map<Id, Row<T>>, ids: seq<Id>, limit: nat) returns (out: seq<(Id, T)>, next: Id)
    requires limit >= 1 && forall id :: id in ids ==> id in rows
    ensures Ids(out) == ids && ViewsOf(rows, out) && next == NextCursor(ids, limit)
  {
    out := [];
    for i := 0 to |ids|
      invariant Ids(out) == ids[..i] && ViewsOf(rows, out)
    {
      out := out + [(ids[i], rows[ids[i]].view)];
    }
    next := "";
    if |out| == limit {
      next := out[|out| - 1].0;
    }
    assert forall i :: 0 <= i < |out| ==> out[i].0 == Ids(out)[i];
  }

  // ---- walking from page to page --------------------------------------------------------

  /** One request of a walk: the table as it was then, the limit asked for, and the page it got. */
  datatype Visit = Visit(table: set<Id>, limit: nat, page: seq<Id>)

  function NextOf(v: Visit): Id {
    NextCursor(v.page, v.limit)
  }

  function CursorOf(visits: seq<Visit>): Id {
    if visits == [] then "" else NextOf(visits[|visits| - 1])
  }

  /** Following cursors from empty; the tables may differ from page to page in any way. */
  ghost predicate IsWalk(less: (Id, Id) -> bool, visits: seq<Visit>) {
    if visits == [] then true
    else
      var front, v := visits[..|visits| - 1], visits[|visits| - 1];
      && IsWalk(less, front)
      && (front != [] ==> CursorOf(front) != "")
      && v.limit >= 1 && "" !in v.table
      && IsPage(less, v.table, v.limit, CursorOf(front), v.page)
  }

  /** The walk is over once it gets an empty cursor back. */
  predicate Ended(visits: seq<Visit>) {
    visits != [] && CursorOf(visits) == ""
  }

  function Collected(visits: seq<Visit>): seq<Id> {
    if visits == [] then [] else Collected(visits[..|visits| - 1]) + visits[|visits| - 1].page
  }

  lemma AppendAscends(less: (Id, Id) -> bool, before: seq<Id>, page: seq<Id>)
    requires StrictOrder(less) && Ascending(less, before) && Ascending(less, page)
    requires before != [] ==> forall id :: id in page ==> less(before[|before| - 1], id)
    ensures Ascending(less, before + page)
  {
    forall i, j | 0 <= i < |before| && 0 <= j < |page| ensures less(before[i], page[j]) {
      assert page[j] in page;
      assert i == |before| - 1 || less(before[i], before[|before| - 1]);
    }
  }

  lemma {:induction false} WalkAscends(less: (Id, Id) -> bool, visits: seq<Visit>)
    requires StrictOrder(less) && IsWalk(less, visits)
    ensures Ascending(less, Collected(visits))
    ensures CursorOf(visits) != "" ==> Collected(visits) != [] && Collected(visits)[|Collected(visits)| - 1] == CursorOf(visits)
    decreases |visits|
  {
    if visits != [] {
      var front, page := visits[..|visits| - 1], visits[|visits| - 1].page;
      WalkAscends(less, front);
      PageFollows(less, front, visits[|visits| - 1]);
      AppendAscends(less, Collected(front), page);
    }
  }

  lemma PageFollows(less: (Id, Id) -> bool, front: seq<Visit>, v: Visit)
    requires IsWalk(less, front) && IsPage(less, v.table, v.limit, CursorOf(front), v.page)
    requires front != [] ==> CursorOf(front) != ""
    requires CursorOf(front) != "" ==> Collected(front) != [] && Collected(front)[|Collected(front)| - 1] == CursorOf(front)
    ensures Collected(front) != [] ==> forall id :: id in v.page ==> less(Collected(front)[|Collected(front)| - 1], id)
  {
  }

  /** No id comes twice, whatever is inserted or deleted between pages. */
  lemma NoIdTwice(less: (Id, Id) -> bool, visits: seq<Visit>, i: nat, j: nat)
    requires StrictOrder(less) && IsWalk(less, visits)
    requires i < |Collected(visits)| && j < |Collected(visits)| && i != j
    ensures Collected(visits)[i] != Collected(visits)[j]
  {
    WalkAscends(less, visits);
    var all := Collected(visits);
    assert less(all[i], all[j]) || less(all[j], all[i]);
  }

  /** A row there all along has been seen, or is still ahead of the cursor. */
  lemma {:induction false} SeenOrAhead(less: (Id, Id) -> bool, visits: seq<Visit>, id: Id)
    requires StrictOrder(less) && IsWalk(less, visits) && visits != []
    requires forall n :: 0 <= n < |visits| ==> id in visits[n].table
    ensures id in Collected(visits) || (CursorOf(visits) != "" && less(CursorOf(visits), id))
    decreases |visits|
  {
    var front, v := visits[..|visits| - 1], visits[|visits| - 1];
    assert id in v.table;
    if front != [] {
      SeenOrAhead(less, front, id);
    }
    if id !in Collected(front) {
      assert Follows(less, CursorOf(front), id);
    }
    if id !in Collected(visits) {
      assert v.page[|v.page| - 1] in v.page;
      assert v.page[|v.page| - 1] in v.table;
    }
  }

  /** Every row present throughout a walk that ended appears in it, exactly once. */
  lemma StayersAppearOnce(less: (Id, Id) -> bool, visits: seq<Visit>, id: Id) returns (k: nat)
    requires StrictOrder(less) && IsWalk(less, visits) && Ended(visits)
    requires forall n :: 0 <= n < |visits| ==> id in visits[n].table
    ensures k < |Collected(visits)| && Collected(visits)[k] == id
    ensures forall j :: 0 <= j < |Collected(visits)| && Collected(visits)[j] == id ==> j == k
  {
    SeenOrAhead(less, visits, id);
    k :| 0 <= k < |Collected(visits)| && Collected(visits)[k] == id;
    forall j | 0 <= j < |Collected(visits)| && Collected(visits)[j] == id ensures j == k {
      if j != k {
        NoIdTwice(less, visits, j, k);
      }
    }
  }

  /** What a walk collects was in the table when its page was read. */
  lemma {:induction false} CollectedWasThere(less: (Id, Id) -> bool, visits: seq<Visit>, id: Id) returns (n: nat)
    requires IsWalk(less, visits) && id in Collected(visits)
    ensures n < |visits| && id in visits[n].table && id in visits[n].page
    decreases |visits|
  {
    var last := |visits| - 1;
    if id in visits[last].page {
      n := last;
    } else {
      n := CollectedWasThere(less, visits[..last], id);
    }
  }

  // ---- a table that does not change --------------------------------------------------------

  ghost predicate Fixed(visits: seq<Visit>, table: set<Id>, limit: nat) {
    forall n :: 0 <= n < |visits| ==> visits[n].table == table && visits[n].limit == limit
  }

  lemma {:induction false} AscendingUnique(less: (Id, Id) -> bool, a: seq<Id>, b: seq<Id>)
    requires StrictOrder(less) && Ascending(less, a) && Ascending(less, b)
    requires forall id :: id in a <==> id in b
    ensures a == b
    decreases |a|
  {
    assert (a != [] ==> a[0] in b) && (b != [] ==> b[0] in a);
    if a != [] {
      var i :| 0 <= i < |b| && b[i] == a[0];
      var j :| 0 <= j < |a| && a[j] == b[0];
      assert i == 0 && j == 0;
      forall id ensures id in a[1..] <==> id in b[1..] {
        assert id in a[1..] <==> id in a && id != a[0];
        assert id in b[1..] <==> id in b && id != b[0];
      }
      AscendingUnique(less, a[1..], b[1..]);
      assert a == [a[0]] + a[1..] && b == [b[0]] + b[1..];
    }
  }

  /** On a table that stays as it is, an ended walk is the sorted list of its ids. */
  lemma FixedWalkIsSortedList(less: (Id, Id) -> bool, visits: seq<Visit>, table: set<Id>, limit: nat, sorted: seq<Id>)
    requires StrictOrder(less) && IsWalk(less, visits) && Ended(visits) && Fixed(visits, table, limit)
    requires Ascending(less, sorted) && forall id :: id in sorted <==> id in table
    ensures Collected(visits) == sorted
  {
    WalkAscends(less, visits);
    forall id ensures id in Collected(visits) <==> id in sorted {
      if id in table {
        var _ := StayersAppearOnce(less, visits, id);
      }
      if id in Collected(visits) {
        var n := CollectedWasThere(less, visits, id);
        assert visits[n].table == table;
      }
    }
    AscendingUnique(less, Collected(visits), sorted);
  }

  lemma {:induction false} AscendingSize(less: (Id, Id) -> bool, s: seq<Id>, ids: set<Id>)
    requires StrictOrder(less) && Ascending(less, s) && forall id :: id in s ==> id in ids
    ensures |s| <= |ids|
    ensures (forall id :: id in ids ==> id in s) ==> |s| == |ids|
    decreases |s|
  {
    if s == [] {
      assert (forall id :: id in ids ==> id in s) ==> ids == {};
    } else {
      var last := s[|s| - 1];
      forall i | 0 <= i < |s| - 1 ensures s[i] in ids - {last} {
        assert s[i] in s && less(s[i], last);
      }
      assert last in ids;
      AscendingSize(less, s[..|s| - 1], ids - {last});
    }
  }

  lemma {:induction false} FullPages(less: (Id, Id) -> bool, visits: seq<Visit>, table: set<Id>, limit: nat)
    requires IsWalk(less, visits) && Fixed(visits, table, limit) && visits != []
    ensures |Collected(visits)| == limit * (|visits| - 1) + |visits[|visits| - 1].page|
    decreases |visits|
  {
    var front := visits[..|visits| - 1];
    if front != [] {
      assert Fixed(front, table, limit);
      FullPages(less, front, table, limit);
      assert visits[|visits| - 2].limit == limit && |visits[|visits| - 2].page| == limit;
      assert limit * (|visits| - 1) == limit * (|visits| - 2) + limit;
    }
  }

  /**
   On a table that stays as it is the walk ends, after exactly one page more than it can fill: it has
   ended once the pages asked for could hold more rows than there are, and not before.  A table of a
   multiple of the limit costs one empty page.
   */
  lemma FixedWalkEnds(less: (Id, Id) -> bool, visits: seq<Visit>, table: set<Id>, limit: nat)
    requires StrictOrder(less) && IsWalk(less, visits) && Fixed(visits, table, limit) && visits != []
    ensures Ended(visits) <==> |table| < limit * |visits|
    ensures limit * (|visits| - 1) <= |table|
  {
    hide Ascending, IsPage;
    var size, pages := |visits[|visits| - 1].page|, |visits|;
    assert limit * pages == limit * (pages - 1) + limit;
    LastPageSize(less, visits, limit);
    FullPages(less, visits, table, limit);
    CollectedSize(less, visits, table, limit);
  }

  lemma LastPageSize(less: (Id, Id) -> bool, visits: seq<Visit>, limit: nat)
    requires IsWalk(less, visits) && visits != [] && visits[|visits| - 1].limit == limit
    ensures |visits[|visits| - 1].page| <= limit
    ensures Ended(visits) <==> |visits[|visits| - 1].page| < limit
  {
    var v := visits[|visits| - 1];
    assert v.page != [] ==> v.page[|v.page| - 1] in v.page && v.page[|v.page| - 1] in v.table;
  }

  lemma CollectedSize(less: (Id, Id) -> bool, visits: seq<Visit>, table: set<Id>, limit: nat)
    requires StrictOrder(less) && IsWalk(less, visits) && Fixed(visits, table, limit) && visits != []
    ensures |Collected(visits)| <= |table|
    ensures Ended(visits) ==> |Collected(visits)| == |table|
  {
    WalkAscends(less, visits);
    forall id | id in Collected(visits) ensures id in table {
      var n := CollectedWasThere(less, visits, id);
    }
    if Ended(visits) {
      forall id | id in table ensures id in Collected(visits) {
        var _ := StayersAppearOnce(less, visits, id);
      }
    }
    AscendingSize(less, Collected(visits), table);
  }
}
