/** Lists read page by page, against the whole table.  Configs, endpoints, secrets and payload
    specs are listed by name, jobs by creation time and id; an item stands here for its
    position in that order. */
module Paging {
  import opened Wrappers
  import opened Basics

  function Min(a: int, b: int): int {
    if a <= b then a else b
  }

  predicate Increasing(s: seq<int>) {
    forall i, j | 0 <= i < j < |s| :: s[i] < s[j]
  }

  /** `limit.clamp(1, 200)` */
  function EffectiveLimit(asked: int): nat {
    if asked < 1 then 1 else if asked > 200 then 200 else asked
  }

  /** The items after the cursor, in order. */
  function After(table: seq<int>, cursor: Option<int>): seq<int> {
    if cursor.None? || table == [] then table
    else if table[0] > cursor.value then table
    else After(table[1..], cursor)
  }

  function Take(s: seq<int>, n: nat): seq<int> {
    if |s| > n then s[..n] else s
  }

  datatype Page = Page(data: seq<int>, next: Option<int>)

  /** `list`: one item more than the page tells whether there is another page. */
  function ListPage(table: seq<int>, cursor: Option<int>, asked: int): Page {
    var limit := EffectiveLimit(asked);
    var items := Take(After(table, cursor), limit + 1);
    var data := Take(items, limit);
    Page(data, if |items| > limit then Some(data[|data| - 1]) else None)
  }

  predicate Beyond(cursor: Option<int>, item: int) {
    cursor.Some? ==> item > cursor.value
  }

  lemma {:induction false} AfterIsBeyond(table: seq<int>, cursor: Option<int>)
    requires Increasing(table)
    ensures Increasing(After(table, cursor))
    ensures forall item: int :: item in After(table, cursor) <==> item in table && Beyond(cursor, item)
    ensures |After(table, cursor)| <= |table|
  {
    if cursor.Some? && table != [] {
      if table[0] > cursor.value {
      } else {
        AfterIsBeyond(table[1..], cursor);
        assert table == [table[0]] + table[1..];
      }
    }
  }

  /** One request of a walk: the table as it stood then, and what was answered. */
  datatype Visit = Visit(table: seq<int>, asked: int, page: Page)

  /** Each page is asked for with the cursor of the page before it. */
  ghost predicate WalkFrom(cursor: Option<int>, visits: seq<Visit>)
    decreases |visits|
  {
    visits == []
    || (Increasing(visits[0].table)
        && visits[0].page == ListPage(visits[0].table, cursor, visits[0].asked)
        && (|visits| > 1 ==> visits[0].page.next.Some?)
        && WalkFrom(visits[0].page.next, visits[1..]))
  }

  predicate Completed(visits: seq<Visit>) {
    visits != [] && visits[|visits| - 1].page.next.None?
  }

  function Items(visits: seq<Visit>): seq<int> {
    if visits == [] then [] else visits[0].page.data + Items(visits[1..])
  }

  lemma PageFacts(table: seq<int>, cursor: Option<int>, asked: int)
    requires Increasing(table)
    ensures var page, rest := ListPage(table, cursor, asked), After(table, cursor);
            && Increasing(page.data) && page.data <= rest
            && (forall item <- page.data :: Beyond(cursor, item))
            && (page.next.None? ==> page.data == rest)
            && (page.next.Some? ==> page.data != [] && page.next.value == page.data[|page.data| - 1])
            && 0 <= |page.data| <= EffectiveLimit(asked) <= 200
  {
    AfterIsBeyond(table, cursor);
    var rest, limit := After(table, cursor), EffectiveLimit(asked);
    hide After, Beyond;
    TakeFacts(rest, limit + 1);
    TakeFacts(Take(rest, limit + 1), limit);
    TakeTwice(rest, limit);
    TakeFacts(rest, limit);
    hide Take, Increasing;
  }

  /** A page has as many items as were asked for, but at least 1, at most 200, and no more than
      there are; and it says that there is another exactly when something is left. */
  lemma PageSize(table: seq<int>, cursor: Option<int>, asked: int)
    ensures var page, rest := ListPage(table, cursor, asked), After(table, cursor);
            && |page.data| == Min(|rest|, if asked < 1 then 1 else if asked > 200 then 200 else asked)
            && (page.next.Some? <==> |page.data| < |rest|)
  {
    var rest, limit := After(table, cursor), EffectiveLimit(asked);
    hide After;
    TakeFacts(rest, limit + 1);
    TakeFacts(Take(rest, limit + 1), limit);
    hide Take;
  }

  lemma TakeFacts(s: seq<int>, n: nat)
    ensures Take(s, n) <= s && |Take(s, n)| == (if |s| > n then n else |s|)
    ensures Increasing(s) ==> Increasing(Take(s, n))
    ensures forall item <- Take(s, n) :: item in s
  {
  }

  lemma TakeTwice(s: seq<int>, n: nat)
    ensures Take(Take(s, n + 1), n) == Take(s, n)
  {
  }

  /** Whatever happens to the table between pages, no item comes twice or out of order. */
  lemma {:induction false} WalkIncreases(cursor: Option<int>, visits: seq<Visit>)
    requires WalkFrom(cursor, visits)
    ensures Increasing(Items(visits))
    ensures forall item <- Items(visits) :: Beyond(cursor, item)
    decreases |visits|
  {
    if visits != [] {
      var page := visits[0].page;
      PageFacts(visits[0].table, cursor, visits[0].asked);
      hide ListPage, After;
      if |visits| > 1 {
        WalkIncreases(page.next, visits[1..]);
        Joined(cursor, page.data, Items(visits[1..]), page.next.value);
      } else {
        assert Items(visits[1..]) == [];
        assert Items(visits) == page.data;
      }
    }
  }

  lemma Joined(cursor: Option<int>, a: seq<int>, b: seq<int>, last: int)
    requires Increasing(a) && Increasing(b) && a != [] && a[|a| - 1] == last
    requires (forall item <- a :: Beyond(cursor, item)) && forall item <- b :: Beyond(Some(last), item)
    ensures Increasing(a + b) && forall item <- a + b :: Beyond(cursor, item)
  {
    assert last in a;
    forall i | 0 <= i < |b| ensures last < b[i] {
      assert b[i] in b;
    }
    forall i | 0 <= i < |a| ensures a[i] <= last {
    }
  }

  /** An item that stays in the table during a completed walk is returned. */
  lemma {:induction false} WalkFindsAll(cursor: Option<int>, visits: seq<Visit>, item: int)
    requires WalkFrom(cursor, visits) && Completed(visits) && Beyond(cursor, item)
    requires forall i | 0 <= i < |visits| :: item in visits[i].table
    ensures item in Items(visits)
    decreases |visits|
  {
    var table, page := visits[0].table, visits[0].page;
    PageFacts(table, cursor, visits[0].asked);
    AfterIsBeyond(table, cursor);
    hide ListPage, After, Increasing;
    assert item in After(table, cursor);
    if item !in page.data {
      LaterThanPage(After(table, cursor), page.data, item);
      assert |visits| > 1 && Completed(visits[1..]);
      WalkFindsAll(page.next, visits[1..], item);
    }
  }

  lemma LaterThanPage(rest: seq<int>, data: seq<int>, item: int)
    requires Increasing(rest) && data <= rest && data != [] && item in rest && item !in data
    ensures item > data[|data| - 1]
  {
    var i :| 0 <= i < |rest| && rest[i] == item;
    assert forall k | 0 <= k < |data| :: data[k] == rest[k] && data[k] in data;
  }

  /** Every item present for the whole of a completed walk appears in it exactly once. */
  lemma ExactlyOnce(visits: seq<Visit>, item: int)
    requires WalkFrom(None, visits) && Completed(visits)
    requires forall i | 0 <= i < |visits| :: item in visits[i].table
    ensures multiset(Items(visits))[item] == 1
  {
    WalkFindsAll(None, visits, item);
    WalkIncreases(None, visits);
    CountOnce(Items(visits), item);
  }

  lemma {:induction false} CountOnce(s: seq<int>, item: int)
    requires Increasing(s) && item in s
    ensures multiset(s)[item] == 1
  {
    var i :| 0 <= i < |s| && s[i] == item;
    assert s == s[..i] + [item] + s[i + 1..];
    assert item !in s[..i] && item !in s[i + 1..];
  }

  /** On a table nobody changes, a completed walk returns the table, and every walk that is
      long enough is completed. */
  lemma {:induction false} FixedTableWalk(table: seq<int>, cursor: Option<int>, visits: seq<Visit>)
    requires WalkFrom(cursor, visits) && visits != [] && forall i | 0 <= i < |visits| :: visits[i].table == table
    ensures Completed(visits) ==> Items(visits) == After(table, cursor)
    ensures |visits| <= Max(1, |After(table, cursor)|)
    decreases |visits|
  {
    var page, rest := visits[0].page, After(table, cursor);
    assert visits[0].table == table;
    PageFacts(table, cursor, visits[0].asked);
    if |visits| > 1 {
      FixedTableWalk(table, page.next, visits[1..]);
      AfterPage(table, cursor, visits[0].asked);
      hide ListPage, After, Increasing, Beyond;
      assert rest == page.data + rest[|page.data|..];
    } else {
      hide ListPage, After, Increasing, Beyond;
      assert Items(visits[1..]) == [];
    }
  }

  lemma AfterPage(table: seq<int>, cursor: Option<int>, asked: int)
    requires Increasing(table) && ListPage(table, cursor, asked).next.Some?
    ensures var page := ListPage(table, cursor, asked);
            After(table, page.next) == After(table, cursor)[|page.data|..] && |page.data| < |After(table, cursor)|
  {
    var page, rest := ListPage(table, cursor, asked), After(table, cursor);
    AfterIsBeyond(table, cursor);
    AfterAgain(table, cursor, page.next.value);
    AfterSuffix(rest, |page.data|);
  }

  lemma {:induction false} AfterAgain(table: seq<int>, cursor: Option<int>, next: int)
    requires Increasing(table) && next in After(table, cursor)
    ensures After(table, Some(next)) == After(After(table, cursor), Some(next))
  {
    if cursor.Some? && table != [] && table[0] <= cursor.value {
      AfterIsBeyond(table, cursor);
      AfterAgain(table[1..], cursor, next);
    }
  }

  lemma {:induction false} AfterSuffix(rest: seq<int>, n: nat)
    requires Increasing(rest) && 0 < n <= |rest|
    ensures After(rest, Some(rest[n - 1])) == rest[n..]
  {
    if n > 1 {
      AfterSuffix(rest[1..], n - 1);
      assert rest[1..][n - 2] == rest[n - 1] && rest[1..][n - 1..] == rest[n..];
    } else if |rest| > 1 {
      assert After(rest[1..], Some(rest[0])) == rest[1..];
    }
  }

  // Executions are listed by creation time alone

  predicate NewestFirst(rows: seq<int>) {
    forall i, j | 0 <= i < j < |rows| :: rows[i] >= rows[j]
  }

  /** `created_at < cursor`: the rows created at the cursor's own time go with it. */
  function Older(rows: seq<int>, created: int): seq<int> {
    if rows == [] || rows[0] < created then rows else Older(rows[1..], created)
  }

  lemma {:induction false} OlderShrinks(rows: seq<int>, created: int)
    ensures |Older(rows, created)| <= |rows|
    ensures Older(rows, created) == rows <==> rows == [] || rows[0] < created
  {
    if rows != [] && rows[0] >= created {
      OlderShrinks(rows[1..], created);
    }
  }

  /** The whole walk over the executions of a job, given by their creation times. */
  function ExecutionWalk(rows: seq<int>, limit: nat): seq<int>
    requires limit >= 1
    decreases |rows|
  {
    if |rows| <= limit then rows
    else
      var rest := Older(rows[limit..], rows[limit - 1]);
      OlderShrinks(rows[limit..], rows[limit - 1]);
      rows[..limit] + ExecutionWalk(rest, limit)
  }

  lemma {:induction false} WalkShrinks(rows: seq<int>, limit: nat)
    requires limit >= 1
    ensures |ExecutionWalk(rows, limit)| <= |rows|
    decreases |rows|
  {
    if |rows| > limit {
      OlderShrinks(rows[limit..], rows[limit - 1]);
      WalkShrinks(Older(rows[limit..], rows[limit - 1]), limit);
    }
  }

  /** No page ends between two executions created at the same time. */
  predicate NoTieAtPageEnd(rows: seq<int>, limit: nat)
    requires limit >= 1
    decreases |rows|
  {
    |rows| <= limit || (rows[limit] < rows[limit - 1] && NoTieAtPageEnd(rows[limit..], limit))
  }

  /** The walk returns every execution exactly when no page ends inside a tie. */
  lemma {:induction false} ExecutionWalkLosesExactlyTies(rows: seq<int>, limit: nat)
    requires limit >= 1
    ensures |ExecutionWalk(rows, limit)| == |rows| <==> NoTieAtPageEnd(rows, limit)
    ensures NoTieAtPageEnd(rows, limit) ==> ExecutionWalk(rows, limit) == rows
    decreases |rows|
  {
    if |rows| > limit {
      var rest, last := rows[limit..], rows[limit - 1];
      OlderShrinks(rest, last);
      WalkShrinks(Older(rest, last), limit);
      if rest[0] < last {
        ExecutionWalkLosesExactlyTies(rest, limit);
        assert rows == rows[..limit] + rest;
      } else {
        OlderSkips(rest, last);
      }
    }
  }

  lemma OlderSkips(rows: seq<int>, created: int)
    requires rows != [] && rows[0] >= created
    ensures |Older(rows, created)| < |rows|
  {
    OlderShrinks(rows[1..], created);
  }

  predicate Distinct(rows: seq<int>) {
    forall i, j | 0 <= i < j < |rows| :: rows[i] != rows[j]
  }

  ghost predicate CompleteWithEvery(rows: seq<int>) {
    forall limit: nat | 1 <= limit <= 200 :: ExecutionWalk(rows, limit) == rows
  }

  /** So the list is complete for every page size exactly when no two executions of the job
      were created at the same time. */
  lemma CompleteForEveryLimit(rows: seq<int>)
    requires NewestFirst(rows)
    ensures CompleteWithEvery(rows) <==> Distinct(rows)
  {
    if Distinct(rows) {
      DistinctIsComplete(rows);
    } else if CompleteWithEvery(rows) {
      assert ExecutionWalk(rows, 1) == rows;
      hide ExecutionWalk;
      ExecutionWalkLosesExactlyTies(rows, 1);
      NoTieIsDistinct(rows);
    }
  }

  lemma DistinctIsComplete(rows: seq<int>)
    requires NewestFirst(rows) && Distinct(rows)
    ensures CompleteWithEvery(rows)
  {
    forall limit: nat | 1 <= limit <= 200 ensures ExecutionWalk(rows, limit) == rows {
      DistinctHasNoTie(rows, limit);
      ExecutionWalkLosesExactlyTies(rows, limit);
    }
    hide ExecutionWalk, NoTieAtPageEnd;
  }

  lemma {:induction false} DistinctHasNoTie(rows: seq<int>, limit: nat)
    requires NewestFirst(rows) && limit >= 1 && Distinct(rows)
    ensures NoTieAtPageEnd(rows, limit)
    decreases |rows|
  {
    if |rows| > limit {
      assert rows[limit - 1] != rows[limit];
      DistinctHasNoTie(rows[limit..], limit);
    }
  }

  lemma {:induction false} NoTieIsDistinct(rows: seq<int>)
    requires NewestFirst(rows) && NoTieAtPageEnd(rows, 1)
    ensures forall i, j | 0 <= i < j < |rows| :: rows[i] > rows[j]
    decreases |rows|
  {
    if |rows| > 1 {
      NoTieIsDistinct(rows[1..]);
      forall i, j | 0 <= i < j < |rows| ensures rows[i] > rows[j] {
        if i > 0 {
          assert rows[1..][i - 1] > rows[1..][j - 1];
        }
      }
    }
  }
}
