/** Paging through the prompt history by key, and the export that walks all pages. */
module PromptHistory {
  import opened Prelude

  const PAGE_SIZE: nat := 100
  const EXPORT_LIMIT: nat := 1_000
  const SEARCH_LIMIT: nat := 1_000

  type PromptId = nat

  /** What the list query reads of a prompt; `scores` are those of its completed analyses. */
  datatype Row = Row(
    tenantId: nat,
    userId: nat,
    occurredAt: Millis,
    deleted: bool,
    projectId: nat,
    platform: string,
    model: string,
    tags: set<string>,
    scores: set<int>)

  type Table = map<PromptId, Row>

  /** `text` stands for the prompts whose content the search expression finds. */
  datatype Query = Query(
    text: Option<set<PromptId>>,
    projectId: Option<nat>,
    userId: Option<nat>,
    platform: Option<string>,
    model: Option<string>,
    tag: Option<string>,
    mine: bool,
    minScore: Option<int>,
    maxScore: Option<int>,
    from: Option<Millis>,
    until: Option<Millis>,
    cursor: Option<PromptId>)

  datatype Page = Page(items: seq<PromptId>, nextCursor: Option<PromptId>)

  // ------------------------------------------------------------------ filters

  /** The user whose prompts the actor is confined to, if any. */
  function ScopedUser(actor: Actor, query: Query): Option<nat> {
    if !IsTenantAdmin(actor.role) then Some(actor.userId)
    else if query.mine then Some(actor.userId)
    else query.userId
  }

  predicate InScope(actor: Actor, query: Query, row: Row) {
    && row.tenantId == actor.tenantId
    && (ScopedUser(actor, query).Some? ==> row.userId == ScopedUser(actor, query).value)
  }

  predicate ScoreMatches(query: Query, row: Row) {
    query.minScore.Some? || query.maxScore.Some? ==>
      exists score :: score in row.scores
                      && (query.minScore.Some? ==> query.minScore.value <= score)
                      && (query.maxScore.Some? ==> score <= query.maxScore.value)
  }

  /** All conditions of the query but text search and cursor. */
  predicate Matches(actor: Actor, query: Query, row: Row) {
    && InScope(actor, query, row) && !row.deleted
    && (query.projectId.Some? ==> row.projectId == query.projectId.value)
    && (query.platform.Some? ==> row.platform == query.platform.value)
    && (query.model.Some? ==> row.model == query.model.value)
    && (query.tag.Some? ==> query.tag.value in row.tags)
    && ScoreMatches(query, row)
    && (query.from.Some? ==> query.from.value <= row.occurredAt)
    && (query.until.Some? ==> row.occurredAt <= query.until.value)
  }

  // ----------------------------------------------------------------- the order

  /** Newer prompts come first, and among those of one instant the greater identifier. */
  predicate Before(table: Table, a: PromptId, b: PromptId)
    requires a in table && b in table
  {
    table[a].occurredAt > table[b].occurredAt || (table[a].occurredAt == table[b].occurredAt && a > b)
  }

  predicate IsFirst(table: Table, ids: set<PromptId>, m: PromptId)
    requires ids <= table.Keys
  {
    m in ids && forall x | x in ids :: x != m ==> Before(table, m, x)
  }

  lemma {:induction false} FirstExists(table: Table, ids: set<PromptId>) returns (m: PromptId)
    requires ids <= table.Keys && ids != {}
    ensures IsFirst(table, ids, m)
  {
    var x :| x in ids;
    m := x;
    if ids != {x} {
      assert ids - {x} != {};
      var y := FirstExists(table, ids - {x});
      if Before(table, y, x) { m := y; }
      forall z | z in ids && z != m ensures Before(table, m, z) {
        assert z == x || z == y || Before(table, y, z);
      }
    }
  }

  lemma SomeFirst(table: Table, ids: set<PromptId>)
    requires ids <= table.Keys && ids != {}
    ensures exists m :: m in ids && IsFirst(table, ids, m)
  {
    var m := FirstExists(table, ids);
  }

  function First(table: Table, ids: set<PromptId>): (m: PromptId)
    requires ids <= table.Keys && ids != {}
    ensures IsFirst(table, ids, m)
  {
    SomeFirst(table, ids);
    var m :| m in ids && IsFirst(table, ids, m);
    m
  }

  /** The rows in the order of the query. */
  function Sorted(table: Table, ids: set<PromptId>): seq<PromptId>
    requires ids <= table.Keys
  {
    if ids == {} then []
    else
      var m := First(table, ids);
      [m] + Sorted(table, ids - {m})
  }

  /** Sorting keeps exactly the given rows, each once, and puts them in order. */
  lemma {:induction false} SortedIsOrdered(table: Table, ids: set<PromptId>)
    requires ids <= table.Keys
    ensures forall x :: x in Sorted(table, ids) <==> x in ids
    ensures |Sorted(table, ids)| == |ids|
    ensures StrictlySorted(table, Sorted(table, ids))
  {
    if ids != {} {
      SortedIsOrdered(table, ids - {First(table, ids)});
    }
  }

  predicate StrictlySorted(table: Table, s: seq<PromptId>) {
    && (forall x :: x in s ==> x in table)
    && (forall i, j :: 0 <= i < j < |s| ==> Before(table, s[i], s[j]))
  }

  /** A set of rows has one order. */
  lemma {:induction false} SortedUnique(table: Table, a: seq<PromptId>, b: seq<PromptId>)
    requires StrictlySorted(table, a) && StrictlySorted(table, b)
    requires forall x :: x in a <==> x in b
    ensures a == b
  {
    assert b != [] ==> b[0] in b;
    if a != [] {
      assert a[0] in b && (b != [] ==> b[0] in a);
      var i :| 0 <= i < |b| && b[i] == a[0];
      var j :| 0 <= j < |a| && a[j] == b[0];
      assert a[0] == b[0];
      forall x ensures x in a[1..] <==> x in b[1..] {
        if x in a[1..] { var k :| 0 <= k < |a[1..]| && a[1..][k] == x; assert a[k + 1] == x; assert x in b; }
        if x in b[1..] { var k :| 0 <= k < |b[1..]| && b[1..][k] == x; assert b[k + 1] == x; assert x in a; }
      }
      SortedUnique(table, a[1..], b[1..]);
      assert a == [a[0]] + a[1..] && b == [b[0]] + b[1..];
    }
  }

  function Take(s: seq<PromptId>, n: nat): seq<PromptId> {
    if |s| <= n then s else s[..n]
  }

  // -------------------------------------------------------------------- pages

  /** The first SEARCH_LIMIT prompts, within the actor's scope, that the text finds. */
  function SearchIds(table: Table, actor: Actor, query: Query, text: set<PromptId>): seq<PromptId> {
    Take(Sorted(table, set x | x in table && x in text && InScope(actor, query, table[x]) && !table[x].deleted), SEARCH_LIMIT)
  }

  /** The rows of the list: everything that matches, whatever the page. */
  function Listed(table: Table, actor: Actor, query: Query): (ids: set<PromptId>)
    ensures ids <= table.Keys
  {
    set x | x in table && Matches(actor, query, table[x])
            && (query.text.Some? ==> x in SearchIds(table, actor, query, query.text.value))
  }

  /** How many of the rows sort before this one. */
  function Rank(table: Table, ids: set<PromptId>, x: PromptId): nat
    requires ids <= table.Keys && x in table
  {
    |set y | y in ids && Before(table, y, x)|
  }

  /** The first rows of a list are those with few before them. */
  lemma {:induction false} TakenIff(table: Table, ids: set<PromptId>, n: nat, x: PromptId)
    requires ids <= table.Keys
    ensures x in Take(Sorted(table, ids), n) <==> x in ids && Rank(table, ids, x) < n
    decreases |ids|
  {
    SortedIsOrdered(table, ids);
    if x in ids {
      var m := First(table, ids);
      if x == m {
        FirstHasRankZero(table, ids);
        assert n > 0 ==> Take(Sorted(table, ids), n)[0] == m;
      } else {
        RankBehindFirst(table, ids, x);
        TakeBehindFirst([m] + Sorted(table, ids - {m}), n, x);
        if n > 0 { TakenIff(table, ids - {m}, n - 1, x); }
      }
      hide Rank, Before, Take, IsFirst, StrictlySorted;
    }
  }

  lemma FirstHasRankZero(table: Table, ids: set<PromptId>)
    requires ids <= table.Keys && ids != {}
    ensures Rank(table, ids, First(table, ids)) == 0
  {
    assert (set y | y in ids && Before(table, y, First(table, ids))) == {};
  }

  lemma RankBehindFirst(table: Table, ids: set<PromptId>, x: PromptId)
    requires ids <= table.Keys && x in ids && x != First(table, ids)
    ensures Rank(table, ids, x) == Rank(table, ids - {First(table, ids)}, x) + 1
  {
    var m := First(table, ids);
    assert (set y | y in ids && Before(table, y, x)) == (set y | y in ids - {m} && Before(table, y, x)) + {m};
  }

  lemma TakeBehindFirst(all: seq<PromptId>, n: nat, x: PromptId)
    requires all != [] && x != all[0]
    ensures x in Take(all, n) <==> n > 0 && x in Take(all[1..], n - 1)
  {
    if n > 0 {
      assert Take(all, n) == [all[0]] + Take(all[1..], n - 1);
    }
  }

  /** What a user may read and a query asks for, column by column: the workspace's undeleted
      rows; for members and viewers, and on request, only their own; otherwise those of the
      user asked for; and every other filter. */
  predicate IsAskedFor(actor: Actor, query: Query, row: Row) {
    && row.tenantId == actor.tenantId && !row.deleted
    && (actor.role == MEMBER || actor.role == VIEWER || query.mine ==> row.userId == actor.userId)
    && ((actor.role == OWNER || actor.role == ADMIN) && !query.mine && query.userId.Some? ==> Some(row.userId) == query.userId)
    && (query.projectId == None || query.projectId == Some(row.projectId))
    && (query.platform == None || query.platform == Some(row.platform))
    && (query.model == None || query.model == Some(row.model))
    && (query.tag == None || query.tag.value in row.tags)
    && (query.from == None || query.from.value <= row.occurredAt)
    && (query.until == None || row.occurredAt <= query.until.value)
    && ((query.minScore == None && query.maxScore == None)
        || exists score :: score in row.scores
                           && (query.minScore == None || query.minScore.value <= score)
                           && (query.maxScore == None || score <= query.maxScore.value))
  }

  /** The rows that the text finds among those that the user may read. */
  function Found(table: Table, actor: Actor, query: Query): (ids: set<PromptId>)
    requires query.text.Some?
    ensures ids <= table.Keys
  {
    set y | y in table && y in query.text.value && !table[y].deleted && table[y].tenantId == actor.tenantId
            && (actor.role == MEMBER || actor.role == VIEWER || query.mine ==> table[y].userId == actor.userId)
            && ((actor.role == OWNER || actor.role == ADMIN) && !query.mine && query.userId.Some? ==> Some(table[y].userId) == query.userId)
  }

  /** The text finds the row, and fewer than a thousand newer ones. */
  predicate IsFound(table: Table, actor: Actor, query: Query, x: PromptId)
    requires query.text.Some? && x in table
  {
    x in Found(table, actor, query) && Rank(table, Found(table, actor, query), x) < 1_000
  }

  lemma AskedForIff(actor: Actor, query: Query, row: Row)
    ensures Matches(actor, query, row) <==> IsAskedFor(actor, query, row)
  {
  }

  lemma FoundIff(table: Table, actor: Actor, query: Query, x: PromptId)
    requires query.text.Some? && x in table
    ensures x in SearchIds(table, actor, query, query.text.value) <==> IsFound(table, actor, query, x)
  {
    var found := Found(table, actor, query);
    var scoped := set y | y in table && y in query.text.value && InScope(actor, query, table[y]) && !table[y].deleted;
    assert found == scoped;
    assert SearchIds(table, actor, query, query.text.value) == Take(Sorted(table, scoped), SEARCH_LIMIT);
    TakenIff(table, found, SEARCH_LIMIT, x);
    hide Sorted, Take, Rank, Found, SearchIds;
  }

  /** The list holds exactly the rows that are asked for and found. */
  lemma ListedIff(table: Table, actor: Actor, query: Query, x: PromptId)
    ensures x in Listed(table, actor, query) <==>
              x in table && IsAskedFor(actor, query, table[x]) && (query.text.Some? ==> IsFound(table, actor, query, x))
  {
    if x in table {
      AskedForIff(actor, query, table[x]);
      if query.text.Some? { FoundIff(table, actor, query, x); }
    }
    hide Matches, IsAskedFor, IsFound, SearchIds;
  }

  predicate CursorFound(table: Table, actor: Actor, query: Query, cursor: PromptId) {
    cursor in table && InScope(actor, query, table[cursor])
  }

  function ListedAfter(table: Table, actor: Actor, query: Query, cursor: Option<PromptId>): (ids: set<PromptId>)
    requires cursor.Some? ==> cursor.value in table
    ensures ids <= table.Keys
  {
    set x | x in Listed(table, actor, query) && (cursor.Some? ==> Before(table, cursor.value, x))
  }

  /** A page of an ordered list: one more row is read than shown, to see if there is more. */
  function PageOf(all: seq<PromptId>, limit: nat): Page
    requires limit >= 1
  {
    var prompts := Take(all, limit + 1);
    var items := Take(prompts, limit);
    Page(items, if |prompts| > limit then Some(items[|items| - 1]) else None)
  }

  /** One page; nothing if the cursor is not visible to the actor. */
  function List(table: Table, actor: Actor, query: Query, cursor: Option<PromptId>, limit: nat): Option<Page>
    requires limit >= 1
  {
    if cursor.Some? && !CursorFound(table, actor, query, cursor.value) then None
    else Some(PageOf(Sorted(table, ListedAfter(table, actor, query, cursor)), limit))
  }

  // ------------------------------------------------------------------- export

  /** Between two pages rows may be inserted, marked as deleted or edited; none disappears
      or changes its place in the order or its owner. */
  predicate Evolves(before: Table, after: Table) {
    forall x | x in before :: x in after && after[x].occurredAt == before[x].occurredAt
                              && after[x].tenantId == before[x].tenantId && after[x].userId == before[x].userId
  }

  predicate KeepsEvolving(tables: seq<Table>) {
    |tables| == EXPORT_LIMIT / PAGE_SIZE && forall i, j :: 0 <= i <= j < |tables| ==> Evolves(tables[i], tables[j])
  }

  /** The row is in the list each time the export looks at or before page `n`. */
  predicate ListedThroughout(tables: seq<Table>, n: nat, actor: Actor, query: Query, x: PromptId)
    requires n <= |tables|
  {
    forall i :: 0 <= i < n ==> x in Listed(tables[i], actor, query)
  }

  /** Nothing that stayed listed and sorts at or before the last returned row is missing. */
  ghost predicate NothingSkipped(tables: seq<Table>, n: nat, actor: Actor, query: Query, items: seq<PromptId>)
    requires 1 <= n <= |tables|
  {
    var table := tables[n - 1];
    forall x :: ListedThroughout(tables, n, actor, query, x)
                && (query.cursor.Some? ==> query.cursor.value in table && Before(table, query.cursor.value, x))
                && (items != [] ==> items[|items| - 1] in table && !Before(table, items[|items| - 1], x))
                ==> x in items
  }

  /** The simple list: everything after the requested cursor, in order, up to the limit. */
  function SimpleList(table: Table, actor: Actor, query: Query): seq<PromptId>
    requires query.cursor.Some? ==> query.cursor.value in table
  {
    Take(Sorted(table, ListedAfter(table, actor, query, query.cursor)), EXPORT_LIMIT)
  }

  /** What sorts after the n-th row of a list is the rest of the list. */
  lemma SortedSuffix(table: Table, ids: set<PromptId>, n: nat)
    requires ids <= table.Keys && 0 < n <= |Sorted(table, ids)|
    ensures var all := Sorted(table, ids);
            all[n - 1] in ids
            && Sorted(table, set x | x in ids && Before(table, all[n - 1], x)) == all[n..]
  {
    SortedIsOrdered(table, ids);
    var all := Sorted(table, ids);
    var rest := set x | x in ids && Before(table, all[n - 1], x);
    SortedIsOrdered(table, rest);
    hide Sorted;
    DropIsRest(table, all, n);
    forall x ensures x in Sorted(table, rest) <==> x in all[n..] {}
    SortedUnique(table, Sorted(table, rest), all[n..]);
  }

  lemma DropIsRest(table: Table, all: seq<PromptId>, n: nat)
    requires StrictlySorted(table, all) && 0 < n <= |all|
    ensures StrictlySorted(table, all[n..])
    ensures forall x :: x in all[n..] <==> x in all && Before(table, all[n - 1], x)
  {
    forall x ensures x in all[n..] <==> x in all && Before(table, all[n - 1], x) {
      if x in all[n..] {
        var k :| 0 <= k < |all[n..]| && all[n..][k] == x;
        assert all[n + k] == x;
      }
      if x in all && Before(table, all[n - 1], x) {
        var i :| 0 <= i < |all| && all[i] == x;
        assert all[n..][i - n] == x;
      }
    }
  }

  /** The page after the first `n` rows of the list holds the rows that follow them. */
  lemma NextPageFollows(table: Table, actor: Actor, query: Query, n: nat)
    requires query.cursor.Some? ==> query.cursor.value in table
    requires 0 < n <= |Sorted(table, ListedAfter(table, actor, query, query.cursor))|
    ensures var all := Sorted(table, ListedAfter(table, actor, query, query.cursor));
            all[n - 1] in table
            && Sorted(table, ListedAfter(table, actor, query, Some(all[n - 1]))) == all[n..]
  {
    var ids := ListedAfter(table, actor, query, query.cursor);
    var last := Sorted(table, ids)[n - 1];
    SortedSuffix(table, ids, n);
    hide Listed, Sorted, ListedAfter;
    assert last in ids;
    LaterCursor(table, actor, query, last);
  }

  /** A later cursor only narrows the list. */
  lemma LaterCursor(table: Table, actor: Actor, query: Query, last: PromptId)
    requires query.cursor.Some? ==> query.cursor.value in table
    requires last in ListedAfter(table, actor, query, query.cursor)
    ensures ListedAfter(table, actor, query, Some(last))
            == set x | x in ListedAfter(table, actor, query, query.cursor) && Before(table, last, x)
  {
    hide Listed;
  }

  /** What is true of the rows collected from the first `n` pages. */
  ghost predicate Collected(tables: seq<Table>, n: nat, actor: Actor, query: Query, items: seq<PromptId>)
    requires 1 <= n <= |tables|
  {
    && StrictlySorted(tables[n - 1], items)
    && NothingSkipped(tables, n, actor, query, items)
    && ListedOnSomePage(tables, n, actor, query, items)
  }

  predicate ListedOnSomePage(tables: seq<Table>, n: nat, actor: Actor, query: Query, items: seq<PromptId>)
    requires n <= |tables|
  {
    forall x :: x in items ==> exists i :: 0 <= i < n && x in Listed(tables[i], actor, query)
  }

  lemma ListedOnNextPage(tables: seq<Table>, n: nat, actor: Actor, query: Query, items: seq<PromptId>, next: seq<PromptId>)
    requires n < |tables| && ListedOnSomePage(tables, n, actor, query, items)
    requires forall x :: x in next ==> x in Listed(tables[n], actor, query)
    ensures ListedOnSomePage(tables, n + 1, actor, query, items + next)
  {
    hide Listed;
  }

  lemma SortedStays(before: Table, after: Table, items: seq<PromptId>)
    requires StrictlySorted(before, items) && Evolves(before, after)
    ensures StrictlySorted(after, items)
  {
    forall i, j | 0 <= i < j < |items| ensures Before(after, items[i], items[j]) {
      assert items[i] in before && items[j] in before;
    }
  }

  /** The rows of a page that starts after `cursor`. */
  lemma PageContents(table: Table, actor: Actor, query: Query, cursor: Option<PromptId>)
    requires cursor.Some? ==> CursorFound(table, actor, query, cursor.value)
    ensures var page := List(table, actor, query, cursor, PAGE_SIZE);
            && page.Some?
            && StrictlySorted(table, page.value.items) && |page.value.items| <= PAGE_SIZE
            && (forall x :: x in page.value.items ==> x in ListedAfter(table, actor, query, cursor))
            && (page.value.nextCursor.Some? ==>
                  |page.value.items| == PAGE_SIZE && page.value.nextCursor.value == page.value.items[PAGE_SIZE - 1])
            && (page.value.nextCursor.None? ==> forall x :: x in ListedAfter(table, actor, query, cursor) ==> x in page.value.items)
            && (page.value.nextCursor.Some? ==>
                  forall x :: x in ListedAfter(table, actor, query, cursor) && !Before(table, page.value.nextCursor.value, x)
                              ==> x in page.value.items)
  {
    SortedIsOrdered(table, ListedAfter(table, actor, query, cursor));
    PageOfOrdered(table, Sorted(table, ListedAfter(table, actor, query, cursor)));
    hide Listed, ListedAfter, Sorted, PageOf, StrictlySorted;
  }

  /** A page of an ordered list holds its first rows, in order. */
  lemma PageOfOrdered(table: Table, all: seq<PromptId>)
    requires StrictlySorted(table, all)
    ensures var page := PageOf(all, PAGE_SIZE);
            && StrictlySorted(table, page.items) && |page.items| <= PAGE_SIZE
            && (forall x :: x in page.items ==> x in all)
            && (page.nextCursor.Some? ==> |page.items| == PAGE_SIZE && page.nextCursor.value == page.items[PAGE_SIZE - 1])
            && (page.nextCursor.None? ==> page.items == all)
            && (page.nextCursor.Some? ==> forall x :: x in all && !Before(table, page.nextCursor.value, x) ==> x in page.items)
  {
    var items := PageOf(all, PAGE_SIZE).items;
    assert items == Take(all, PAGE_SIZE);
    if |all| > PAGE_SIZE {
      forall x | x in all && !Before(table, all[PAGE_SIZE - 1], x) ensures x in items {
        var i :| 0 <= i < |all| && all[i] == x;
        assert items[i] == x;
      }
    }
  }

  /** The state of the export before page `n`: which rows it has, and where it goes on. */
  ghost predicate ReadyFor(tables: seq<Table>, n: nat, actor: Actor, query: Query, items: seq<PromptId>, cursor: Option<PromptId>)
    requires n < |tables|
  {
    if n == 0 then items == [] && cursor == query.cursor
    else
      && Collected(tables, n, actor, query, items)
      && items != [] && cursor == Some(items[|items| - 1])
      && CursorFound(tables[n - 1], actor, query, items[|items| - 1])
      && (query.cursor.Some? ==> CursorFound(tables[0], actor, query, query.cursor.value))
  }

  lemma CursorStaysFound(tables: seq<Table>, n: nat, actor: Actor, query: Query, items: seq<PromptId>, cursor: Option<PromptId>)
    requires KeepsEvolving(tables) && n < |tables| && n > 0 && ReadyFor(tables, n, actor, query, items, cursor)
    ensures CursorFound(tables[n], actor, query, cursor.value)
    ensures query.cursor.Some? ==> query.cursor.value in tables[n]
  {
    hide Collected;
    assert Evolves(tables[n - 1], tables[n]) && Evolves(tables[0], tables[n]);
  }

  lemma PageKeepsOrder(before: Table, after: Table, items: seq<PromptId>, next: seq<PromptId>)
    requires StrictlySorted(before, items) && Evolves(before, after) && StrictlySorted(after, next)
    requires items != [] ==> forall x :: x in next ==> Before(after, items[|items| - 1], x)
    ensures StrictlySorted(after, items + next)
  {
    SortedStays(before, after, items);
    var all, n := items + next, |items|;
    assert forall x :: x in all ==> x in items || x in next;
    forall i, j | 0 <= i < j < |all| ensures Before(after, all[i], all[j]) {
      if i < n <= j {
        assert all[i] == items[i] && all[j] == next[j - n] && next[j - n] in next;
        assert items[n - 1] in items;
        assert i < n - 1 ==> Before(after, items[i], items[n - 1]);
      } else if n <= i {
        assert all[i] == next[i - n] && all[j] == next[j - n];
      } else {
        assert all[i] == items[i] && all[j] == items[j];
      }
    }
  }

  /** A row that stayed listed is among the rows collected so far or after the cursor. */
  lemma CollectedOrAhead(tables: seq<Table>, n: nat, actor: Actor, query: Query, items: seq<PromptId>, cursor: Option<PromptId>, x: PromptId)
    requires KeepsEvolving(tables) && n < |tables| && ReadyFor(tables, n, actor, query, items, cursor)
    requires cursor.Some? ==> CursorFound(tables[n], actor, query, cursor.value)
    requires ListedThroughout(tables, n + 1, actor, query, x)
    requires query.cursor.Some? ==> query.cursor.value in tables[n] && Before(tables[n], query.cursor.value, x)
    ensures x in items || x in ListedAfter(tables[n], actor, query, cursor)
  {
    assert x in Listed(tables[n], actor, query);
    if n > 0 {
      assert ListedThroughout(tables, n, actor, query, x);
      assert x in Listed(tables[n - 1], actor, query);
      assert Evolves(tables[n - 1], tables[n]) && Evolves(tables[0], tables[n - 1]);
      hide Listed, StrictlySorted, ListedOnSomePage;
    }
  }

  lemma PageSkipsNothing(tables: seq<Table>, n: nat, actor: Actor, query: Query, items: seq<PromptId>, cursor: Option<PromptId>)
    requires KeepsEvolving(tables) && n < |tables| && ReadyFor(tables, n, actor, query, items, cursor)
    requires cursor.Some? ==> CursorFound(tables[n], actor, query, cursor.value)
    ensures NothingSkipped(tables, n + 1, actor, query, items + List(tables[n], actor, query, cursor, PAGE_SIZE).value.items)
  {
    PageContents(tables[n], actor, query, cursor);
    var table, page := tables[n], List(tables[n], actor, query, cursor, PAGE_SIZE).value;
    var longer := items + page.items;
    hide List, StrictlySorted, Listed, ReadyFor;
    forall x | ListedThroughout(tables, n + 1, actor, query, x)
               && (query.cursor.Some? ==> query.cursor.value in table && Before(table, query.cursor.value, x))
               && (longer != [] ==> longer[|longer| - 1] in table && !Before(table, longer[|longer| - 1], x))
      ensures x in longer
    {
      CollectedOrAhead(tables, n, actor, query, items, cursor, x);
      hide ListedAfter, ListedThroughout;
      if page.nextCursor.Some? { assert longer[|longer| - 1] == page.nextCursor.value; }
    }
  }

  lemma PageKeepsCollected(tables: seq<Table>, n: nat, actor: Actor, query: Query, items: seq<PromptId>, cursor: Option<PromptId>)
    requires KeepsEvolving(tables) && n < |tables| && ReadyFor(tables, n, actor, query, items, cursor)
    requires cursor.Some? ==> CursorFound(tables[n], actor, query, cursor.value)
    ensures var page := List(tables[n], actor, query, cursor, PAGE_SIZE);
            && page.Some?
            && Collected(tables, n + 1, actor, query, items + page.value.items)
            && (n + 1 < |tables| && page.value.nextCursor.Some? ==>
                  ReadyFor(tables, n + 1, actor, query, items + page.value.items, page.value.nextCursor))
  {
    PageContents(tables[n], actor, query, cursor);
    PageSkipsNothing(tables, n, actor, query, items, cursor);
    PageInOrder(tables, n, actor, query, items, cursor);
    PageIsListed(tables, n, actor, query, items, cursor);
    NextCursorFound(tables, n, actor, query, cursor);
    hide List, NothingSkipped, ListedOnSomePage, StrictlySorted, Listed, ListedAfter;
  }

  lemma PageInOrder(tables: seq<Table>, n: nat, actor: Actor, query: Query, items: seq<PromptId>, cursor: Option<PromptId>)
    requires KeepsEvolving(tables) && n < |tables| && ReadyFor(tables, n, actor, query, items, cursor)
    requires cursor.Some? ==> CursorFound(tables[n], actor, query, cursor.value)
    ensures StrictlySorted(tables[n], items + List(tables[n], actor, query, cursor, PAGE_SIZE).value.items)
  {
    PageContents(tables[n], actor, query, cursor);
    var next := List(tables[n], actor, query, cursor, PAGE_SIZE).value.items;
    hide List, NothingSkipped, ListedOnSomePage, Listed;
    if n > 0 {
      assert Evolves(tables[n - 1], tables[n]);
      PageKeepsOrder(tables[n - 1], tables[n], items, next);
    } else {
      assert items + next == next;
    }
  }

  lemma PageIsListed(tables: seq<Table>, n: nat, actor: Actor, query: Query, items: seq<PromptId>, cursor: Option<PromptId>)
    requires KeepsEvolving(tables) && n < |tables| && ReadyFor(tables, n, actor, query, items, cursor)
    requires cursor.Some? ==> CursorFound(tables[n], actor, query, cursor.value)
    ensures ListedOnSomePage(tables, n + 1, actor, query, items + List(tables[n], actor, query, cursor, PAGE_SIZE).value.items)
  {
    PageContents(tables[n], actor, query, cursor);
    var next := List(tables[n], actor, query, cursor, PAGE_SIZE).value.items;
    assert forall x :: x in next ==> x in Listed(tables[n], actor, query);
    hide List, NothingSkipped, StrictlySorted, Listed;
    ListedOnNextPage(tables, n, actor, query, items, next);
  }

  lemma NextCursorFound(tables: seq<Table>, n: nat, actor: Actor, query: Query, cursor: Option<PromptId>)
    requires n < |tables|
    requires cursor.Some? ==> CursorFound(tables[n], actor, query, cursor.value)
    ensures var next := List(tables[n], actor, query, cursor, PAGE_SIZE).value.nextCursor;
            next.Some? ==> CursorFound(tables[n], actor, query, next.value)
  {
    PageContents(tables[n], actor, query, cursor);
    var page := List(tables[n], actor, query, cursor, PAGE_SIZE).value;
    if page.nextCursor.Some? {
      assert page.nextCursor.value in page.items;
      ListedIsVisible(tables[n], actor, query, page.nextCursor.value);
    }
    hide List, Listed, StrictlySorted;
  }

  lemma ListedIsVisible(table: Table, actor: Actor, query: Query, x: PromptId)
    requires x in Listed(table, actor, query)
    ensures CursorFound(table, actor, query, x)
  {
    hide SearchIds, ScoreMatches;
  }

  /** The rows collected from `n` pages are the first of the list, and `cursor` is where it
      goes on. */
  predicate IsPrefixOf(all: seq<PromptId>, n: nat, items: seq<PromptId>, cursor: Option<PromptId>) {
    && items == Take(all, PAGE_SIZE * n)
    && (n > 0 ==> cursor == if |all| > PAGE_SIZE * n then Some(all[PAGE_SIZE * n - 1]) else None)
  }

  lemma PageExtendsPrefix(all: seq<PromptId>, n: nat, items: seq<PromptId>, cursor: Option<PromptId>)
    requires IsPrefixOf(all, n, items, cursor) && (n == 0 || |all| > PAGE_SIZE * n)
    ensures var page := PageOf(all[PAGE_SIZE * n..], PAGE_SIZE);
            IsPrefixOf(all, n + 1, items + page.items, page.nextCursor)
  {
  }

  /** On unchanging data a page is the part of the list that follows the pages before. */
  lemma PageIsNextPart(table: Table, actor: Actor, query: Query, n: nat, cursor: Option<PromptId>)
    requires query.cursor.Some? ==> query.cursor.value in table
    requires cursor.Some? ==> CursorFound(table, actor, query, cursor.value)
    requires var all := Sorted(table, ListedAfter(table, actor, query, query.cursor));
             if n == 0 then cursor == query.cursor else |all| > PAGE_SIZE * n && cursor == Some(all[PAGE_SIZE * n - 1])
    ensures var all := Sorted(table, ListedAfter(table, actor, query, query.cursor));
            PAGE_SIZE * n <= |all| && List(table, actor, query, cursor, PAGE_SIZE) == Some(PageOf(all[PAGE_SIZE * n..], PAGE_SIZE))
  {
    if n == 0 {
      var all := Sorted(table, ListedAfter(table, actor, query, query.cursor));
      assert all[PAGE_SIZE * n..] == all;
    } else {
      NextPageFollows(table, actor, query, PAGE_SIZE * n);
    }
    hide Sorted, Listed, ListedAfter, PageOf;
  }

  /** On unchanging data the pages read so far are the first rows of the list. */
  ghost predicate FollowsList(tables: seq<Table>, n: nat, actor: Actor, query: Query, items: seq<PromptId>, cursor: Option<PromptId>)
    requires tables != []
  {
    (forall i :: 0 <= i < |tables| ==> tables[i] == tables[0]) && (query.cursor.Some? ==> query.cursor.value in tables[0]) ==>
      IsPrefixOf(Sorted(tables[0], ListedAfter(tables[0], actor, query, query.cursor)), n, items, cursor)
  }

  lemma NextPageKeepsFollowing(tables: seq<Table>, n: nat, actor: Actor, query: Query, items: seq<PromptId>, cursor: Option<PromptId>)
    requires n < |tables| && FollowsList(tables, n, actor, query, items, cursor)
    requires cursor.Some? ==> CursorFound(tables[n], actor, query, cursor.value)
    requires if n == 0 then cursor == query.cursor else cursor.Some?
    ensures var page := List(tables[n], actor, query, cursor, PAGE_SIZE);
            page.Some? && FollowsList(tables, n + 1, actor, query, items + page.value.items, page.value.nextCursor)
  {
    if (forall i :: 0 <= i < |tables| ==> tables[i] == tables[0]) && (query.cursor.Some? ==> query.cursor.value in tables[0]) {
      var all := Sorted(tables[0], ListedAfter(tables[0], actor, query, query.cursor));
      PageIsNextPart(tables[0], actor, query, n, cursor);
      PageExtendsPrefix(all, n, items, cursor);
    }
    hide Sorted, ListedAfter, IsPrefixOf, PageOf;
  }

  /** One turn of the loop: the page is there unless the query's own cursor is unknown. */
  lemma OnePage(tables: seq<Table>, n: nat, actor: Actor, query: Query, items: seq<PromptId>, cursor: Option<PromptId>)
    requires KeepsEvolving(tables) && n < |tables| && ReadyFor(tables, n, actor, query, items, cursor)
    requires FollowsList(tables, n, actor, query, items, cursor)
    ensures var page := List(tables[n], actor, query, cursor, PAGE_SIZE);
            && (page.None? <==> n == 0 && query.cursor.Some? && !CursorFound(tables[0], actor, query, query.cursor.value))
            && (page.Some? ==>
                  && |page.value.items| <= PAGE_SIZE && (page.value.nextCursor.Some? ==> |page.value.items| == PAGE_SIZE)
                  && (query.cursor.Some? ==> CursorFound(tables[0], actor, query, query.cursor.value))
                  && Collected(tables, n + 1, actor, query, items + page.value.items)
                  && (n + 1 < |tables| && page.value.nextCursor.Some? ==>
                        ReadyFor(tables, n + 1, actor, query, items + page.value.items, page.value.nextCursor))
                  && FollowsList(tables, n + 1, actor, query, items + page.value.items, page.value.nextCursor))
  {
    if n > 0 { CursorStaysFound(tables, n, actor, query, items, cursor); }
    if cursor.Some? ==> CursorFound(tables[n], actor, query, cursor.value) {
      PageKeepsCollected(tables, n, actor, query, items, cursor);
      PageContents(tables[n], actor, query, cursor);
      NextPageKeepsFollowing(tables, n, actor, query, items, cursor);
    }
    hide Sorted, Listed, ListedAfter, Collected, FollowsList, StrictlySorted, PageOf;
  }

  lemma NothingIsAPrefix(tables: seq<Table>, actor: Actor, query: Query)
    requires tables != []
    ensures FollowsList(tables, 0, actor, query, [], query.cursor)
  {
  }

  lemma AllIsTheList(tables: seq<Table>, n: nat, actor: Actor, query: Query, items: seq<PromptId>, cursor: Option<PromptId>)
    requires tables != [] && n > 0 && FollowsList(tables, n, actor, query, items, cursor)
    requires cursor.None? || |items| >= EXPORT_LIMIT
    requires query.cursor.Some? ==> query.cursor.value in tables[0]
    requires forall i :: 0 <= i < |tables| ==> tables[i] == tables[0]
    ensures Take(items, EXPORT_LIMIT) == SimpleList(tables[0], actor, query)
  {
    hide Sorted, ListedAfter;
  }

  lemma StartsReady(tables: seq<Table>, actor: Actor, query: Query)
    requires tables != []
    ensures ReadyFor(tables, 0, actor, query, [], query.cursor)
  {
  }

  lemma CollectedIs(tables: seq<Table>, n: nat, actor: Actor, query: Query, items: seq<PromptId>)
    requires 1 <= n <= |tables| && Collected(tables, n, actor, query, items)
    ensures StrictlySorted(tables[n - 1], items) && NothingSkipped(tables, n, actor, query, items)
    ensures ListedOnSomePage(tables, n, actor, query, items)
  {
  }

  /** The page loop of the export. */
  method CollectPages(tables: seq<Table>, actor: Actor, query: Query) returns (exported: Option<seq<PromptId>>, pages: nat)
    requires KeepsEvolving(tables)
    ensures exported.None? <==> query.cursor.Some? && !CursorFound(tables[0], actor, query, query.cursor.value)
    ensures exported.Some? ==>
              && 1 <= pages <= |tables| && |exported.value| <= EXPORT_LIMIT
              && StrictlySorted(tables[pages - 1], exported.value)
              && NothingSkipped(tables, pages, actor, query, exported.value)
              && ListedOnSomePage(tables, pages, actor, query, exported.value)
    ensures exported.Some? && (forall i :: 0 <= i < |tables| ==> tables[i] == tables[0]) ==>
              exported.value == SimpleList(tables[0], actor, query)
    ensures exported.Some? ==> 100 * (pages - 1) <= |exported.value| <= 100 * pages
  {
    hide List, FollowsList, Collected, ReadyFor, SimpleList, NothingSkipped, ListedOnSomePage, StrictlySorted;
    NothingIsAPrefix(tables, actor, query);
    var items: seq<PromptId> := [];
    var cursor := query.cursor;
    var more := true;
    pages := 0;
    StartsReady(tables, actor, query);
    while more
      invariant pages <= |tables|
      invariant |items| <= PAGE_SIZE * pages
      invariant pages > 0 ==> PAGE_SIZE * (pages - 1) <= |items|
      invariant more ==> |items| == PAGE_SIZE * pages && pages < |tables|
      invariant more ==> ReadyFor(tables, pages, actor, query, items, cursor)
      invariant !more ==> pages > 0 && (cursor.None? || |items| >= EXPORT_LIMIT)
      invariant pages > 0 ==> Collected(tables, pages, actor, query, items)
      invariant pages > 0 && query.cursor.Some? ==> CursorFound(tables[0], actor, query, query.cursor.value)
      invariant FollowsList(tables, pages, actor, query, items, cursor)
      decreases |tables| - pages
    {
      OnePage(tables, pages, actor, query, items, cursor);
      var page := List(tables[pages], actor, query, cursor, PAGE_SIZE);
      if page.None? {
        return None, pages;
      }
      items := items + page.value.items;
      cursor := page.value.nextCursor;
      pages := pages + 1;
      more := cursor.Some? && |items| < EXPORT_LIMIT;
    }
    CollectedIs(tables, pages, actor, query, items);
    if forall i :: 0 <= i < |tables| ==> tables[i] == tables[0] {
      AllIsTheList(tables, pages, actor, query, items, cursor);
    }
    exported := Some(Take(items, EXPORT_LIMIT));
  }

  /** `tables[i]` is what the query of page i sees. Returns the exported rows and how many
      pages were read. A user exports only rows that the user may read and asked for. */
  method Export(tables: seq<Table>, actor: Actor, query: Query) returns (exported: Option<seq<PromptId>>, pages: nat)
    requires KeepsEvolving(tables)
    ensures exported.None? <==> query.cursor.Some? && !CursorFound(tables[0], actor, query, query.cursor.value)
    ensures query.cursor.Some? ==>
              (exported.None? <==>
                 var cursor := query.cursor.value;
                 !(&& cursor in tables[0] && tables[0][cursor].tenantId == actor.tenantId
                   && (actor.role == MEMBER || actor.role == VIEWER || query.mine ==> tables[0][cursor].userId == actor.userId)
                   && ((actor.role == OWNER || actor.role == ADMIN) && !query.mine && query.userId.Some?
                       ==> Some(tables[0][cursor].userId) == query.userId)))
    ensures exported.Some? ==> 1 <= pages <= |tables| == 10 && 100 * (pages - 1) <= |exported.value| <= 100 * pages
    ensures exported.Some? ==>
              forall i, j :: 0 <= i < j < |exported.value| ==>
                var table, x, y := tables[pages - 1], exported.value[i], exported.value[j];
                && x in table && y in table
                && (table[x].occurredAt > table[y].occurredAt || (table[x].occurredAt == table[y].occurredAt && x > y))
    ensures exported.Some? ==>
              && |exported.value| <= 1_000
              && forall x :: x in exported.value ==>
                   exists i :: && 0 <= i < pages <= |tables| && x in tables[i]
                               && tables[i][x].tenantId == actor.tenantId && !tables[i][x].deleted
                               && (actor.role == MEMBER || actor.role == VIEWER ==> tables[i][x].userId == actor.userId)
                               && IsAskedFor(actor, query, tables[i][x])
    ensures exported.Some? ==>
              && 1 <= pages <= |tables| && |exported.value| <= EXPORT_LIMIT
              && StrictlySorted(tables[pages - 1], exported.value)
              && NothingSkipped(tables, pages, actor, query, exported.value)
              && ListedOnSomePage(tables, pages, actor, query, exported.value)
    ensures exported.Some? && (forall i :: 0 <= i < |tables| ==> tables[i] == tables[0]) ==>
              exported.value == SimpleList(tables[0], actor, query)
  {
    exported, pages := CollectPages(tables, actor, query);
    if exported.Some? {
      AskedForOnSomePage(tables, pages, actor, query, exported.value);
    }
    hide NothingSkipped, ListedOnSomePage, SimpleList, IsAskedFor;
  }

  /** Every collected row was asked for when its page was read. */
  lemma AskedForOnSomePage(tables: seq<Table>, n: nat, actor: Actor, query: Query, items: seq<PromptId>)
    requires n <= |tables| && ListedOnSomePage(tables, n, actor, query, items)
    ensures forall x :: x in items ==> exists i :: 0 <= i < n && x in tables[i] && IsAskedFor(actor, query, tables[i][x])
  {
    forall x | x in items ensures exists i :: 0 <= i < n && x in tables[i] && IsAskedFor(actor, query, tables[i][x]) {
      var i :| 0 <= i < n && x in Listed(tables[i], actor, query);
      ListedIff(tables[i], actor, query, x);
    }
  }
}
