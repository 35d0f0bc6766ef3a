/** Run lists: pages in descending order of creation, and the cursors that chain them. */
module RunPages {
  import opened Timestamps
  import opened Wrappers

  datatype Run = Run(id: string, createdAt: Civil, functionId: string, status: string, eventId: string)

  /** Empty values do not filter. */
  datatype Filter = Filter(functionId: string, status: string, eventId: string)

  function KeyOf(r: Run): Key {
    (r.createdAt, r.id)
  }

  /** Earlier, or as early with a smaller id. */
  predicate KeyLess(a: Key, b: Key) {
    TimeLess(a.0, b.0) || (a.0 == b.0 && TextLess(a.1, b.1))
  }

  lemma TimeLessTotal(a: Civil, b: Civil)
    ensures TimeLess(a, b) || TimeLess(b, a) || a == b
    ensures !(TimeLess(a, b) && TimeLess(b, a))
  {
  }

  lemma TimeLessTransitive(a: Civil, b: Civil, c: Civil)
    requires TimeLess(a, b) && TimeLess(b, c)
    ensures TimeLess(a, c)
  {
  }

  lemma KeyLessTotal(a: Key, b: Key)
    ensures KeyLess(a, b) || KeyLess(b, a) || a == b
    ensures !(KeyLess(a, b) && KeyLess(b, a)) && !KeyLess(a, a)
  {
    TimeLessTotal(a.0, b.0);
    TextLessTotal(a.1, b.1);
    TextLessIrreflexive(a.1);
    TimeLessTotal(a.0, a.0);
    if TextLess(a.1, b.1) && TextLess(b.1, a.1) {
      TextLessTransitive(a.1, b.1, a.1);
    }
  }

  lemma KeyLessTransitive(a: Key, b: Key, c: Key)
    requires KeyLess(a, b) && KeyLess(b, c)
    ensures KeyLess(a, c)
  {
    if TimeLess(a.0, b.0) && TimeLess(b.0, c.0) {
      TimeLessTransitive(a.0, b.0, c.0);
    } else if a.0 == b.0 && b.0 == c.0 {
      TextLessTransitive(a.1, b.1, c.1);
    }
  }

  predicate Matches(o: Filter, r: Run) {
    && (o.functionId == "" || r.functionId == o.functionId)
    && (o.status == "" || r.status == o.status)
    && (o.eventId == "" || r.eventId == o.eventId)
  }

  predicate Under(cursor: Option<Key>, r: Run) {
    cursor.None? || KeyLess(KeyOf(r), cursor.value)
  }

  function ClampLimit(n: int): (r: nat)
    ensures 1 <= r <= 200 && (r == n || (r == 50 && !(1 <= n <= 200)))
  {
    if n <= 0 || n > 200 then 50 else n
  }

  predicate Descending(rs: seq<Run>) {
    forall i, j :: 0 <= i < j < |rs| ==> KeyLess(KeyOf(rs[j]), KeyOf(rs[i]))
  }

  /** Rows of a table: real times, distinct ids. */
  predicate Keyed(rows: set<Run>) {
    && (forall r :: r in rows ==> Real(r.createdAt))
    && (forall r, q :: r in rows && q in rows && r.id == q.id ==> r == q)
  }

  /** The first `limit` matching rows under the cursor, in descending order. */
  ghost predicate IsPage(rows: set<Run>, o: Filter, cursor: Option<Key>, limit: nat, page: seq<Run>) {
    && Descending(page) && |page| <= limit
    && (forall r :: r in page ==> r in rows && Matches(o, r) && Under(cursor, r))
    && (forall r :: r in rows && Matches(o, r) && Under(cursor, r) ==>
          r in page || (|page| == limit && page != [] && KeyLess(KeyOf(r), KeyOf(page[|page| - 1]))))
  }

  /** That determines a page. */
  lemma {:induction false} PageUnique(rows: set<Run>, o: Filter, cursor: Option<Key>, limit: nat, p: seq<Run>, q: seq<Run>)
    requires Keyed(rows) && IsPage(rows, o, cursor, limit, p) && IsPage(rows, o, cursor, limit, q)
    ensures p == q
  {
    var n := 0;
    while n < |p| && n < |q|
      invariant n <= |p| && n <= |q| && p[..n] == q[..n]
    {
      SameNext(rows, o, cursor, limit, p, q, n);
      assert p[..n + 1] == p[..n] + [p[n]] && q[..n + 1] == q[..n] + [q[n]];
      n := n + 1;
    }
    if n < |p| {
      NoNext(rows, o, cursor, limit, p, q);
    } else if n < |q| {
      NoNext(rows, o, cursor, limit, q, p);
    }
    assert p[..|p|] == p && q[..|q|] == q;
  }

  lemma SameNext(rows: set<Run>, o: Filter, cursor: Option<Key>, limit: nat, p: seq<Run>, q: seq<Run>, n: nat)
    requires IsPage(rows, o, cursor, limit, p) && IsPage(rows, o, cursor, limit, q)
    requires n < |p| && n < |q| && p[..n] == q[..n] && Keyed(rows)
    ensures p[n] == q[n]
  {
    assert p[n] in p && q[n] in q;
    KeyLessTotal(KeyOf(p[n]), KeyOf(q[n]));
    if KeyLess(KeyOf(p[n]), KeyOf(q[n])) {
      NotLater(rows, o, cursor, limit, p, q, n);
    } else if KeyLess(KeyOf(q[n]), KeyOf(p[n])) {
      NotLater(rows, o, cursor, limit, q, p, n);
    }
  }

  /** The n-th run of a page is no earlier than that of another page that starts alike. */
  lemma NotLater(rows: set<Run>, o: Filter, cursor: Option<Key>, limit: nat, p: seq<Run>, q: seq<Run>, n: nat)
    requires IsPage(rows, o, cursor, limit, p) && IsPage(rows, o, cursor, limit, q)
    requires n < |p| && n < |q| && p[..n] == q[..n]
    ensures !KeyLess(KeyOf(p[n]), KeyOf(q[n]))
  {
    if KeyLess(KeyOf(p[n]), KeyOf(q[n])) {
      var r := q[n];
      assert r in q;
      KeyLessTotal(KeyOf(p[n]), KeyOf(r));
      if r in p {
        var i :| 0 <= i < |p| && p[i] == r;
        KeyLessTotal(KeyOf(r), KeyOf(r));
      } else {
        var last := p[|p| - 1];
        if n < |p| - 1 {
          assert KeyLess(KeyOf(last), KeyOf(p[n]));
          KeyLessTransitive(KeyOf(r), KeyOf(last), KeyOf(p[n]));
        }
      }
    }
  }

  /** A page that another one continues is that page. */
  lemma NoNext(rows: set<Run>, o: Filter, cursor: Option<Key>, limit: nat, p: seq<Run>, q: seq<Run>)
    requires IsPage(rows, o, cursor, limit, p) && IsPage(rows, o, cursor, limit, q) && |q| <= |p| && q == p[..|q|]
    ensures |p| == |q|
  {
    if |q| < |p| {
      var r := p[|q|];
      assert r in p;
      if r in q {
        var i :| 0 <= i < |q| && q[i] == r;
        assert p[i] == r;
        KeyLessTotal(KeyOf(r), KeyOf(r));
      }
    }
  }

  /** The comparison the query makes on its text columns. */
  predicate TextKeyLess(at: string, id: string, cursorAt: string, cursorId: string) {
    TextLess(at, cursorAt) || (at == cursorAt && TextLess(id, cursorId))
  }

  lemma TextKeyLessIs(a: Key, b: Key)
    requires Real(a.0) && Real(b.0)
    ensures TextKeyLess(FmtTime(a.0), a.1, FmtTime(b.0), b.1) <==> KeyLess(a, b)
  {
    TextOrderIsTimeOrder(a.0, b.0);
    StoredTimeReads(a.0);
    StoredTimeReads(b.0);
  }

  /** The runs table; times are kept as text. */
  class RunTable {
    var rows: set<Run>

    /** The last of `rest` in the order of the query. */
    static method Latest(rest: set<Run>) returns (top: Run)
      requires rest != {} && Keyed(rest)
      ensures top in rest && forall r :: r in rest && r != top ==> KeyLess(KeyOf(r), KeyOf(top))
    {
      top :| top in rest;
      var todo := rest - {top};
      while todo != {}
        invariant top in rest && todo <= rest && top !in todo
        invariant forall r :: r in rest && r !in todo && r != top ==> KeyLess(KeyOf(r), KeyOf(top))
        decreases |todo|
      {
        var r :| r in todo;
        todo := todo - {r};
        TextKeyLessIs(KeyOf(top), KeyOf(r));
        KeyLessTotal(KeyOf(top), KeyOf(r));
        if TextKeyLess(FmtTime(top.createdAt), top.id, FmtTime(r.createdAt), r.id) {
          forall q | q in rest && q !in todo && q != r ensures KeyLess(KeyOf(q), KeyOf(r)) {
            if q != top { KeyLessTransitive(KeyOf(q), KeyOf(top), KeyOf(r)); }
          }
          top := r;
        }
      }
    }

    /** The rows the query selects. */
    method Select(o: Filter, cursor: Option<Key>) returns (found: set<Run>)
      requires Keyed(rows) && (cursor.Some? ==> Real(cursor.value.0))
      ensures forall r :: r in found <==> r in rows && Matches(o, r) && Under(cursor, r)
    {
      found := set r | r in rows
                         && !(o.functionId != "" && r.functionId != o.functionId)
                         && !(o.status != "" && r.status != o.status) && !(o.eventId != "" && r.eventId != o.eventId)
                         && (cursor.None? || TextKeyLess(FmtTime(r.createdAt), r.id, FmtTime(cursor.value.0), cursor.value.1));
      if cursor.Some? {
        forall r | r in rows
          ensures TextKeyLess(FmtTime(r.createdAt), r.id, FmtTime(cursor.value.0), cursor.value.1) <==> KeyLess(KeyOf(r), cursor.value)
        {
          TextKeyLessIs(KeyOf(r), cursor.value);
        }
      }
    }

    /** The latest `limit` of `found`, in descending order. */
    static method Top(found: set<Run>, limit: nat) returns (page: seq<Run>)
      requires Keyed(found)
      ensures Descending(page) && |page| <= limit && forall r :: r in page ==> r in found
      ensures forall r :: r in found ==>
                r in page || (|page| == limit && forall q :: q in page ==> KeyLess(KeyOf(r), KeyOf(q)))
    {
      page := [];
      var rest := found;
      while |page| < limit && rest != {}
        invariant Descending(page) && |page| <= limit && rest <= found
        invariant forall r :: r in page ==> r in found
        invariant forall r :: r in found ==> r in rest || r in page
        invariant forall r, q :: r in rest && q in page ==> KeyLess(KeyOf(r), KeyOf(q))
        decreases |rest|
      {
        var top := Latest(rest);
        assert forall i :: 0 <= i < |page| ==> page[i] in page;
        page := page + [top];
        rest := rest - {top};
      }
    }

    /** `ListRuns`. A `before` that is no cursor counts as none. */
    method ListRuns(o: Filter, before: string, limit: int) returns (page: seq<Run>)
      requires Keyed(rows)
      ensures IsPage(rows, o, SplitRunCursor(before), ClampLimit(limit), page)
    {
      var cursor := SplitRunCursor(before);
      var found := Select(o, cursor);
      page := Top(found, ClampLimit(limit));
      assert page != [] ==> page[|page| - 1] in page;
    }
  }

  /** Pages fetched one after the other from a table that may grow in between, each with
      the cursor of the last run before it. */
  ghost predicate Chain(tables: seq<set<Run>>, o: Filter, cursor: Option<Key>, limit: nat, pages: seq<seq<Run>>)
    requires |tables| == |pages|
  {
    pages != [] ==>
      && IsPage(tables[0], o, cursor, limit, pages[0])
      && (if pages[0] == [] then |pages| == 1
          else Chain(tables[1..], o, Some(KeyOf(pages[0][|pages[0]| - 1])), limit, pages[1..]))
  }

  function Flat(pages: seq<seq<Run>>): seq<Run> {
    if pages == [] then [] else pages[0] + Flat(pages[1..])
  }

  predicate Growing(tables: seq<set<Run>>) {
    forall i, j :: 0 <= i < j < |tables| ==> tables[i] <= tables[j]
  }

  lemma {:induction false} FlatUnder(tables: seq<set<Run>>, o: Filter, cursor: Option<Key>, limit: nat, pages: seq<seq<Run>>, r: Run)
    requires |tables| == |pages| && Chain(tables, o, cursor, limit, pages) && r in Flat(pages)
    ensures Under(cursor, r) && Matches(o, r) && exists k :: 0 <= k < |tables| && r in tables[k]
  {
    if r !in pages[0] {
      var last := pages[0][|pages[0]| - 1];
      FlatUnder(tables[1..], o, Some(KeyOf(last)), limit, pages[1..], r);
      assert last in pages[0];
      if cursor.Some? {
        KeyLessTransitive(KeyOf(r), KeyOf(last), cursor.value);
      }
      var k :| 0 <= k < |tables[1..]| && r in tables[1..][k];
      assert tables[k + 1] == tables[1..][k];
    }
  }

  /** All pages together are in descending order, so nothing is listed twice. */
  lemma {:induction false} ChainDescends(tables: seq<set<Run>>, o: Filter, cursor: Option<Key>, limit: nat, pages: seq<seq<Run>>)
    requires |tables| == |pages| && Chain(tables, o, cursor, limit, pages)
    ensures Descending(Flat(pages))
  {
    if pages != [] && pages[0] != [] {
      var first, rest := pages[0], Flat(pages[1..]);
      var last := first[|first| - 1];
      ChainDescends(tables[1..], o, Some(KeyOf(last)), limit, pages[1..]);
      forall i, j | 0 <= i < |first| && 0 <= j < |rest| ensures KeyLess(KeyOf(rest[j]), KeyOf(first[i])) {
        assert rest[j] in rest;
        FlatUnder(tables[1..], o, Some(KeyOf(last)), limit, pages[1..], rest[j]);
        if i < |first| - 1 { KeyLessTransitive(KeyOf(rest[j]), KeyOf(last), KeyOf(first[i])); }
      }
    }
  }

  /** Followed to a page that is not full, the pages list every matching run that was there
      at the start, whatever is inserted meanwhile. */
  lemma {:induction false} ChainMissesNone(tables: seq<set<Run>>, o: Filter, cursor: Option<Key>, limit: nat, pages: seq<seq<Run>>, r: Run)
    requires |tables| == |pages| && Chain(tables, o, cursor, limit, pages) && Growing(tables)
    requires pages != [] && |pages[|pages| - 1]| < limit
    requires r in tables[0] && Matches(o, r) && Under(cursor, r)
    ensures r in Flat(pages)
  {
    if r !in pages[0] {
      var last := pages[0][|pages[0]| - 1];
      assert |pages| > 1;
      assert tables[0] <= tables[1];
      ChainMissesNone(tables[1..], o, Some(KeyOf(last)), limit, pages[1..], r);
    }
  }

  /** Pagination is exact: if the runs inserted meanwhile are later than those there at the
      start, following the cursors to the end lists exactly the matching runs of the
      start, each once, in descending order. */
  lemma PaginationExact(tables: seq<set<Run>>, o: Filter, limit: nat, pages: seq<seq<Run>>)
    requires |tables| == |pages| && Chain(tables, o, None, limit, pages) && Growing(tables)
    requires pages != [] && |pages[|pages| - 1]| < limit
    requires forall k, r, q :: 0 <= k < |tables| && r in tables[k] && r !in tables[0] && q in tables[0] ==> KeyLess(KeyOf(q), KeyOf(r))
    ensures Descending(Flat(pages))
    ensures forall r :: r in Flat(pages) <==> r in tables[0] && Matches(o, r)
  {
    ChainDescends(tables, o, None, limit, pages);
    forall r | r in tables[0] && Matches(o, r) ensures r in Flat(pages) {
      ChainMissesNone(tables, o, None, limit, pages, r);
    }
    forall r | r in Flat(pages) ensures r in tables[0] && Matches(o, r) {
      FlatUnder(tables, o, None, limit, pages, r);
      if r !in pages[0] {
        var last := pages[0][|pages[0]| - 1];
        FlatUnder(tables[1..], o, Some(KeyOf(last)), limit, pages[1..], r);
        assert last in pages[0];
        var k :| 0 <= k < |tables| && r in tables[k];
        KeyLessTotal(KeyOf(r), KeyOf(last));
      }
    }
  }

  // ---------- fetching page after page ----------

  /** A run whose cursor can be split again. */
  predicate Splits(r: Run) {
    Real(r.createdAt) && r.id != "" && '|' !in r.id
  }

  /** The key after which a list of runs goes on. */
  function After(runs: seq<Run>): Option<Key> {
    if runs == [] then None else Some(KeyOf(runs[|runs| - 1]))
  }

  function Left(rows: set<Run>, o: Filter, cursor: Option<Key>): set<Run> {
    set r | r in rows && Matches(o, r) && Under(cursor, r)
  }

  /** The pages fetched so far, each from the table of its time; only the last can be empty. */
  ghost predicate Fetched(tables: seq<set<Run>>, o: Filter, limit: nat, pages: seq<seq<Run>>, runs: seq<Run>) {
    && |tables| == |pages| && pages != [] && |pages[|pages| - 1]| <= limit
    && Chain(tables, o, None, limit, pages) && runs == Flat(pages) && Growing(tables)
    && forall k :: 0 <= k < |pages| - 1 ==> pages[k] != []
  }

  lemma {:induction false} FlatSnoc(pages: seq<seq<Run>>, page: seq<Run>)
    ensures Flat(pages + [page]) == Flat(pages) + page
  {
    var all := pages + [page];
    if pages == [] {
      assert all == [page] && all[1..] == [];
      assert Flat([]) == [];
    } else {
      assert all[1..] == pages[1..] + [page];
      FlatSnoc(pages[1..], page);
    }
  }

  lemma FlatLast(pages: seq<seq<Run>>)
    requires pages != [] && pages[|pages| - 1] != []
    ensures After(Flat(pages)) == After(pages[|pages| - 1])
  {
    var page := pages[|pages| - 1];
    assert pages[..|pages| - 1] + [page] == pages;
    FlatSnoc(pages[..|pages| - 1], page);
  }

  lemma {:induction false} ChainSnoc(tables: seq<set<Run>>, o: Filter, cursor: Option<Key>, limit: nat, pages: seq<seq<Run>>,
                                     rows: set<Run>, page: seq<Run>)
    requires |tables| == |pages| && Chain(tables, o, cursor, limit, pages) && forall k :: 0 <= k < |pages| ==> pages[k] != []
    requires IsPage(rows, o, if pages == [] then cursor else After(pages[|pages| - 1]), limit, page)
    ensures Chain(tables + [rows], o, cursor, limit, pages + [page])
  {
    var ts, ps := tables + [rows], pages + [page];
    if pages == [] {
      assert ts[1..] == [] && ps[1..] == [];
    } else {
      assert ts[1..] == tables[1..] + [rows] && ps[1..] == pages[1..] + [page];
      ChainSnoc(tables[1..], o, After(pages[0]), limit, pages[1..], rows, page);
    }
  }

  lemma FetchedFirst(rows: set<Run>, o: Filter, limit: nat, page: seq<Run>)
    requires IsPage(rows, o, None, limit, page)
    ensures Fetched([rows], o, limit, [page], page)
  {
    FlatSnoc([], page);
    assert [] + [page] == [page];
    ChainSnoc([], o, None, limit, [], rows, page);
    assert [] + [rows] == [rows];
  }

  lemma FetchedOn(tables: seq<set<Run>>, o: Filter, limit: nat, pages: seq<seq<Run>>, runs: seq<Run>, rows: set<Run>, page: seq<Run>)
    requires Fetched(tables, o, limit, pages, runs) && pages[|pages| - 1] != [] && IsPage(rows, o, After(runs), limit, page)
    requires tables[|tables| - 1] <= rows
    ensures Fetched(tables + [rows], o, limit, pages + [page], runs + page)
  {
    FlatLast(pages);
    ChainSnoc(tables, o, None, limit, pages, rows, page);
    FlatSnoc(pages, page);
    forall k | 0 <= k < |tables| ensures tables[k] <= rows {
      assert tables[k] <= tables[|tables| - 1];
    }
  }

  lemma FewerLeft(rows: set<Run>, o: Filter, runs: seq<Run>, limit: nat, page: seq<Run>)
    requires IsPage(rows, o, After(runs), limit, page) && page != []
    ensures |Left(rows, o, After(runs + page))| < |Left(rows, o, After(runs))|
  {
    var last := page[|page| - 1];
    assert last in page;
    assert After(runs + page) == Some(KeyOf(last));
    var now, next := Left(rows, o, After(runs)), Left(rows, o, After(runs + page));
    forall r | r in next ensures r in now {
      if runs != [] { KeyLessTransitive(KeyOf(r), KeyOf(last), After(runs).value); }
    }
    KeyLessTotal(KeyOf(last), KeyOf(last));
    assert last in now && last !in next;
    Smaller(next, now, last);
  }

  lemma Smaller(a: set<Run>, b: set<Run>, r: Run)
    requires a <= b && r in b && r !in a
    ensures |a| < |b|
  {
    var rest := b - a;
    assert r in rest && b == a + rest && a !! rest;
    assert |b| == |a| + |rest|;
  }

  /** The tables and pages of all requests so far. */
  datatype History = History(tables: seq<set<Run>>, pages: seq<seq<Run>>) {
    function LastPage(): seq<Run> {
      if pages == [] then [] else pages[|pages| - 1]
    }

    /** The table of the first request. */
    function Before(): set<Run> {
      if tables == [] then {} else tables[0]
    }
  }

  /** What a table got in between is later than what it had. */
  predicate LaterOnly(before: set<Run>, rows: set<Run>) {
    forall r, q :: r in rows && r !in before && q in before ==> KeyLess(KeyOf(q), KeyOf(r))
  }

  /** The list of the dashboard: what it shows, and the table behind it. */
  class RunList {
    const table: RunTable
    var runs: seq<Run>

    constructor (table: RunTable)
      ensures this.table == table && runs == []
    {
      this.table, runs := table, [];
    }

    /** One request: the first, or one for more with the cursor of the last run shown. */
    method LoadMore(o: Filter, limit: int) returns (page: seq<Run>)
      requires Keyed(table.rows) && forall r :: r in runs ==> Splits(r)
      modifies this
      ensures IsPage(table.rows, o, After(old(runs)), ClampLimit(limit), page) && runs == old(runs) + page
    {
      var before := "";
      if runs != [] {
        var last := runs[|runs| - 1];
        assert last in runs;
        CursorReads(KeyOf(last));
        before := Cursor(KeyOf(last));
      }
      page := table.ListRuns(o, before, limit);
      runs := runs + page;
    }

    ghost predicate Within(world: set<Run>)
      reads this, table
    {
      && Keyed(world) && (forall r :: r in world ==> Splits(r))
      && table.rows <= world && forall r :: r in runs ==> r in world
    }

    /** The pages so far, and the table the last of them is from. */
    ghost predicate Shows(o: Filter, limit: nat, h: History)
      reads this, table
    {
      Fetched(h.tables, o, limit, h.pages, runs) && table.rows == h.tables[|h.tables| - 1]
    }

    /** The first request. */
    method Open(o: Filter, limit: int, ghost world: set<Run>) returns (page: seq<Run>, ghost h: History)
      requires runs == [] && Within(world)
      modifies this
      ensures Within(world) && Shows(o, ClampLimit(limit), h) && page == h.LastPage() && h.Before() == table.rows
    {
      page := LoadMore(o, limit);
      h := History([table.rows], [page]);
      FetchedFirst(table.rows, o, ClampLimit(limit), page);
    }

    /** One more request, before which `arrived` are inserted. */
    method More(o: Filter, limit: int, arrived: set<Run>, ghost h: History, ghost world: set<Run>)
      returns (page: seq<Run>, ghost h': History)
      requires Within(world) && arrived <= world && Shows(o, ClampLimit(limit), h) && h.LastPage() != []
      modifies this, table
      ensures Within(world) && Shows(o, ClampLimit(limit), h') && page == h'.LastPage() && h'.Before() == h.Before()
      ensures arrived == {} ==> table.rows == old(table.rows)
      ensures page != [] ==> |Left(table.rows, o, After(runs))| < |Left(table.rows, o, After(old(runs)))|
    {
      ghost var shown := runs;
      table.rows := table.rows + arrived;
      page := LoadMore(o, limit);
      FetchedOn(h.tables, o, ClampLimit(limit), h.pages, shown, table.rows, page);
      if page != [] { FewerLeft(table.rows, o, shown, ClampLimit(limit), page); }
      h' := History(h.tables + [table.rows], h.pages + [page]);
    }

    /** Requests until a page is not full; after the k-th one `arrivals[k]` are inserted. If
        they are all later, the list is exactly what matched at the first request, each run
        once, latest first. */
    method LoadAll(o: Filter, limit: int, arrivals: seq<set<Run>>, ghost world: set<Run>) returns (ghost h: History)
      requires runs == [] && Within(world) && forall k :: 0 <= k < |arrivals| ==> arrivals[k] <= world
      modifies this, table
      ensures Shows(o, ClampLimit(limit), h) && h.Before() == old(table.rows) && |h.LastPage()| < ClampLimit(limit)
      ensures LaterOnly(old(table.rows), table.rows) ==>
                Descending(runs) && forall r :: r in runs <==> r in old(table.rows) && Matches(o, r)
    {
      var page, k := [], 0;
      page, h := Open(o, limit, world);
      while |page| == ClampLimit(limit)
        invariant Within(world) && Shows(o, ClampLimit(limit), h) && page == h.LastPage() && h.Before() == old(table.rows)
        invariant k <= |arrivals|
        decreases |page|, |arrivals| - k, |Left(table.rows, o, After(runs))|
      {
        if k < |arrivals| {
          page, h := More(o, limit, arrivals[k], h, world);
          k := k + 1;
        } else {
          page, h := More(o, limit, {}, h, world);
        }
      }
      LoadedExact(h, o, ClampLimit(limit), runs);
    }
  }

  lemma LoadedExact(h: History, o: Filter, limit: nat, runs: seq<Run>)
    requires Fetched(h.tables, o, limit, h.pages, runs) && |h.LastPage()| < limit
    ensures LaterOnly(h.Before(), h.tables[|h.tables| - 1]) ==>
              Descending(runs) && forall r :: r in runs <==> r in h.Before() && Matches(o, r)
  {
    if LaterOnly(h.Before(), h.tables[|h.tables| - 1]) {
      forall k, r, q | 0 <= k < |h.tables| && r in h.tables[k] && r !in h.tables[0] && q in h.tables[0]
        ensures KeyLess(KeyOf(q), KeyOf(r))
      {
        assert h.tables[k] <= h.tables[|h.tables| - 1];
      }
      PaginationExact(h.tables, o, limit, h.pages);
    }
  }
}
