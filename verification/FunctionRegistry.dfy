/** The function registry: an index by event and a map by id, kept in step in memory, and
    the functions table from which both are rebuilt at start-up. */
module FunctionRegistry {

  datatype CancelRule = CancelRule(event: string, pattern: string)

  /** `settings` stands for what the registry only carries: match, cron, retries, timeout
      and flow control. */
  datatype Function = Function(id: string, event: string, cancelOn: seq<CancelRule>, settings: string, appUrl: string)

  type Functions = map<string, Function>

  type EventIndex = map<string, seq<Function>>

  function Listed(byEvent: EventIndex, e: string): seq<Function> {
    if e in byEvent then byEvent[e] else []
  }

  predicate DistinctIds(fs: seq<Function>) {
    forall i, j :: 0 <= i < j < |fs| ==> fs[i].id != fs[j].id
  }

  predicate Keyed(byID: Functions) {
    forall id :: id in byID ==> byID[id].id == id
  }

  /** `fs` lists exactly the registered functions with event `e`, each once. */
  ghost predicate ListsExactly(fs: seq<Function>, byID: Functions, e: string) {
    && DistinctIds(fs)
    && (forall f :: f in fs <==> f.id in byID && byID[f.id] == f && f.event == e)
  }

  ghost predicate Indexed(byEvent: EventIndex, byID: Functions) {
    && Keyed(byID)
    && (forall e :: ListsExactly(Listed(byEvent, e), byID, e))
  }

  /** `fs` without its first function called `id`. */
  function Removed(fs: seq<Function>, id: string): seq<Function> {
    if fs == [] then [] else if fs[0].id == id then fs[1..] else [fs[0]] + Removed(fs[1..], id)
  }

  lemma {:induction false} RemovedExact(fs: seq<Function>, id: string)
    requires DistinctIds(fs)
    ensures DistinctIds(Removed(fs, id))
    ensures forall f :: f in Removed(fs, id) <==> f in fs && f.id != id
  {
    if fs != [] {
      var first, rest := fs[0], fs[1..];
      assert fs == [first] + rest;
      assert forall f :: f in rest ==> f.id != first.id;
      RemovedExact(rest, id);
      DistinctCons(first, Removed(rest, id));
    }
  }

  lemma DistinctCons(f: Function, fs: seq<Function>)
    requires DistinctIds(fs)
    ensures (forall g :: g in fs ==> g.id != f.id) ==> DistinctIds([f] + fs)
  {
    assert forall j :: 0 <= j < |fs| ==> fs[j] in fs;
  }

  lemma {:induction false} RemovedAt(fs: seq<Function>, id: string, i: nat)
    requires i < |fs| && fs[i].id == id && forall j :: 0 <= j < i ==> fs[j].id != id
    ensures Removed(fs, id) == fs[..i] + fs[i + 1..]
  {
    if i > 0 {
      RemovedAt(fs[1..], id, i - 1);
      assert fs == [fs[0]] + fs[1..];
    }
  }

  lemma UnlistOwn(fs: seq<Function>, byID: Functions, e: string, id: string)
    requires ListsExactly(fs, byID, e) && Keyed(byID)
    ensures ListsExactly(Removed(fs, id), byID - {id}, e)
  {
    RemovedExact(fs, id);
  }

  lemma UnlistOther(fs: seq<Function>, byID: Functions, e: string, id: string)
    requires ListsExactly(fs, byID, e) && id in byID && byID[id].event != e
    ensures ListsExactly(fs, byID - {id}, e)
  {
  }

  lemma UnlistKeeps(byEvent: EventIndex, byID: Functions, id: string)
    requires Indexed(byEvent, byID) && id in byID
    ensures var e := byID[id].event;
            Indexed(byEvent[e := Removed(Listed(byEvent, e), id)], byID - {id})
  {
    var e := byID[id].event;
    var byEvent', byID' := byEvent[e := Removed(Listed(byEvent, e), id)], byID - {id};
    forall e' ensures ListsExactly(Listed(byEvent', e'), byID', e') {
      if e' == e {
        UnlistOwn(Listed(byEvent, e), byID, e, id);
      } else {
        UnlistOther(Listed(byEvent, e'), byID, e', id);
      }
    }
  }

  lemma EnlistKeeps(byEvent: EventIndex, byID: Functions, f: Function)
    requires Indexed(byEvent, byID) && f.id !in byID
    ensures Indexed(byEvent[f.event := Listed(byEvent, f.event) + [f]], byID[f.id := f])
  {
    var byEvent', byID' := byEvent[f.event := Listed(byEvent, f.event) + [f]], byID[f.id := f];
    forall e ensures ListsExactly(Listed(byEvent', e), byID', e) {
      var fs := Listed(byEvent, e);
      assert ListsExactly(fs, byID, e);
      assert forall i :: 0 <= i < |fs| ==> fs[i] in fs && fs[i].id != f.id;
    }
  }

  function Without(m: Functions, app: string): Functions {
    map id | id in m && m[id].appUrl != app :: m[id]
  }

  /** `fns` written one after the other under `app`; the last one of an id stays. */
  function Upserts(m: Functions, app: string, fns: seq<Function>): Functions {
    if fns == [] then m else
      var f := fns[|fns| - 1];
      Upserts(m, app, fns[..|fns| - 1])[f.id := f.(appUrl := app)]
  }

  /** The functions after the introspection result `fns` has replaced those of `app`. */
  function SyncMap(m: Functions, app: string, fns: seq<Function>): Functions {
    Upserts(Without(m, app), app, fns)
  }

  lemma UpsertsSnoc(m: Functions, app: string, fns: seq<Function>, f: Function)
    ensures Upserts(m, app, fns + [f]) == Upserts(m, app, fns)[f.id := f.(appUrl := app)]
  {
    assert (fns + [f])[..|fns|] == fns;
  }

  /** The last of `fns` called `id`; -1 if there is none. */
  function LastOf(fns: seq<Function>, id: string): (i: int)
    ensures -1 <= i < |fns| && (i >= 0 ==> fns[i].id == id)
    ensures forall j :: 0 <= j < |fns| && j > i ==> fns[j].id != id
  {
    if fns == [] then -1
    else if fns[|fns| - 1].id == id then |fns| - 1
    else LastOf(fns[..|fns| - 1], id)
  }

  lemma {:induction false} UpsertsAt(m: Functions, app: string, fns: seq<Function>, id: string)
    ensures var i := LastOf(fns, id);
            if i >= 0 then id in Upserts(m, app, fns) && Upserts(m, app, fns)[id] == fns[i].(appUrl := app)
            else (id in Upserts(m, app, fns) <==> id in m) && (id in m ==> Upserts(m, app, fns)[id] == m[id])
  {
    if fns != [] {
      UpsertsAt(m, app, fns[..|fns| - 1], id);
    }
  }

  /** What a sync leaves under an id: the last function of that id it was given, now owned
      by `app`; or else what another app had there, and nothing that `app` had before. */
  lemma SyncMapAt(m: Functions, app: string, fns: seq<Function>, id: string)
    ensures var i := LastOf(fns, id);
            if i >= 0 then id in SyncMap(m, app, fns) && SyncMap(m, app, fns)[id] == fns[i].(appUrl := app)
            else
              && (id in SyncMap(m, app, fns) <==> id in m && m[id].appUrl != app)
              && (id in m && m[id].appUrl != app ==> SyncMap(m, app, fns)[id] == m[id])
  {
    UpsertsAt(Without(m, app), app, fns, id);
  }

  /** The in-memory registry. */
  class Registry {
    var byEvent: EventIndex
    var byID: Functions

    ghost predicate Valid()
      reads this
    {
      Indexed(byEvent, byID)
    }

    constructor ()
      ensures Valid() && byID == map[]
    {
      byEvent, byID := map[], map[];
    }

    /** Takes the function out of the list of its event. */
    method Unlist(f: Function)
      requires f in Listed(byEvent, f.event) && DistinctIds(Listed(byEvent, f.event))
      modifies this`byEvent
      ensures byEvent == old(byEvent)[f.event := Removed(Listed(old(byEvent), f.event), f.id)]
    {
      var ev := byEvent[f.event];
      var i := 0;
      while i < |ev| && ev[i].id != f.id
        invariant i <= |ev| && f in ev[i..] && forall j :: 0 <= j < i ==> ev[j].id != f.id
      {
        i := i + 1;
      }
      RemovedAt(ev, f.id, i);
      byEvent := byEvent[f.event := ev[..i] + ev[i + 1..]];
    }

    /** Registers `f`, replacing a function of the same id. */
    method Register(f: Function)
      requires Valid()
      modifies this
      ensures Valid() && byID == old(byID)[f.id := f]
    {
      if f.id in byID {
        var was := byID[f.id];
        UnlistKeeps(byEvent, byID, f.id);
        assert ListsExactly(Listed(byEvent, was.event), byID, was.event);
        Unlist(was);
      }
      EnlistKeeps(byEvent, byID - {f.id}, f);
      assert (byID - {f.id})[f.id := f] == byID[f.id := f];
      byID := byID[f.id := f];
      byEvent := byEvent[f.event := Listed(byEvent, f.event) + [f]];
    }

    /** `fns` replace what `app` had; a function that moved in from another app leaves it. */
    method Sync(app: string, fns: seq<Function>)
      requires Valid()
      modifies this
      ensures Valid() && byID == SyncMap(old(byID), app, fns)
    {
      var todo := byID.Keys;
      while todo != {}
        invariant Valid() && todo <= byID.Keys
        invariant forall id :: id in byID ==> id in old(byID) && byID[id] == old(byID)[id]
        invariant forall id :: id in old(byID) && (id in todo || old(byID)[id].appUrl != app) ==> id in byID
        invariant forall id :: id in byID && id !in todo ==> byID[id].appUrl != app
        decreases |todo|
      {
        var id :| id in todo;
        todo := todo - {id};
        var f := byID[id];
        if f.appUrl == app {
          UnlistKeeps(byEvent, byID, id);
          assert ListsExactly(Listed(byEvent, f.event), byID, f.event);
          Unlist(f);
          byID := byID - {id};
        }
      }
      assert byID == Without(old(byID), app);
      var i := 0;
      while i < |fns|
        invariant i <= |fns| && Valid()
        invariant byID == Upserts(Without(old(byID), app), app, fns[..i])
      {
        assert fns[..i + 1] == fns[..i] + [fns[i]];
        UpsertsSnoc(Without(old(byID), app), app, fns[..i], fns[i]);
        Register(fns[i].(appUrl := app));
        i := i + 1;
      }
      assert fns[..i] == fns;
    }

    /** The subscribers of an event: a snapshot. */
    method Match(eventName: string) returns (fs: seq<Function>)
      requires Valid()
      ensures DistinctIds(fs) && forall f :: f in fs <==> f.id in byID && byID[f.id] == f && f.event == eventName
    {
      fs := Listed(byEvent, eventName);
      assert ListsExactly(fs, byID, eventName);
    }

    method Lookup(id: string) returns (f: Function, ok: bool)
      ensures ok <==> id in byID
      ensures ok ==> f == byID[id]
    {
      if id in byID {
        return byID[id], true;
      }
      return Function("", "", [], "", ""), false;
    }

    /** The functions with a cancel rule for an event, each once. */
    method CancelMatchers(eventName: string) returns (fs: seq<Function>)
      requires Valid()
      ensures DistinctIds(fs)
      ensures forall f :: f in fs <==>
                f.id in byID && byID[f.id] == f && exists r :: r in f.cancelOn && r.event == eventName
    {
      fs := [];
      var todo := byID.Keys;
      while todo != {}
        invariant todo <= byID.Keys && DistinctIds(fs)
        invariant forall f :: f in fs <==>
                    f.id in byID && f.id !in todo && byID[f.id] == f && exists r :: r in f.cancelOn && r.event == eventName
        decreases |todo|
      {
        var id :| id in todo;
        todo := todo - {id};
        var rules, k := byID[id].cancelOn, 0;
        while k < |rules| && rules[k].event != eventName
          invariant k <= |rules| && forall j :: 0 <= j < k ==> rules[j].event != eventName
        {
          k := k + 1;
        }
        if k < |rules| {
          assert rules[k] in byID[id].cancelOn;
          assert forall j :: 0 <= j < |fs| ==> fs[j] in fs;
          fs := fs + [byID[id]];
        }
      }
    }
  }

  /** The persisted functions table, one row per id. */
  class FunctionTable {
    var rows: Functions

    constructor ()
      ensures rows == map[]
    {
      rows := map[];
    }

    /** One transaction: the rows of `app` go, then each function is upserted. */
    method ReplaceAppFunctions(app: string, fns: seq<Function>)
      modifies this
      ensures rows == SyncMap(old(rows), app, fns)
      ensures Keyed(old(rows)) ==> Keyed(rows)
    {
      rows := map id | id in rows && rows[id].appUrl != app :: rows[id];
      for i := 0 to |fns|
        invariant rows == Upserts(Without(old(rows), app), app, fns[..i])
        invariant Keyed(old(rows)) ==> Keyed(rows)
      {
        assert fns[..i + 1] == fns[..i] + [fns[i]];
        UpsertsSnoc(Without(old(rows), app), app, fns[..i], fns[i]);
        rows := rows[fns[i].id := fns[i].(appUrl := app)];
      }
      assert fns[..|fns|] == fns;
    }

    /** All rows, in some order. */
    method LoadRegisteredFunctions() returns (fs: seq<Function>)
      requires Keyed(rows)
      ensures DistinctIds(fs) && forall f :: f in fs <==> f.id in rows && rows[f.id] == f
    {
      fs := [];
      var todo := rows.Keys;
      while todo != {}
        invariant todo <= rows.Keys && DistinctIds(fs)
        invariant forall f :: f in fs <==> f.id in rows && f.id !in todo && rows[f.id] == f
        decreases |todo|
      {
        var id :| id in todo;
        todo := todo - {id};
        assert forall j :: 0 <= j < |fs| ==> fs[j] in fs;
        fs := fs + [rows[id]];
      }
    }
  }

  type Groups = map<string, seq<Function>>

  function SyncAll(m: Functions, apps: seq<string>, groups: Groups): Functions
    requires forall a :: a in apps ==> a in groups
  {
    if apps == [] then m else
      var a := apps[|apps| - 1];
      SyncMap(SyncAll(m, apps[..|apps| - 1], groups), a, groups[a])
  }

  /** `fs` lists the rows of `app`, in whatever order. */
  ghost predicate GroupOf(fs: seq<Function>, rows: Functions, app: string) {
    && DistinctIds(fs)
    && (forall f :: f in fs <==> f.id in rows && rows[f.id] == f && f.appUrl == app)
  }

  function OfApps(rows: Functions, apps: seq<string>): Functions {
    map id | id in rows && rows[id].appUrl in apps :: rows[id]
  }

  /** One app more: the synced group adds exactly the rows of that app. */
  lemma RestoreNext(rows: Functions, before: seq<string>, app: string, fs: seq<Function>)
    requires Keyed(rows) && GroupOf(fs, rows, app) && app !in before
    ensures SyncMap(OfApps(rows, before), app, fs) == OfApps(rows, before + [app])
  {
    var m, m' := OfApps(rows, before), OfApps(rows, before + [app]);
    assert Without(m, app) == m;
    forall id ensures (id in Upserts(m, app, fs) <==> id in m') && (id in m' ==> Upserts(m, app, fs)[id] == m'[id]) {
      UpsertsAt(m, app, fs, id);
      assert id in rows && rows[id].appUrl == app ==> rows[id] in fs;
      var i := LastOf(fs, id);
      assert i >= 0 ==> fs[i] in fs;
    }
  }

  /** Restoring app by app, whatever the order of the apps and of the rows within one,
      rebuilds exactly the rows of the apps gone through. */
  lemma {:induction false} RestoreAnyOrder(rows: Functions, apps: seq<string>, groups: Groups)
    requires Keyed(rows) && forall a :: a in apps ==> a in groups && GroupOf(groups[a], rows, a)
    requires forall i, j :: 0 <= i < j < |apps| ==> apps[i] != apps[j]
    ensures SyncAll(map[], apps, groups) == OfApps(rows, apps)
  {
    if apps != [] {
      var n := |apps| - 1;
      assert apps == apps[..n] + [apps[n]];
      RestoreAnyOrder(rows, apps[..n], groups);
      RestoreNext(rows, apps[..n], apps[n], groups[apps[n]]);
    }
  }

  ghost predicate Grouped(fs: seq<Function>, rows: seq<Function>, app: string) {
    DistinctIds(fs) && forall f :: f in fs <==> f in rows && f.appUrl == app
  }

  lemma GroupedSnoc(fs: seq<Function>, rows: seq<Function>, app: string, f: Function)
    requires Grouped(fs, rows, app) && DistinctIds(rows + [f])
    ensures Grouped(if f.appUrl == app then fs + [f] else fs, rows + [f], app)
  {
    assert forall x :: x in rows + [f] <==> x in rows || x == f;
    forall x | x in rows ensures x.id != f.id {
      var i :| 0 <= i < |rows| && rows[i] == x;
      assert (rows + [f])[i] == x && (rows + [f])[|rows|] == f;
    }
    assert forall j :: 0 <= j < |fs| ==> fs[j] in fs && fs[j] in rows;
  }

  method GroupByApp(rows: seq<Function>) returns (byApp: Groups)
    requires DistinctIds(rows)
    ensures forall a :: a in byApp ==> Grouped(byApp[a], rows, a)
    ensures forall f :: f in rows ==> f.appUrl in byApp
  {
    byApp := map[];
    for i := 0 to |rows|
      invariant forall a :: Grouped(if a in byApp then byApp[a] else [], rows[..i], a)
    {
      var f := rows[i];
      assert rows[..i + 1] == rows[..i] + [f];
      forall a ensures Grouped(if a == f.appUrl then (if a in byApp then byApp[a] else []) + [f]
                               else if a in byApp then byApp[a] else [], rows[..i + 1], a)
      {
        GroupedSnoc(if a in byApp then byApp[a] else [], rows[..i], a, f);
      }
      byApp := byApp[f.appUrl := (if f.appUrl in byApp then byApp[f.appUrl] else []) + [f]];
    }
    assert rows[..|rows|] == rows;
    forall f | f in rows ensures f.appUrl in byApp {
      assert Grouped(if f.appUrl in byApp then byApp[f.appUrl] else [], rows, f.appUrl);
    }
  }

  /** Every group is synced, in some order. */
  method SyncGroups(reg: Registry, byApp: Groups) returns (ghost order: seq<string>)
    requires reg.Valid() && reg.byID == map[]
    modifies reg
    ensures reg.Valid() && (forall a :: a in byApp <==> a in order)
    ensures forall i, j :: 0 <= i < j < |order| ==> order[i] != order[j]
    ensures reg.byID == SyncAll(map[], order, byApp)
  {
    order := [];
    var todo := byApp.Keys;
    while todo != {}
      invariant reg.Valid() && todo <= byApp.Keys
      invariant forall a :: a in order <==> a in byApp && a !in todo
      invariant forall i, j :: 0 <= i < j < |order| ==> order[i] != order[j]
      invariant reg.byID == SyncAll(map[], order, byApp)
      decreases |todo|
    {
      var app :| app in todo;
      todo := todo - {app};
      reg.Sync(app, byApp[app]);
      assert (order + [app])[..|order|] == order;
      order := order + [app];
    }
  }

  /** Start-up: the rows are grouped by app and each group is synced, the groups in any
      order. The registry then is what the table holds. */
  method Restore(table: FunctionTable, reg: Registry)
    requires reg.Valid() && reg.byID == map[] && Keyed(table.rows)
    modifies reg
    ensures reg.Valid() && reg.byID == table.rows
  {
    var rows := table.LoadRegisteredFunctions();
    var byApp := GroupByApp(rows);
    ghost var order := SyncGroups(reg, byApp);
    RestoreAnyOrder(table.rows, order, byApp);
    assert forall id :: id in table.rows ==> table.rows[id] in rows;
    assert OfApps(table.rows, order) == table.rows;
  }

  /** Introspection results reach the live registry and the table alike: if they agree,
      they still do, so a registry restored from the table is the live one. */
  method Introspected(reg: Registry, table: FunctionTable, app: string, fns: seq<Function>)
    requires reg.Valid() && reg.byID == table.rows
    modifies reg, table
    ensures reg.Valid() && reg.byID == table.rows == SyncMap(old(reg.byID), app, fns)
  {
    reg.Sync(app, fns);
    table.ReplaceAppFunctions(app, fns);
  }
}
