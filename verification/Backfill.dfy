/** The placement and keyword backfill (maybeBackfill and backfillDestFolder in
    internal/reconcile/membership.go): every copy is sorted into its bucket and given the
    missing keywords of its labels, keywords before moves. */
module Backfill {
  import opened Wrappers
  import opened State
  import opened Placement
  import opened Protocol
  import opened Safety
  import opened Convergence
  import opened Tracking
  import opened World
  import Mirror
  import Scan
  import Windows
  import opened OpLog
  import opened Queue

  // ----------------------------------------------------------- specification

  /** A copy as the backfill wants it. */
  function SortedApp(o: Opts, db: Db, app: App): App {
    app.(folder := if Routing(o) then DestFor(o, db, app.key) else app.folder,
         flags := app.flags + KeywordsOf(o, db, app.key))
  }

  /** A copy on its way there: no flag is ever removed, no bucket but the right one entered. */
  predicate Between(o: Opts, db: Db, x: App, y: App) {
    && y == x.(folder := y.folder, flags := y.flags)
    && (y.folder == x.folder || (Routing(o) && y.folder == DestFor(o, db, x.key)))
    && x.flags <= y.flags <= x.flags + KeywordsOf(o, db, x.key)
  }

  /** Wherever a backfill is cut off, running it again comes to the same end, and running it
      on its result changes nothing. */
  lemma SortedAgain(o: Opts, db: Db, x: App, y: App)
    requires Between(o, db, x, y)
    ensures SortedApp(o, db, y) == SortedApp(o, db, x)
    ensures Between(o, db, x, SortedApp(o, db, x))
    ensures x == SortedApp(o, db, x) ==> y == x
  {
  }

  function Less(app: App, skip: set<string>): App { app.(flags := app.flags - skip) }

  /** Copy i of s is x on its way, apart from keywords a user has changed. */
  ghost predicate Toward(o: Opts, db: Db, x: App, s: Sys, i: nat)
    requires i in s.apps
  {
    Between(o, db, Less(x, Of(s.retagged, i)), Less(s.apps[i], Of(s.retagged, i)))
  }

  lemma TowardTwice(o: Opts, db: Db, x: App, b: Sys, c: Sys, i: nat)
    requires i in b.apps && i in c.apps && Of(b.retagged, i) <= Of(c.retagged, i) && x.key == b.apps[i].key
    requires Toward(o, db, x, b, i) && Toward(o, b.db, b.apps[i], c, i) && b.db.members == db.members
    ensures Toward(o, db, x, c, i)
  {
    KeywordsSame(o, db, b.db, x.key);
  }

  /** Copy i had landed in a, still exists in b, and no user has moved it. */
  ghost predicate Own(a: Sys, b: Sys, i: nat) {
    i in b.apps && i in a.apps && a.apps[i].landed && a.apps[i].key == b.apps[i].key && i !in b.refiled
  }

  /** Work on one bucket: its copies move towards their sorted form, others rest, apart from
      keywords a user has changed. */
  ghost predicate Sorting(o: Opts, a: Sys, b: Sys, folder: Folder) {
    && Handling(a, b)
    && forall i :: Own(a, b, i) ==>
         && (a.apps[i].folder != folder ==> Shows(b, i, a.apps[i]))
         && Toward(o, a.db, a.apps[i], b, i)
  }

  /** The copies of the bucket have not been moved yet. */
  ghost predicate Unmoved(a: Sys, b: Sys, folder: Folder) {
    forall i :: Own(a, b, i) && a.apps[i].folder == folder ==> b.apps[i].folder == folder
  }

  lemma SortingTwice(o: Opts, a: Sys, b: Sys, c: Sys, folder: Folder)
    requires Sorting(o, a, b, folder) && Sorting(o, b, c, folder)
    ensures Sorting(o, a, c, folder)
    ensures Unmoved(a, b, folder) && Unmoved(b, c, folder) ==> Unmoved(a, c, folder)
  {
    HandlingTwice(a, b, c);
    forall i | Own(a, c, i)
      ensures Own(a, b, i) && Own(b, c, i)
      ensures a.apps[i].folder != folder ==> Shows(c, i, a.apps[i])
      ensures Toward(o, a.db, a.apps[i], c, i)
    {
      assert Own(a, b, i) && Own(b, c, i) && Handled(b, c, i);
      TowardTwice(o, a.db, a.apps[i], b, c, i);
    }
  }

  lemma SortingStarts(o: Opts, a: Sys, folder: Folder)
    ensures Sorting(o, a, a, folder) && Unmoved(a, a, folder)
  {
  }

  lemma DriftSorts(o: Opts, a: Sys, b: Sys, folder: Folder)
    requires Drift(a, b)
    ensures Sorting(o, a, b, folder) && Unmoved(a, b, folder)
  {
    DriftHandles(a, b, "");
    forall i | Own(a, b, i) ensures Shows(b, i, a.apps[i]) && Toward(o, a.db, a.apps[i], b, i) {
      assert Drifted(a, b, i);
    }
  }

  /** The copies of the bucket among ids carry kws, apart from those a user has changed. */
  ghost predicate Carry(a: Sys, b: Sys, folder: Folder, ids: seq<nat>, kws: set<string>) {
    forall i :: i in ids && Own(a, b, i) && a.apps[i].folder == folder ==>
      kws - Of(b.retagged, i) <= b.apps[i].flags
  }

  /** The copies of the bucket among ids lie in bucket want. */
  ghost predicate Lie(a: Sys, b: Sys, folder: Folder, ids: seq<nat>, want: Folder) {
    forall i :: i in ids && Own(a, b, i) && a.apps[i].folder == folder ==> b.apps[i].folder == want
  }

  // ---------------------------------------------------------- one command

  /** kws are keywords of the labels of every copy in ids. */
  ghost predicate Deserve(o: Opts, s: Sys, ids: seq<nat>, kws: set<string>) {
    forall i :: i in ids && i in s.apps ==> kws <= KeywordsOf(o, s.db, s.apps[i].key)
  }

  /** want is where every copy in ids belongs. */
  ghost predicate Belong(o: Opts, s: Sys, ids: seq<nat>, want: Folder) {
    forall i :: i in ids && i in s.apps ==> want == DestFor(o, s.db, s.apps[i].key)
  }

  lemma Tags(o: Opts, b: Sys, c: Sys, folder: Folder, ids: seq<nat>, now: set<nat>, kws: set<string>)
    requires Deserve(o, b, ids, kws) && c == b.(apps := Tagged(b.apps, now, kws))
    requires now == set i | i in ids && i in b.apps && b.apps[i].landed && b.apps[i].folder == folder
    ensures Sorting(o, b, c, folder) && Unmoved(b, c, folder) && Carry(b, c, folder, ids, kws)
  {
  }

  lemma Moves(o: Opts, b: Sys, c: Sys, folder: Folder, ids: seq<nat>, now: set<nat>, want: Folder)
    requires Routing(o) && Belong(o, b, ids, want) && c == b.(apps := Refiled(b.apps, now, want))
    requires now == set i | i in ids && i in b.apps && b.apps[i].landed && b.apps[i].folder == folder
    ensures Sorting(o, b, c, folder) && Lie(b, c, folder, ids, want)
  {
  }

  /** Adds keywords to copies of the selected bucket by UID. */
  method StoreKeywordsUids(w: World, folder: Folder, ids: seq<nat>, kws: set<string>) returns (ok: bool)
    requires w.Valid() && w.sys.busy && w.sys.live == map[] && w.dst.selected == Some(folder)
    requires Deserve(w.o, w.sys, ids, kws)
    modifies w`run, w`sys, w.src`main, w.src`folders, w.dst`apps
    ensures w.Valid() && Sorting(w.o, old(w.sys), w.sys, folder) && Unmoved(old(w.sys), w.sys, folder)
    ensures ok ==> Carry(old(w.sys), w.sys, folder, ids, kws)
    ensures w.healthy ==> ok
  {
    ghost var a := w.sys;
    w.Interfere();
    PlanDrifts(w.o, a, w.sys, folder);
    ok :| w.healthy ==> ok;
    var done: bool := *;
    if ok || done { TagNow(w, folder, ids, kws, a); }
  }

  /** The copies that are still in the bucket get the keywords. */
  method TagNow(w: World, folder: Folder, ids: seq<nat>, kws: set<string>, ghost a: Sys)
    requires w.Valid() && w.sys.busy && w.sys.live == map[] && Deserve(w.o, w.sys, ids, kws)
    requires Sorting(w.o, a, w.sys, folder) && Unmoved(a, w.sys, folder)
    modifies w`run, w`sys, w.dst`apps
    ensures w.Valid() && Sorting(w.o, a, w.sys, folder) && Unmoved(a, w.sys, folder)
    ensures Carry(a, w.sys, folder, ids, kws)
  {
    ghost var b := w.sys;
    var now := set i | i in ids && i in w.InBucket(folder);
    AddTo(w, now, kws);
    TagsNow(w.o, a, b, w.sys, folder, ids, now, kws);
  }

  /** The server adds keywords to copies. */
  method AddTo(w: World, ids: set<nat>, kws: set<string>)
    requires w.Valid() && Enabled(w.o, w.sys, AddKeywords(ids, kws))
    modifies w`run, w`sys, w.dst`apps
    ensures w.Valid() && w.sys == old(w.sys).(apps := Tagged(old(w.sys).apps, ids, kws))
  {
    w.Act(AddKeywords(ids, kws));
    w.dst.apps := Tagged(w.dst.apps, ids, kws);
  }

  lemma TagsNow(o: Opts, a: Sys, b: Sys, c: Sys, folder: Folder, ids: seq<nat>, now: set<nat>, kws: set<string>)
    requires Deserve(o, b, ids, kws) && Sorting(o, a, b, folder) && Unmoved(a, b, folder)
    requires c == b.(apps := Tagged(b.apps, now, kws))
    requires now == set i | i in ids && i in b.apps && b.apps[i].landed && b.apps[i].folder == folder
    ensures Sorting(o, a, c, folder) && Unmoved(a, c, folder) && Carry(a, c, folder, ids, kws)
  {
    Tags(o, b, c, folder, ids, now, kws);
    SortingTwice(o, a, b, c, folder);
    CarryDrifted(o, a, b, c, folder, ids, kws);
  }

  lemma CarryDrifted(o: Opts, a: Sys, b: Sys, c: Sys, folder: Folder, ids: seq<nat>, kws: set<string>)
    requires Sorting(o, a, b, folder) && Unmoved(a, b, folder) && Sorting(o, b, c, folder)
    requires Carry(b, c, folder, ids, kws)
    ensures Carry(a, c, folder, ids, kws)
  {
    forall i | i in ids && Own(a, c, i) && a.apps[i].folder == folder
      ensures kws - Of(c.retagged, i) <= c.apps[i].flags
    {
      assert Own(a, b, i) && Own(b, c, i) && Handled(b, c, i);
    }
  }

  /** Moves copies of one bucket by UID; the selection is forgotten. */
  method MoveUids(w: World, folder: Folder, ids: seq<nat>, want: Folder) returns (ok: bool)
    requires w.Valid() && w.sys.busy && w.sys.live == map[] && Routing(w.o) && Belong(w.o, w.sys, ids, want)
    modifies w`run, w`sys, w.src`main, w.src`folders, w.dst`apps, w.dst`selected
    ensures w.Valid() && Sorting(w.o, old(w.sys), w.sys, folder)
    ensures ok ==> Lie(old(w.sys), w.sys, folder, ids, want)
    ensures w.healthy ==> ok
  {
    ghost var a := w.sys;
    w.Interfere();
    ghost var b := w.sys;
    PlanDrifts(w.o, a, b, folder);
    ok :| w.healthy ==> ok;
    var done: bool := *;
    if ok || done { MoveNow(w, folder, ids, want, a); }
  }

  /** The copies that are still in the bucket go. */
  method MoveNow(w: World, folder: Folder, ids: seq<nat>, want: Folder, ghost a: Sys)
    requires w.Valid() && w.sys.busy && w.sys.live == map[] && Routing(w.o) && Sorting(w.o, a, w.sys, folder)
    requires Belong(w.o, a, ids, want) && Belong(w.o, w.sys, ids, want)
    modifies w`run, w`sys, w.dst`apps, w.dst`selected
    ensures w.Valid() && Sorting(w.o, a, w.sys, folder) && Lie(a, w.sys, folder, ids, want)
  {
    ghost var b := w.sys;
    var now := set i | i in ids && i in w.InBucket(folder);
    MoveAll(w, ids, now, want);
    MovesNow(w.o, a, b, w.sys, folder, ids, now, want);
  }

  method MoveAll(w: World, ghost ids: seq<nat>, now: set<nat>, want: Folder)
    requires w.Valid() && w.sys.busy && w.sys.live == map[] && Belong(w.o, w.sys, ids, want)
    requires forall i :: i in now ==> i in ids && i in w.sys.apps && w.sys.apps[i].landed
    modifies w`run, w`sys, w.dst`apps, w.dst`selected
    ensures w.Valid() && w.sys == old(w.sys).(apps := Refiled(old(w.sys).apps, now, want))
  {
    Refile(w, now, want);
    w.dst.selected := None;
  }

  lemma PlanDrifts(o: Opts, a: Sys, b: Sys, folder: Folder)
    requires Drift(a, b)
    ensures Sorting(o, a, b, folder) && Unmoved(a, b, folder)
    ensures forall ids, kws :: Deserve(o, a, ids, kws) ==> Deserve(o, b, ids, kws)
    ensures forall ids, want :: Belong(o, a, ids, want) ==> Belong(o, b, ids, want)
  {
    DriftSorts(o, a, b, folder);
    PlanKept(o, a, b);
  }

  lemma MovesNow(o: Opts, a: Sys, b: Sys, c: Sys, folder: Folder, ids: seq<nat>, now: set<nat>, want: Folder)
    requires Routing(o) && Belong(o, a, ids, want) && Belong(o, b, ids, want) && Sorting(o, a, b, folder)
    requires c == b.(apps := Refiled(b.apps, now, want))
    requires now == set i | i in ids && i in b.apps && b.apps[i].landed && b.apps[i].folder == folder
    ensures Sorting(o, a, c, folder) && Lie(a, c, folder, ids, want)
  {
    Moves(o, b, c, folder, ids, now, want);
    SortingTwice(o, a, b, c, folder);
    LieNext(o, a, b, c, folder, ids, want);
  }

  /** A step of the moving phase: who is not yet moved is moved now. */
  lemma LieNext(o: Opts, a: Sys, b: Sys, c: Sys, folder: Folder, ids: seq<nat>, want: Folder)
    requires Sorting(o, a, b, folder) && Sorting(o, b, c, folder) && Lie(b, c, folder, ids, want)
    requires Routing(o) && Belong(o, a, ids, want)
    ensures Lie(a, c, folder, ids, want)
  {
    forall i | i in ids && Own(a, c, i) && a.apps[i].folder == folder ensures c.apps[i].folder == want {
      assert Own(a, b, i) && Own(b, c, i);
      KeywordsSame(o, a.db, b.db, a.apps[i].key);
    }
  }

  lemma LieStays(o: Opts, a: Sys, b: Sys, c: Sys, folder: Folder, ids: seq<nat>, want: Folder)
    requires Sorting(o, a, b, folder) && Sorting(o, b, c, folder) && Lie(a, b, folder, ids, want)
    requires Belong(o, a, ids, want)
    ensures Lie(a, c, folder, ids, want)
  {
    forall i | i in ids && Own(a, c, i) && a.apps[i].folder == folder ensures c.apps[i].folder == want {
      assert Own(a, b, i) && Own(b, c, i);
      KeywordsSame(o, a.db, b.db, a.apps[i].key);
    }
  }

  lemma CarryStays(o: Opts, a: Sys, b: Sys, c: Sys, folder: Folder, ids: seq<nat>, kws: set<string>)
    requires Sorting(o, a, b, folder) && Sorting(o, b, c, folder) && Carry(a, b, folder, ids, kws)
    ensures Carry(a, c, folder, ids, kws)
  {
    forall i | i in ids && Own(a, c, i) && a.apps[i].folder == folder
      ensures kws - Of(c.retagged, i) <= c.apps[i].flags
    {
      assert Own(a, b, i) && Own(b, c, i) && Handled(b, c, i);
    }
  }

  lemma PlanKept(o: Opts, a: Sys, b: Sys)
    requires Handling(a, b)
    ensures forall ids, kws :: Deserve(o, a, ids, kws) ==> Deserve(o, b, ids, kws)
    ensures forall ids, want :: Belong(o, a, ids, want) ==> Belong(o, b, ids, want)
  {
    forall i | i in b.apps
      ensures KeywordsOf(o, b.db, b.apps[i].key) == KeywordsOf(o, a.db, a.apps[i].key)
      ensures DestFor(o, b.db, b.apps[i].key) == DestFor(o, a.db, a.apps[i].key)
    {
      KeywordsSame(o, a.db, b.db, a.apps[i].key);
    }
  }

  // --------------------------------------------------------------- chunks

  const MOVE_CHUNK := 500

  /** Adds keywords in chunks. */
  method StoreChunks(w: World, folder: Folder, ids: seq<nat>, kws: set<string>) returns (ok: bool)
    requires w.Valid() && w.sys.busy && w.sys.live == map[] && w.dst.selected == Some(folder)
    requires Deserve(w.o, w.sys, ids, kws)
    modifies w`run, w`sys, w.src`main, w.src`folders, w.dst`apps
    ensures w.Valid() && Sorting(w.o, old(w.sys), w.sys, folder) && Unmoved(old(w.sys), w.sys, folder)
    ensures ok ==> Carry(old(w.sys), w.sys, folder, ids, kws)
    ensures w.healthy ==> ok
  {
    ghost var a := w.sys;
    ok := true;
    var n := 0;
    while n < |ids| && ok
      invariant w.Valid() && Sorting(w.o, a, w.sys, folder) && Unmoved(a, w.sys, folder)
      invariant ok ==> n <= |ids| && Carry(a, w.sys, folder, ids[..n], kws)
      invariant w.healthy ==> ok
      decreases |ids| - n, ok
    {
      var m := if |ids| - n < MOVE_CHUNK then |ids| else n + MOVE_CHUNK;
      ok := StoreChunk(w, folder, ids, n, m, kws, a);
      n := m;
    }
    assert ids[..|ids|] == ids;
  }

  method StoreChunk(w: World, folder: Folder, ids: seq<nat>, n: nat, m: nat, kws: set<string>, ghost a: Sys)
    returns (ok: bool)
    requires w.Valid() && w.sys.busy && w.sys.live == map[] && w.dst.selected == Some(folder) && n <= m <= |ids|
    requires Deserve(w.o, a, ids, kws) && Sorting(w.o, a, w.sys, folder) && Unmoved(a, w.sys, folder)
    requires Carry(a, w.sys, folder, ids[..n], kws)
    modifies w`run, w`sys, w.src`main, w.src`folders, w.dst`apps
    ensures w.Valid() && Sorting(w.o, a, w.sys, folder) && Unmoved(a, w.sys, folder)
    ensures ok ==> Carry(a, w.sys, folder, ids[..m], kws)
    ensures w.healthy ==> ok
  {
    ghost var b := w.sys;
    PlanKept(w.o, a, b);
    assert Deserve(w.o, b, ids, kws) && forall i :: i in ids[n..m] ==> i in ids;
    ok := StoreKeywordsUids(w, folder, ids[n..m], kws);
    SortingTwice(w.o, a, b, w.sys, folder);
    CarryStays(w.o, a, b, w.sys, folder, ids[..n], kws);
    if ok { CarryDrifted(w.o, a, b, w.sys, folder, ids[n..m], kws); }
    assert ids[..m] == ids[..n] + ids[n..m];
  }

  /** Moves copies in chunks. */
  method MoveChunks(w: World, folder: Folder, ids: seq<nat>, want: Folder) returns (ok: bool)
    requires w.Valid() && w.sys.busy && w.sys.live == map[] && Routing(w.o) && Belong(w.o, w.sys, ids, want)
    modifies w`run, w`sys, w.src`main, w.src`folders, w.dst`apps, w.dst`selected
    ensures w.Valid() && Sorting(w.o, old(w.sys), w.sys, folder)
    ensures ok ==> Lie(old(w.sys), w.sys, folder, ids, want)
    ensures w.healthy ==> ok
  {
    ghost var a := w.sys;
    ok := true;
    var n := 0;
    while n < |ids| && ok
      invariant w.Valid() && Sorting(w.o, a, w.sys, folder)
      invariant ok ==> n <= |ids| && Lie(a, w.sys, folder, ids[..n], want)
      invariant w.healthy ==> ok
      decreases |ids| - n, ok
    {
      ok :| w.healthy ==> ok;
      if ok {
        var m := if |ids| - n < MOVE_CHUNK then |ids| else n + MOVE_CHUNK;
        ok := MoveChunk(w, folder, ids, n, m, want, a);
        n := m;
      }
    }
    assert ids[..|ids|] == ids;
  }

  method MoveChunk(w: World, folder: Folder, ids: seq<nat>, n: nat, m: nat, want: Folder, ghost a: Sys)
    returns (ok: bool)
    requires w.Valid() && w.sys.busy && w.sys.live == map[] && n <= m <= |ids|
    requires Routing(w.o) && Belong(w.o, a, ids, want) && Sorting(w.o, a, w.sys, folder)
    requires Lie(a, w.sys, folder, ids[..n], want)
    modifies w`run, w`sys, w.src`main, w.src`folders, w.dst`apps, w.dst`selected
    ensures w.Valid() && Sorting(w.o, a, w.sys, folder)
    ensures ok ==> Lie(a, w.sys, folder, ids[..m], want)
    ensures w.healthy ==> ok
  {
    ghost var b := w.sys;
    PlanKept(w.o, a, b);
    assert Belong(w.o, b, ids, want) && forall i :: i in ids[n..m] ==> i in ids;
    assert forall i :: i in ids[..n] ==> i in ids;
    ok := MoveUids(w, folder, ids[n..m], want);
    SortingTwice(w.o, a, b, w.sys, folder);
    LieStays(w.o, a, b, w.sys, folder, ids[..n], want);
    if ok { LieNext(w.o, a, b, w.sys, folder, ids[n..m], want); }
    assert ids[..m] == ids[..n] + ids[n..m];
  }

  // ------------------------------------------------------------------ plan

  /** What the scan of a bucket collects: copies by missing keywords, and misplaced copies by
      the bucket they belong in. */
  datatype Plan = Plan(groups: map<set<string>, seq<nat>>, wrong: map<Folder, seq<nat>>)

  ghost predicate PlanOk(o: Opts, s: Sys, p: Plan) {
    && (forall kws :: kws in p.groups ==> Deserve(o, s, p.groups[kws], kws))
    && (forall want :: want in p.wrong ==> Routing(o) && Belong(o, s, p.wrong[want], want))
  }

  /** Copy i, found in the bucket as app, is planned for, apart from the keywords skip. */
  ghost predicate Planned(o: Opts, db: Db, folder: Folder, i: nat, app: App, skip: set<string>, p: Plan) {
    var want := DestFor(o, db, app.key);
    && (forall w :: w in KeywordsOf(o, db, app.key) && w !in app.flags && w !in skip ==> ToTag(p, i, w))
    && (Routing(o) && want != folder ==> want in p.wrong && i in p.wrong[want])
  }

  /** Copy i is to get keyword w. */
  ghost predicate ToTag(p: Plan, i: nat, w: string) {
    exists kws :: kws in p.groups && w in kws && i in p.groups[kws]
  }

  function Under<T>(m: map<T, seq<nat>>, k: T): seq<nat> { if k in m then m[k] else [] }

  function PlanMove(p: Plan, want: Folder, i: nat): Plan {
    p.(wrong := p.wrong[want := Under(p.wrong, want) + [i]])
  }

  function PlanTag(p: Plan, kws: set<string>, i: nat): Plan {
    p.(groups := p.groups[kws := Under(p.groups, kws) + [i]])
  }

  /** Nothing planned is forgotten. */
  ghost predicate PlanGrows(o: Opts, db: Db, folder: Folder, p: Plan, p': Plan) {
    forall j: nat, app, skip :: Planned(o, db, folder, j, app, skip, p) ==> Planned(o, db, folder, j, app, skip, p')
  }

  lemma MovePlanned(o: Opts, s: Sys, folder: Folder, i: nat, p: Plan)
    requires PlanOk(o, s, p) && i in s.apps && Routing(o)
    ensures var want := DestFor(o, s.db, s.apps[i].key);
            PlanOk(o, s, PlanMove(p, want, i)) && PlanGrows(o, s.db, folder, p, PlanMove(p, want, i))
  {
  }

  lemma TagPlanned(o: Opts, s: Sys, folder: Folder, i: nat, p: Plan, kws: set<string>)
    requires PlanOk(o, s, p) && i in s.apps && kws <= KeywordsOf(o, s.db, s.apps[i].key)
    ensures PlanOk(o, s, PlanTag(p, kws, i)) && PlanGrows(o, s.db, folder, p, PlanTag(p, kws, i))
    ensures forall w :: w in kws ==> ToTag(PlanTag(p, kws, i), i, w)
  {
    forall j: nat, w | ToTag(p, j, w) ensures ToTag(PlanTag(p, kws, i), j, w) {
      var g :| g in p.groups && w in g && j in p.groups[g];
      assert g in PlanTag(p, kws, i).groups && j in PlanTag(p, kws, i).groups[g];
    }
    forall w | w in kws ensures ToTag(PlanTag(p, kws, i), i, w) {
      assert kws in PlanTag(p, kws, i).groups && i in PlanTag(p, kws, i).groups[kws];
    }
  }

  /** Plans one copy. */
  method PlanCopy(w: World, folder: Folder, i: nat, p: Plan) returns (ok: bool, p': Plan)
    requires w.Valid() && i in w.sys.apps && PlanOk(w.o, w.sys, p)
    ensures PlanOk(w.o, w.sys, p') && PlanGrows(w.o, w.sys.db, folder, p, p')
    ensures ok ==> Planned(w.o, w.sys.db, folder, i, w.sys.apps[i], {}, p')
    ensures w.healthy ==> ok
  {
    var app := w.dst.apps[i];
    p' := p;
    if Routing(w.o) {
      var want := DestFor(w.o, w.store.db, app.key);
      if want != folder {
        MovePlanned(w.o, w.sys, folder, i, p');
        p' := PlanMove(p', want, i);
      }
    }
    var kws;
    ok, kws := Mirror.KeywordsFor(w, app.key);
    if !ok { return; }
    var missing := kws - app.flags;
    if missing != {} {
      TagPlanned(w.o, w.sys, folder, i, p', missing);
      p' := PlanTag(p', missing, i);
    }
  }

  /** Plans the copies of one window, as they are now. */
  method PlanCopies(w: World, folder: Folder, copies: seq<nat>, p: Plan) returns (ok: bool, p': Plan)
    requires w.Valid() && PlanOk(w.o, w.sys, p) && forall i :: i in copies ==> i in w.sys.apps
    ensures PlanOk(w.o, w.sys, p')
    ensures ok ==> forall i :: i in copies ==> Planned(w.o, w.sys.db, folder, i, w.sys.apps[i], {}, p')
    ensures PlanGrows(w.o, w.sys.db, folder, p, p')
    ensures w.healthy ==> ok
  {
    p' := p;
    ok := true;
    for n := 0 to |copies|
      invariant PlanOk(w.o, w.sys, p')
      invariant forall m :: 0 <= m < n ==> Planned(w.o, w.sys.db, folder, copies[m], w.sys.apps[copies[m]], {}, p')
      invariant PlanGrows(w.o, w.sys.db, folder, p, p')
    {
      ok, p' := PlanCopy(w, folder, copies[n], p');
      if !ok { return; }
    }
  }

  /** The copies of the bucket that no user has moved since a are planned for, if their UID is
      below limit, apart from keywords a user has changed. */
  ghost predicate PlannedBelow(o: Opts, a: Sys, s: Sys, folder: Folder, limit: nat, p: Plan) {
    forall i: nat :: Own(a, s, i) && a.apps[i].folder == folder && i + 1 < limit ==>
      Planned(o, a.db, folder, i, a.apps[i], Of(s.retagged, i), p)
  }

  /** Scanning so far: nothing but the environment has moved, and the bucket was shown as of a. */
  ghost predicate Scanning(a: Sys, s: Sys, shown: set<nat>, folder: Folder) {
    Drift(a, s) && forall i :: Own(a, s, i) && a.apps[i].folder == folder ==> i in shown
  }

  method PlanWindow(w: World, folder: Folder, start: nat, stop: nat, p: Plan, ghost a: Sys) returns (ok: bool, p': Plan)
    requires w.Valid() && w.sys.busy && w.sys.live == map[] && w.dst.selected == Some(folder) && 1 <= start <= stop
    requires Scanning(a, w.sys, w.dst.shown, folder) && PlanOk(w.o, w.sys, p)
    requires PlannedBelow(w.o, a, w.sys, folder, start, p)
    modifies w`run, w`sys, w.src`main, w.src`folders, w.dst`apps
    ensures w.Valid() && Scanning(a, w.sys, w.dst.shown, folder)
    ensures ok ==> PlanOk(w.o, w.sys, p') && PlannedBelow(w.o, a, w.sys, folder, stop + 1, p')
    ensures w.healthy ==> ok
  {
    ghost var b := w.sys;
    var copies;
    ok, copies := w.FetchCopies(folder, start, stop);
    p' := p;
    DriftTwice(a, b, w.sys);
    StillShown(a, b, w.sys, w.dst.shown, folder);
    if !ok { return; }
    DriftSorts(w.o, b, w.sys, folder);
    PlanKept(w.o, b, w.sys);
    ok, p' := PlanCopies(w, folder, copies, p);
    if ok { WindowPlanned(w, a, b, folder, start, stop, copies, p, p'); }
  }

  lemma StillShown(a: Sys, b: Sys, c: Sys, shown: set<nat>, folder: Folder)
    requires Scanning(a, b, shown, folder) && Drift(b, c) && Drift(a, c)
    ensures Scanning(a, c, shown, folder)
  {
    forall i | Own(a, c, i) ensures Own(a, b, i) {}
  }

  lemma WindowPlanned(w: World, a: Sys, b: Sys, folder: Folder, start: nat, stop: nat, copies: seq<nat>, p: Plan,
                      p': Plan)
    requires w.Valid() && Drift(b, w.sys) && Scanning(a, w.sys, w.dst.shown, folder)
    requires PlannedBelow(w.o, a, b, folder, start, p)
    requires forall i :: i in w.InBucket(folder) && i in w.dst.shown && start <= i + 1 <= stop ==> i in copies
    requires forall i :: i in copies ==> i in w.sys.apps && Planned(w.o, w.sys.db, folder, i, w.sys.apps[i], {}, p')
    requires PlanGrows(w.o, w.sys.db, folder, p, p')
    ensures PlannedBelow(w.o, a, w.sys, folder, stop + 1, p')
  {
    forall i: nat | Own(a, w.sys, i) && a.apps[i].folder == folder && i + 1 < stop + 1
      ensures Planned(w.o, a.db, folder, i, a.apps[i], Of(w.sys.retagged, i), p')
    {
      assert Drifted(a, w.sys, i) && Drifted(b, w.sys, i) && i in w.dst.shown;
      if i + 1 < start {
        assert Own(a, b, i);
        assert Planned(w.o, a.db, folder, i, a.apps[i], Of(b.retagged, i), p');
      } else {
        assert i in copies;
        KeywordsSame(w.o, a.db, w.sys.db, a.apps[i].key);
      }
    }
  }

  /** Scans the selected bucket. */
  method PlanFolder(w: World, folder: Folder, uidNext: nat, ghost a: Sys) returns (ok: bool, p: Plan)
    requires w.Valid() && w.sys.busy && w.sys.live == map[] && w.dst.selected == Some(folder)
    requires Scanning(a, w.sys, w.dst.shown, folder) && 1 <= uidNext && uidNext + w.o.uidBatch <= UID_LIMIT
    modifies w`run, w`sys, w.src`main, w.src`folders, w.dst`apps
    ensures w.Valid() && Scanning(a, w.sys, w.dst.shown, folder)
    ensures ok ==> PlanOk(w.o, w.sys, p) && PlannedBelow(w.o, a, w.sys, folder, uidNext, p)
    ensures w.healthy ==> ok
  {
    w.Safe();
    var spans := Scan.SpansOf(w.o, 1, uidNext);
    ok, p := PlanSpans(w, folder, spans, uidNext, a);
  }

  method PlanSpans(w: World, folder: Folder, spans: seq<Windows.Span>, uidNext: nat, ghost a: Sys)
    returns (ok: bool, p: Plan)
    requires w.Valid() && w.sys.busy && w.sys.live == map[] && w.dst.selected == Some(folder)
    requires Scanning(a, w.sys, w.dst.shown, folder) && Scan.Chain(spans, 1, uidNext)
    modifies w`run, w`sys, w.src`main, w.src`folders, w.dst`apps
    ensures w.Valid() && Scanning(a, w.sys, w.dst.shown, folder)
    ensures ok ==> PlanOk(w.o, w.sys, p) && PlannedBelow(w.o, a, w.sys, folder, uidNext, p)
    ensures w.healthy ==> ok
  {
    ok, p := true, Plan(map[], map[]);
    for n := 0 to |spans|
      invariant w.Valid() && Scanning(a, w.sys, w.dst.shown, folder)
      invariant PlanOk(w.o, w.sys, p) && PlannedBelow(w.o, a, w.sys, folder, Scan.From(spans, n, uidNext), p)
    {
      Scan.ChainAt(spans, 1, uidNext, n);
      ok, p := PlanWindow(w, folder, spans[n].start, spans[n].stop, p, a);
      if !ok { return; }
    }
  }

  // -------------------------------------------------------------- execution

  /** All groups but the rest carry their keywords. */
  ghost predicate Carried(a: Sys, b: Sys, folder: Folder, p: Plan, rest: set<set<string>>) {
    forall kws :: kws in p.groups && kws !in rest ==> Carry(a, b, folder, p.groups[kws], kws)
  }

  method StoreGroup(w: World, folder: Folder, p: Plan, kws: set<string>, rest: set<set<string>>, ghost a: Sys)
    returns (ok: bool)
    requires w.Valid() && w.sys.busy && w.sys.live == map[] && w.dst.selected == Some(folder)
    requires PlanOk(w.o, a, p) && kws in p.groups && kws in rest
    requires Sorting(w.o, a, w.sys, folder) && Unmoved(a, w.sys, folder) && Carried(a, w.sys, folder, p, rest)
    modifies w`run, w`sys, w.src`main, w.src`folders, w.dst`apps
    ensures w.Valid() && Sorting(w.o, a, w.sys, folder) && Unmoved(a, w.sys, folder)
    ensures ok ==> Carried(a, w.sys, folder, p, rest - {kws})
    ensures w.healthy ==> ok
  {
    ghost var b := w.sys;
    PlanKept(w.o, a, b);
    ok := StoreChunks(w, folder, p.groups[kws], kws);
    SortingTwice(w.o, a, b, w.sys, folder);
    if ok { GroupCarried(w.o, a, b, w.sys, folder, p, kws, rest); }
  }

  lemma GroupCarried(o: Opts, a: Sys, b: Sys, c: Sys, folder: Folder, p: Plan, kws: set<string>, rest: set<set<string>>)
    requires Sorting(o, a, b, folder) && Unmoved(a, b, folder) && Sorting(o, b, c, folder) && kws in p.groups
    requires Carried(a, b, folder, p, rest) && Carry(b, c, folder, p.groups[kws], kws)
    ensures Carried(a, c, folder, p, rest - {kws})
  {
    CarryDrifted(o, a, b, c, folder, p.groups[kws], kws);
    forall x | x in p.groups && x !in rest ensures Carry(a, c, folder, p.groups[x], x) {
      CarryStays(o, a, b, c, folder, p.groups[x], x);
    }
  }

  /** Keywords first, group by group in any order, while the copies are still here. */
  method StoreGroups(w: World, folder: Folder, p: Plan) returns (ok: bool)
    requires w.Valid() && w.sys.busy && w.sys.live == map[] && w.dst.selected == Some(folder) && PlanOk(w.o, w.sys, p)
    modifies w`run, w`sys, w`sum, w.src`main, w.src`folders, w.dst`apps
    ensures w.Valid() && Sorting(w.o, old(w.sys), w.sys, folder) && Unmoved(old(w.sys), w.sys, folder)
    ensures ok ==> Carried(old(w.sys), w.sys, folder, p, {})
    ensures w.healthy ==> ok
  {
    ghost var a := w.sys;
    var rest := p.groups.Keys;
    SortingStarts(w.o, a, folder);
    ok := true;
    while rest != {} && ok
      invariant w.Valid() && Sorting(w.o, a, w.sys, folder) && Unmoved(a, w.sys, folder)
      invariant rest <= p.groups.Keys && (ok ==> Carried(a, w.sys, folder, p, rest))
      invariant w.healthy ==> ok
      decreases |rest|
    {
      var kws :| kws in rest;
      ok := StoreGroup(w, folder, p, kws, rest, a);
      rest := rest - {kws};
      if ok { w.sum := w.sum.(keywordsUpdated := w.sum.keywordsUpdated + |p.groups[kws]|); }
    }
  }

  /** All targets but the rest have their copies. */
  ghost predicate Relocated(a: Sys, b: Sys, folder: Folder, p: Plan, rest: set<Folder>) {
    forall want :: want in p.wrong && want !in rest ==> Lie(a, b, folder, p.wrong[want], want)
  }

  method MoveGroup(w: World, folder: Folder, p: Plan, want: Folder, rest: set<Folder>, ghost a: Sys) returns (ok: bool)
    requires w.Valid() && w.sys.busy && w.sys.live == map[]
    requires PlanOk(w.o, a, p) && want in p.wrong && want in rest
    requires Sorting(w.o, a, w.sys, folder) && Relocated(a, w.sys, folder, p, rest)
    modifies w`run, w`sys, w.src`main, w.src`folders, w.dst`apps, w.dst`selected
    ensures w.Valid() && Sorting(w.o, a, w.sys, folder)
    ensures ok ==> Relocated(a, w.sys, folder, p, rest - {want})
    ensures w.healthy ==> ok
  {
    ghost var b := w.sys;
    PlanKept(w.o, a, b);
    ok := MoveChunks(w, folder, p.wrong[want], want);
    SortingTwice(w.o, a, b, w.sys, folder);
    if ok { GroupMoved(w.o, a, b, w.sys, folder, p, want, rest); }
  }

  lemma GroupMoved(o: Opts, a: Sys, b: Sys, c: Sys, folder: Folder, p: Plan, want: Folder, rest: set<Folder>)
    requires Sorting(o, a, b, folder) && Sorting(o, b, c, folder) && PlanOk(o, a, p) && want in p.wrong
    requires Relocated(a, b, folder, p, rest) && Lie(b, c, folder, p.wrong[want], want)
    ensures Relocated(a, c, folder, p, rest - {want})
  {
    LieNext(o, a, b, c, folder, p.wrong[want], want);
    forall x | x in p.wrong && x !in rest ensures Lie(a, c, folder, p.wrong[x], x) {
      LieStays(o, a, b, c, folder, p.wrong[x], x);
    }
  }

  /** Then the moves, target by target in any order. */
  method MoveGroups(w: World, folder: Folder, p: Plan) returns (ok: bool)
    requires w.Valid() && w.sys.busy && w.sys.live == map[] && PlanOk(w.o, w.sys, p)
    modifies w`run, w`sys, w`sum, w.src`main, w.src`folders, w.dst`apps, w.dst`selected
    ensures w.Valid() && Sorting(w.o, old(w.sys), w.sys, folder)
    ensures ok ==> Relocated(old(w.sys), w.sys, folder, p, {})
    ensures w.healthy ==> ok
  {
    ghost var a := w.sys;
    var rest := p.wrong.Keys;
    SortingStarts(w.o, a, folder);
    ok := true;
    while rest != {} && ok
      invariant w.Valid() && Sorting(w.o, a, w.sys, folder)
      invariant rest <= p.wrong.Keys && (ok ==> Relocated(a, w.sys, folder, p, rest))
      invariant w.healthy ==> ok
      decreases |rest|
    {
      var want :| want in rest;
      ok := MoveGroup(w, folder, p, want, rest, a);
      rest := rest - {want};
      if ok { w.sum := w.sum.(moved := w.sum.moved + |p.wrong[want]|); }
    }
  }

  /** The copies of the given buckets that no user has moved are sorted, apart from keywords a user
      has changed. */
  ghost predicate AllSorted(o: Opts, a: Sys, s: Sys, folders: seq<Folder>) {
    forall i :: Own(a, s, i) && a.apps[i].folder in folders ==> Shows(s, i, SortedApp(o, a.db, a.apps[i]))
  }

  /** A plan that covers the bucket, carried out, sorts it. */
  lemma PlanSorts(o: Opts, a: Sys, b: Sys, c: Sys, d: Sys, folder: Folder, limit: nat, p: Plan)
    requires Drift(a, b) && PlannedBelow(o, a, b, folder, limit, p) && forall i :: i in a.apps ==> i + 1 < limit
    requires Sorting(o, b, c, folder) && Unmoved(b, c, folder) && Carried(b, c, folder, p, {})
    requires Sorting(o, c, d, folder) && Relocated(c, d, folder, p, {})
    ensures Sorting(o, a, d, folder) && AllSorted(o, a, d, [folder])
  {
    DriftSorts(o, a, b, folder);
    SortingTwice(o, a, b, c, folder);
    SortingTwice(o, a, c, d, folder);
    forall i | Own(a, d, i) && a.apps[i].folder == folder ensures Shows(d, i, SortedApp(o, a.db, a.apps[i])) {
      assert Own(a, b, i) && Own(b, c, i) && Own(c, d, i) && Own(a, c, i);
      assert Drifted(a, b, i) && Handled(b, c, i) && Handled(c, d, i);
      CopySorts(o, a, b, c, d, folder, i, p);
    }
  }

  lemma CopySorts(o: Opts, a: Sys, b: Sys, c: Sys, d: Sys, folder: Folder, i: nat, p: Plan)
    requires Own(b, c, i) && Own(c, d, i) && i in a.apps && a.apps[i].folder == folder && Drifted(a, b, i)
    requires i !in b.refiled && Of(b.retagged, i) <= Of(c.retagged, i) <= Of(d.retagged, i)
    requires Planned(o, a.db, folder, i, a.apps[i], Of(b.retagged, i), p)
    requires c.db.members == b.db.members == a.db.members
    requires Unmoved(b, c, folder) && Carried(b, c, folder, p, {}) && Relocated(c, d, folder, p, {})
    requires Toward(o, b.db, b.apps[i], c, i) && Toward(o, c.db, c.apps[i], d, i) && Toward(o, a.db, a.apps[i], d, i)
    ensures Shows(d, i, SortedApp(o, a.db, a.apps[i]))
  {
    var k := a.apps[i].key;
    KeywordsSame(o, a.db, c.db, k);
    assert c.apps[i].folder == folder;
    if Routing(o) && DestFor(o, a.db, k) != folder {
      assert Lie(c, d, folder, p.wrong[DestFor(o, a.db, k)], DestFor(o, a.db, k));
    }
    forall w | w !in Of(d.retagged, i)
      ensures w in d.apps[i].flags <==> w in a.apps[i].flags || w in KeywordsOf(o, a.db, k)
    {
      if w in d.apps[i].flags { assert w in Less(d.apps[i], Of(d.retagged, i)).flags; }
      if w in a.apps[i].flags || w in KeywordsOf(o, a.db, k) { GetsKeyword(o, a, b, c, d, folder, i, p, w); }
    }
  }

  lemma GetsKeyword(o: Opts, a: Sys, b: Sys, c: Sys, d: Sys, folder: Folder, i: nat, p: Plan, w: string)
    requires Own(b, c, i) && i in d.apps && i in a.apps && b.apps[i].folder == folder && Drifted(a, b, i)
    requires Of(b.retagged, i) <= Of(c.retagged, i) <= Of(d.retagged, i) && w !in Of(d.retagged, i)
    requires Planned(o, a.db, folder, i, a.apps[i], Of(b.retagged, i), p) && Carried(b, c, folder, p, {})
    requires Toward(o, b.db, b.apps[i], c, i) && Toward(o, c.db, c.apps[i], d, i)
    requires w in a.apps[i].flags || w in KeywordsOf(o, a.db, a.apps[i].key)
    ensures w in d.apps[i].flags
  {
    if w in a.apps[i].flags {
      assert w in Less(c.apps[i], Of(c.retagged, i)).flags;
    } else {
      assert ToTag(p, i, w);
      var kws :| kws in p.groups && w in kws && i in p.groups[kws];
      assert Carry(b, c, folder, p.groups[kws], kws);
    }
    assert w in Less(d.apps[i], Of(d.retagged, i)).flags;
  }

  /** Sorts one bucket. */
  method BackfillDestFolder(w: World, folder: Folder) returns (ok: bool)
    requires w.Valid() && w.sys.busy && w.sys.live == map[]
    modifies w`run, w`sys, w`sum, w.src`main, w.src`folders, w.dst`apps, w.dst`selected, w.dst`shown
    ensures w.Valid() && Sorting(w.o, old(w.sys), w.sys, folder)
    ensures ok ==> AllSorted(w.o, old(w.sys), w.sys, [folder])
    ensures w.healthy && old(w.Room()) ==> ok
  {
    ghost var a := w.sys;
    var uidNext, messages;
    ok, uidNext, messages := w.SelectBucket(folder);
    DriftSorts(w.o, a, w.sys, folder);
    if !ok { return; }
    BucketShown(w, a, folder);
    if messages == 0 {
      assert w.dst.shown == {};
      return;
    }
    var p;
    ok, p := PlanFolder(w, folder, uidNext, a);
    ghost var b := w.sys;
    DriftSorts(w.o, a, b, folder);
    if !ok { return; }
    ok := StoreGroups(w, folder, p);
    ghost var c := w.sys;
    SortingTwice(w.o, a, b, c, folder);
    if !ok { return; }
    PlanKept(w.o, b, c);
    ok := MoveGroups(w, folder, p);
    SortingTwice(w.o, a, c, w.sys, folder);
    if ok { PlanSorts(w.o, a, b, c, w.sys, folder, uidNext, p); }
  }

  lemma BucketShown(w: World, a: Sys, folder: Folder)
    requires w.Valid() && Drift(a, w.sys) && w.dst.shown == w.InBucket(folder)
    ensures Scanning(a, w.sys, w.dst.shown, folder)
  {
    forall i | Own(a, w.sys, i) && a.apps[i].folder == folder ensures i in w.dst.shown {
      assert Drifted(a, w.sys, i);
    }
  }

  /** The backfill of the buckets so far, from a: those are sorted, the others rest. */
  ghost predicate Filled(o: Opts, a: Sys, s: Sys, folders: seq<Folder>) {
    && Handling(a, s)
    && AllSorted(o, a, s, folders)
    && forall i :: Own(a, s, i) ==>
         && (a.apps[i].folder !in folders ==> Shows(s, i, a.apps[i]))
         && Toward(o, a.db, a.apps[i], s, i)
  }

  lemma FilledMore(o: Opts, a: Sys, b: Sys, c: Sys, folders: seq<Folder>, folder: Folder)
    requires Filled(o, a, b, folders) && Sorting(o, b, c, folder)
    ensures Filling(o, a, c)
    ensures AllSorted(o, b, c, [folder]) ==> Filled(o, a, c, folders + [folder])
  {
    HandlingTwice(a, b, c);
    forall i | Own(a, c, i)
      ensures Toward(o, a.db, a.apps[i], c, i)
      ensures AllSorted(o, b, c, [folder]) && a.apps[i].folder in folders + [folder] ==>
                Shows(c, i, SortedApp(o, a.db, a.apps[i]))
      ensures a.apps[i].folder !in folders + [folder] ==> Shows(c, i, a.apps[i])
    {
      assert Own(a, b, i) && Own(b, c, i) && Handled(b, c, i);
      TowardTwice(o, a.db, a.apps[i], b, c, i);
      KeywordsSame(o, a.db, b.db, a.apps[i].key);
      if AllSorted(o, b, c, [folder]) { SortedOn(o, a, b, c, folders, folder, i); }
    }
  }

  lemma SortedOn(o: Opts, a: Sys, b: Sys, c: Sys, folders: seq<Folder>, folder: Folder, i: nat)
    requires Own(a, b, i) && Own(b, c, i) && Own(a, c, i) && Filled(o, a, b, folders) && Sorting(o, b, c, folder)
    requires AllSorted(o, b, c, [folder]) && Of(b.retagged, i) <= Of(c.retagged, i) && Toward(o, a.db, a.apps[i], c, i)
    ensures a.apps[i].folder in folders + [folder] ==> Shows(c, i, SortedApp(o, a.db, a.apps[i]))
  {
    KeywordsSame(o, a.db, b.db, a.apps[i].key);
  }

  /** What a backfill may change. */
  ghost predicate Backfilling(o: Opts, a: Sys, b: Sys) {
    && MailLater(a.src, b.src) && MailsLater(a.watched, b.watched)
    && b.db == a.db.(fingerprint := b.db.fingerprint)
    && b.busy == a.busy && b.live == a.live && b.blank == a.blank
    && a.observed <= b.observed && b.distinct <= a.distinct && a.names <= b.names
    && StillTracked(a, b) && Traced(a, b)
    && forall i :: Own(a, b, i) ==> Toward(o, a.db, a.apps[i], b, i)
  }

  /** Sorts all buckets, one after the other. */
  method BackfillBuckets(w: World) returns (ok: bool)
    requires w.Valid() && w.sys.busy && w.sys.live == map[]
    modifies w`run, w`sys, w`sum, w.src`main, w.src`folders, w.dst`apps, w.dst`selected, w.dst`shown
    ensures w.Valid() && Filling(w.o, old(w.sys), w.sys) && w.sys.db == old(w.sys).db
    ensures ok ==> AllSorted(w.o, old(w.sys), w.sys, Buckets(w.o))
    ensures w.healthy && old(w.Room()) ==> ok
  {
    ghost var a := w.sys;
    var folders := Buckets(w.o);
    FillingStarts(w.o, a);
    ok := true;
    for n := 0 to |folders|
      invariant w.Valid() && Filled(w.o, a, w.sys, folders[..n])
      invariant old(w.Room()) ==> w.Room()
    {
      ok := FillNext(w, folders, n, a);
      if !ok { return; }
    }
    assert folders[..|folders|] == folders;
  }

  method FillNext(w: World, folders: seq<Folder>, n: nat, ghost a: Sys) returns (ok: bool)
    requires w.Valid() && w.sys.busy && w.sys.live == map[] && n < |folders| && Filled(w.o, a, w.sys, folders[..n])
    modifies w`run, w`sys, w`sum, w.src`main, w.src`folders, w.dst`apps, w.dst`selected, w.dst`shown
    ensures w.Valid() && Filling(w.o, a, w.sys)
    ensures ok ==> Filled(w.o, a, w.sys, folders[..n + 1])
    ensures w.healthy && old(w.Room()) ==> ok
  {
    ghost var b := w.sys;
    ok := BackfillDestFolder(w, folders[n]);
    FilledMore(w.o, a, b, w.sys, folders[..n], folders[n]);
    assert folders[..n + 1] == folders[..n] + [folders[n]];
  }

  /** All copies are on their way. */
  ghost predicate Filling(o: Opts, a: Sys, b: Sys) {
    Handling(a, b) && forall i :: Own(a, b, i) ==> Toward(o, a.db, a.apps[i], b, i)
  }

  lemma FillingStarts(o: Opts, a: Sys)
    ensures Filled(o, a, a, []) && Filling(o, a, a)
  {
  }

  lemma BackfillEnds(o: Opts, a: Sys, b: Sys, c: Sys)
    requires Filling(o, a, b) && b.db == a.db && (c == b || Adopted(o, b, c))
    ensures Backfilling(o, a, c)
    ensures AllSorted(o, a, b, Buckets(o)) ==> AllSorted(o, a, c, Buckets(o))
  {
    forall i | i in c.apps && i in a.tagged ensures i in a.apps && StillExcused(a, c, i) {
      assert Handled(a, b, i);
    }
  }

  lemma SortedNow(o: Opts, a: Sys, s: Sys)
    requires Handling(a, s) && s.db == a.db && TrackInv(a) && LiveInv(o, a)
    requires TrackInv(s) && EditInv(s) && LiveInv(o, s)
    requires AllSorted(o, a, s, Buckets(o)) || !(Routing(o) || o.syncLabels)
    ensures Sorted(o, s)
  {
    forall i | i in s.apps && i in s.placed ensures s.apps[i].folder == DestFor(o, s.db, s.apps[i].key) {
      PlacedNow(o, a, s, i);
    }
    forall i, w |
      i in s.apps && i !in s.refiled && TracksKeyword(s, i, w) && w in KeywordsOf(o, s.db, s.apps[i].key)
      ensures w in s.apps[i].flags
    {
      TaggedNow(o, a, s, i, w);
    }
  }

  lemma PlacedNow(o: Opts, a: Sys, s: Sys, i: nat)
    requires Handling(a, s) && s.db == a.db && TrackInv(a) && LiveInv(o, a) && TrackInv(s) && LiveInv(o, s)
    requires AllSorted(o, a, s, Buckets(o)) || !(Routing(o) || o.syncLabels)
    requires i in s.apps && i in s.placed
    ensures s.apps[i].folder == DestFor(o, s.db, s.apps[i].key)
  {
    assert Followed(a, i) && s.apps[i].folder in Buckets(o) && a.apps[i].folder in Buckets(o);
    if Routing(o) || o.syncLabels { assert Own(a, s, i); }
  }

  lemma TaggedNow(o: Opts, a: Sys, s: Sys, i: nat, w: string)
    requires Handling(a, s) && s.db == a.db && TrackInv(a) && LiveInv(o, a) && EditInv(s)
    requires AllSorted(o, a, s, Buckets(o)) || !o.syncLabels
    requires i in s.apps && i !in s.refiled && TracksKeyword(s, i, w) && w in KeywordsOf(o, s.db, s.apps[i].key)
    ensures w in s.apps[i].flags
  {
    assert Followed(a, i) && a.apps[i].folder in Buckets(o);
    assert Own(a, s, i);
  }

  /** Runs the backfill when the configuration is not the one it last ran for. Only a completed
      backfill stores the new fingerprint. */
  method MaybeBackfill(w: World) returns (ok: bool)
    requires w.Valid() && w.sys.busy && w.sys.live == map[]
    modifies w`run, w`sys, w`sum, w.src`main, w.src`folders, w.dst`apps, w.dst`selected, w.dst`shown, w.store
    ensures w.Valid() && Backfilling(w.o, old(w.sys), w.sys)
    ensures ok ==> !Stale(w.o, w.sys.db)
    ensures ok && Stale(w.o, old(w.sys).db) && (Routing(w.o) || w.o.syncLabels) ==>
              AllSorted(w.o, old(w.sys), w.sys, Buckets(w.o))
    ensures !ok ==> w.sys.db == old(w.sys).db
    ensures !Stale(w.o, old(w.sys).db) ==> w.sys == old(w.sys) && w.sum == old(w.sum)
    ensures w.healthy && old(w.Room()) ==> ok
  {
    ok :| w.healthy ==> ok;
    if !ok || !Stale(w.o, w.store.db) { return; }
    ok := BackfillAll(w);
  }

  method BackfillAll(w: World) returns (ok: bool)
    requires w.Valid() && w.sys.busy && w.sys.live == map[]
    modifies w`run, w`sys, w`sum, w.src`main, w.src`folders, w.dst`apps, w.dst`selected, w.dst`shown, w.store
    ensures w.Valid() && Backfilling(w.o, old(w.sys), w.sys)
    ensures ok ==> !Stale(w.o, w.sys.db)
    ensures ok && (Routing(w.o) || w.o.syncLabels) ==> AllSorted(w.o, old(w.sys), w.sys, Buckets(w.o))
    ensures !ok ==> w.sys.db == old(w.sys).db
    ensures w.healthy && old(w.Room()) ==> ok
  {
    ghost var a := w.sys;
    FillingStarts(w.o, a);
    StartsSound(w);
    ok := true;
    if Routing(w.o) || w.o.syncLabels {
      ok := BackfillBuckets(w);
    }
    BackfillEnds(w.o, a, w.sys, w.sys);
    if ok { ok := AdoptFilled(w, a); }
  }

  /** The invariants a backfill starts with, said as Legal is. */
  ghost predicate SoundStart(o: Opts, a: Sys) {
    forall n: nat {:trigger Look(n)} :: Look(n) ==> TrackInv(a) && LiveInv(o, a)
  }

  lemma StartsSound(w: World)
    requires w.Valid()
    ensures SoundStart(w.o, w.sys)
  {
    w.Known();
  }

  method AdoptFilled(w: World, ghost a: Sys) returns (ok: bool)
    requires w.Valid() && w.sys.busy && Filling(w.o, a, w.sys) && w.sys.db == a.db && SoundStart(w.o, a)
    requires AllSorted(w.o, a, w.sys, Buckets(w.o)) || !(Routing(w.o) || w.o.syncLabels)
    modifies w`run, w`sys, w.store
    ensures w.Valid() && Backfilling(w.o, a, w.sys)
    ensures AllSorted(w.o, a, old(w.sys), Buckets(w.o)) ==> AllSorted(w.o, a, w.sys, Buckets(w.o))
    ensures if ok then !Stale(w.o, w.sys.db) else w.sys == old(w.sys)
    ensures w.healthy ==> ok
  {
    ghost var b := w.sys;
    MayAdopt(w, a);
    ok := AdoptConfig(w);
    BackfillEnds(w.o, a, b, w.sys);
  }

  lemma MayAdopt(w: World, a: Sys)
    requires w.Valid() && w.sys.busy && Handling(a, w.sys) && w.sys.db == a.db && SoundStart(w.o, a)
    requires AllSorted(w.o, a, w.sys, Buckets(w.o)) || !(Routing(w.o) || w.o.syncLabels)
    ensures Enabled(w.o, w.sys, AdoptFingerprint)
  {
    assert Look(0);
    RowsKnown(w, 0);
    SortedNow(w.o, a, w.sys);
  }

  /** Stores the fingerprint once every tracked copy is sorted. */
  method AdoptConfig(w: World) returns (ok: bool)
    requires w.Valid() && Enabled(w.o, w.sys, AdoptFingerprint)
    modifies w`run, w`sys, w.store
    ensures w.Valid() && if ok then Adopted(w.o, old(w.sys), w.sys) else w.sys == old(w.sys)
    ensures w.healthy ==> ok
  {
    ok := w.store.SetFingerprint(Fingerprint(w.o));
    if ok { LogAdopt(w); }
  }

  ghost method LogAdopt(w: World)
    requires Legal(w.o, w.run) && w.sys == Last(w.run) && Enabled(w.o, w.sys, AdoptFingerprint)
    modifies w`run, w`sys
    ensures Legal(w.o, w.run) && w.sys == Last(w.run) && Adopted(w.o, old(w.sys), w.sys)
  {
    w.Act(AdoptFingerprint);
  }

  /** The new fingerprint is stored; the keywords the backfill may have missed are excused. */
  ghost predicate Adopted(o: Opts, a: Sys, b: Sys) {
    && b.db == a.db.(fingerprint := Fingerprint(o))
    && b == a.(db := b.db, hist := b.hist, loose := b.loose) && b.loose == LooseFilled(o, a)
  }
}
