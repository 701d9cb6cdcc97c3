/** Draining the queue of pending operations (propagate and applyPending in
    internal/reconcile/membership.go): page by page, a row deleted only after its operation
    was applied or found unnecessary. */
module Queue {
  import opened Wrappers
  import opened State
  import opened Placement
  import opened Protocol
  import opened Safety
  import opened Convergence
  import opened Tracking
  import opened World
  import opened OpLog
  import Labels

  // ------------------------------------------------------------------ frames

  /** What work at the destination may change: copies are refiled and tagged, and the
      environment goes on. */
  ghost predicate Handling(a: Sys, b: Sys) {
    && MailLater(a.src, b.src) && MailsLater(a.watched, b.watched)
    && a.refiled <= b.refiled && a.arrived <= b.arrived && a.observed <= b.observed
    && b.placed <= a.placed <= b.placed + b.refiled && b.distinct <= a.distinct && a.names <= b.names
    && (forall i :: i in b.apps ==> Handled(a, b, i))
    && b == a.(src := b.src, watched := b.watched, apps := b.apps, refiled := b.refiled, retagged := b.retagged,
               arrived := b.arrived, observed := b.observed, placed := b.placed, loose := b.loose,
               distinct := b.distinct, names := b.names)
  }

  ghost predicate Handled(a: Sys, b: Sys, i: nat)
    requires i in b.apps
  {
    i in a.apps && b.apps[i].key == a.apps[i].key && (a.apps[i].landed ==> b.apps[i].landed) && Edits(a, b, i)
  }

  /** Copies that had landed, apart from what users have done to them: those of other keys stay
      as they are; those of key may get folder to and change in the keywords kws, nothing else. */
  ghost predicate Within(a: Sys, b: Sys, key: Key, to: Option<Folder>, kws: set<string>) {
    forall i :: i in b.apps && i in a.apps && a.apps[i].landed ==>
      && (i !in b.refiled ==>
            b.apps[i].folder == a.apps[i].folder || (b.apps[i].key == key && to == Some(b.apps[i].folder)))
      && forall w :: w !in Of(b.retagged, i) ==>
           (w in b.apps[i].flags <==> w in a.apps[i].flags) || (b.apps[i].key == key && w in kws)
  }

  /** The copies of key that had landed and that no user has moved: what they were, apart from the
      folder and the flags given, and keywords a user has changed. */
  ghost predicate Became(a: Sys, b: Sys, key: Key, to: Option<Folder>, add: set<string>, drop: set<string>) {
    forall i :: i in b.apps && i in a.apps && a.apps[i].landed && b.apps[i].key == key && i !in b.refiled ==>
      Shows(b, i, a.apps[i].(folder := if to.Some? then to.value else a.apps[i].folder,
                             flags := a.apps[i].flags - drop + add))
  }

  lemma DriftHandles(a: Sys, b: Sys, key: Key)
    requires Drift(a, b)
    ensures Handling(a, b) && (forall to, kws :: Within(a, b, key, to, kws)) && Became(a, b, key, None, {}, {})
  {
  }

  lemma HandlingTwice(a: Sys, b: Sys, c: Sys)
    requires Handling(a, b) && Handling(b, c)
    ensures Handling(a, c)
  {
  }

  lemma WithinTwice(a: Sys, b: Sys, c: Sys, key: Key, to: Option<Folder>, kws: set<string>)
    requires Handling(a, b) && Handling(b, c) && Within(a, b, key, to, kws) && Within(b, c, key, to, kws)
    ensures Within(a, c, key, to, kws)
  {
  }

  /** Not in bucket folder, unless a user has moved it. */
  ghost predicate Absent(a: Sys, b: Sys, key: Key, folder: Folder) {
    forall i :: i in b.apps && i in a.apps && a.apps[i].landed && b.apps[i].key == key && i !in b.refiled ==>
      a.apps[i].folder != folder
  }

  // ------------------------------------------------------------ one bucket

  /** The uids a Message-ID search in one bucket reports; users and servers go on meanwhile. */
  method SearchMessageID(w: World, folder: Folder, key: Key) returns (ok: bool, ids: set<nat>)
    requires w.Valid() && w.sys.busy && w.sys.live == map[]
    modifies w`run, w`sys, w.src`main, w.src`folders, w.dst`apps, w.dst`selected
    ensures w.Valid() && Drift(old(w.sys), w.sys)
    ensures forall i :: i in ids ==> i in old(w.sys).apps && old(w.sys).apps[i].key == key
    ensures ok ==>
                  forall i :: i in w.sys.apps && old(w.sys).apps[i].landed
                               && w.sys.apps[i].key == key && i !in w.sys.refiled ==>
                     (i in ids <==> w.sys.apps[i].folder == folder)
    ensures w.healthy ==> ok
  {
    ghost var a := w.sys;
    w.Interfere();
    ghost var b := w.sys;
    w.dst.selected := Some(folder);
    ids := set i | i in w.InBucket(folder) && w.dst.apps[i].key == key;
    ok :| w.healthy ==> ok;
    w.Interfere();
    StillFound(a, b, w.sys, key, folder, ids);
  }

  /** What a search found is there afterwards, unless a user has moved it. */
  lemma StillFound(a: Sys, b: Sys, c: Sys, key: Key, folder: Folder, ids: set<nat>)
    requires Drift(a, b) && Drift(b, c)
    requires ids == set i | i in b.apps && b.apps[i].landed && b.apps[i].folder == folder && b.apps[i].key == key
    ensures Drift(a, c) && forall i :: i in ids ==> i in a.apps && a.apps[i].key == key
    ensures forall i :: i in c.apps && a.apps[i].landed && c.apps[i].key == key && i !in c.refiled ==>
              (i in ids <==> c.apps[i].folder == folder)
  {
    DriftTwice(a, b, c);
    forall i | i in c.apps ensures i in b.apps && Drifted(b, c, i) && Drifted(a, b, i) {}
  }

  /** Moves the copies found in one bucket; after an error they may have been moved. */
  method MoveMessageID(w: World, from: Folder, to: Folder, key: Key) returns (ok: bool, moved: bool)
    requires w.Valid() && w.sys.busy && w.sys.live == map[] && to == DestFor(w.o, w.sys.db, key)
    modifies w`run, w`sys, w.src`main, w.src`folders, w.dst`apps, w.dst`selected
    ensures w.Valid() && Handling(old(w.sys), w.sys) && Within(old(w.sys), w.sys, key, Some(to), {})
    ensures ok && !moved ==> Became(old(w.sys), w.sys, key, None, {}, {}) && Absent(old(w.sys), w.sys, key, from)
    ensures ok && moved && Alone(old(w.sys), key) ==> Became(old(w.sys), w.sys, key, Some(to), {}, {})
    ensures w.healthy ==> ok
  {
    ghost var a := w.sys;
    var ids;
    ok, ids := SearchMessageID(w, from, key);
    DriftHandles(a, w.sys, key);
    moved := ok && ids != {};
    if !moved { return; }
    ghost var b := w.sys;
    var now := set i | i in ids && i in w.InBucket(from);
    ok :| w.healthy ==> ok;
    var done: bool := *;
    if !ok && !done { return; }
    Refile(w, now, to);
    MovedAway(a, b, w.sys, key, ids, now, from, to);
  }

  lemma MovedAway(a: Sys, b: Sys, c: Sys, key: Key, ids: set<nat>, now: set<nat>, from: Folder, to: Folder)
    requires Drift(a, b) && ids != {} && c == b.(apps := Refiled(b.apps, now, to))
    requires forall i :: i in ids ==> i in a.apps && a.apps[i].key == key
    requires forall i :: i in b.apps && a.apps[i].landed && b.apps[i].key == key && i !in b.refiled ==>
                     (i in ids <==> b.apps[i].folder == from)
    requires now == set i | i in ids && i in b.apps && b.apps[i].landed && b.apps[i].folder == from
    ensures Handling(a, c) && Within(a, c, key, Some(to), {})
    ensures Alone(a, key) ==> Became(a, c, key, Some(to), {}, {})
  {
    DriftHandles(a, b, key);
    MovedWithin(a, b, c, key, now, to);
    if Alone(a, key) { MovedBecame(a, b, c, key, ids, now, from, to); }
  }

  lemma MovedWithin(a: Sys, b: Sys, c: Sys, key: Key, now: set<nat>, to: Folder)
    requires Handling(a, b) && Within(a, b, key, None, {}) && c == b.(apps := Refiled(b.apps, now, to))
    requires forall i :: i in now ==> i in b.apps && b.apps[i].key == key
    ensures Handling(a, c) && Within(a, c, key, Some(to), {})
  {
    forall i | i in c.apps ensures Handled(a, c, i) {
      assert Handled(a, b, i);
    }
  }

  lemma MovedBecame(a: Sys, b: Sys, c: Sys, key: Key, ids: set<nat>, now: set<nat>, from: Folder, to: Folder)
    requires Became(a, b, key, None, {}, {}) && ids != {} && c == b.(apps := Refiled(b.apps, now, to))
    requires (forall i :: i in ids ==> i in a.apps && a.apps[i].key == key) && Alone(a, key)
    requires forall i :: i in b.apps ==> i in a.apps && b.apps[i].key == a.apps[i].key
    requires forall i :: i in b.apps && a.apps[i].landed ==> b.apps[i].landed
    requires forall i :: i in b.apps && a.apps[i].landed && b.apps[i].key == key && i !in b.refiled ==>
                     (i in ids <==> b.apps[i].folder == from)
    requires now == set i | i in ids && i in b.apps && b.apps[i].landed && b.apps[i].folder == from
    ensures Became(a, c, key, Some(to), {}, {})
  {
    var j :| j in ids;
    forall i | i in c.apps && a.apps[i].landed && c.apps[i].key == key && i !in c.refiled ensures i in now {
      assert i == j;
    }
  }

  /** The server moves copies between buckets. */
  method Refile(w: World, ids: set<nat>, to: Folder)
    requires w.Valid() && Enabled(w.o, w.sys, MoveCopies(ids, to))
    modifies w`run, w`sys, w.dst`apps
    ensures w.Valid() && w.sys == old(w.sys).(apps := Refiled(old(w.sys).apps, ids, to))
  {
    w.Act(MoveCopies(ids, to));
    w.dst.apps := Refiled(w.dst.apps, ids, to);
  }

  /** The server sets or clears the keyword of one row. */
  method Restamp(w: World, ids: set<nat>, op: PendingOp)
    requires w.Valid() && Enabled(w.o, w.sys, StoreKeyword(ids, op))
    modifies w`run, w`sys, w.dst`apps
    ensures w.Valid() && w.sys == old(w.sys).(apps := Stamped(w.o, old(w.sys).apps, ids, op))
  {
    w.Act(StoreKeyword(ids, op));
    w.dst.apps := Stamped(w.o, w.dst.apps, ids, op);
  }

  function Stamped(o: Opts, apps: map<nat, App>, ids: set<nat>, op: PendingOp): map<nat, App> {
    if op.add then Tagged(apps, ids, {Kw(o, op.folder)}) else Untagged(apps, ids, {Kw(o, op.folder)})
  }

  /** The keywords a row sets and clears. */
  function Sets(o: Opts, op: PendingOp): set<string> { if op.add then {Kw(o, op.folder)} else {} }

  function Clears(o: Opts, op: PendingOp): set<string> { if op.add then {} else {Kw(o, op.folder)} }

  /** Where a row may move its copy, and the keywords it may change. */
  function Target(o: Opts, db: Db, op: PendingOp): Option<Folder> {
    if op.kind == Move then Some(DestFor(o, db, op.key)) else None
  }

  function Stamps(o: Opts, op: PendingOp): set<string> {
    if op.kind == Keyword then {Kw(o, op.folder)} else {}
  }

  method StoreKeywordByMessageID(w: World, folder: Folder, op: PendingOp) returns (ok: bool, found: bool)
    requires w.Valid() && w.sys.busy && w.sys.live == map[]
    requires op in w.sys.db.pending && op.kind == Keyword && Kw(w.o, op.folder) != ""
    modifies w`run, w`sys, w.src`main, w.src`folders, w.dst`apps, w.dst`selected
    ensures w.Valid() && Handling(old(w.sys), w.sys)
    ensures Within(old(w.sys), w.sys, op.key, Target(w.o, old(w.sys).db, op), Stamps(w.o, op))
    ensures ok && !found ==>
                  Became(old(w.sys), w.sys, op.key, None, {}, {}) && Absent(old(w.sys), w.sys, op.key, folder)
    ensures ok && found && Alone(old(w.sys), op.key) ==>
              Became(old(w.sys), w.sys, op.key, None, Sets(w.o, op), Clears(w.o, op))
    ensures w.healthy ==> ok
  {
    ghost var a := w.sys;
    var ids;
    ok, ids := SearchMessageID(w, folder, op.key);
    DriftHandles(a, w.sys, op.key);
    found := ok && ids != {};
    if found { ok := StampFound(w, folder, op, ids, a); }
  }

  /** Sets or clears the keyword on the copies found, as far as they are still there; after an
      error it may have been done. */
  method StampFound(w: World, folder: Folder, op: PendingOp, ids: set<nat>, ghost a: Sys) returns (ok: bool)
    requires w.Valid() && w.sys.busy && w.sys.live == map[] && Drift(a, w.sys) && ids != {}
    requires op in w.sys.db.pending && op.kind == Keyword && Kw(w.o, op.folder) != ""
    requires forall i :: i in ids ==> i in a.apps && a.apps[i].key == op.key
    requires forall i :: i in w.sys.apps && a.apps[i].landed && w.sys.apps[i].key == op.key && i !in w.sys.refiled ==>
                     (i in ids <==> w.sys.apps[i].folder == folder)
    modifies w`run, w`sys, w.dst`apps
    ensures w.Valid() && Handling(a, w.sys) && Within(a, w.sys, op.key, None, Stamps(w.o, op))
    ensures ok && Alone(a, op.key) ==> Became(a, w.sys, op.key, None, Sets(w.o, op), Clears(w.o, op))
    ensures w.healthy ==> ok
  {
    ghost var b := w.sys;
    DriftHandles(a, b, op.key);
    var now := set i | i in ids && i in w.InBucket(folder);
    ok :| w.healthy ==> ok;
    var done: bool := *;
    if !ok && !done { return; }
    Restamp(w, now, op);
    StampedThere(w.o, a, b, w.sys, op, ids, now, folder);
  }

  lemma StampedThere(o: Opts, a: Sys, b: Sys, c: Sys, op: PendingOp, ids: set<nat>, now: set<nat>, folder: Folder)
    requires Drift(a, b) && ids != {} && c == b.(apps := Stamped(o, b.apps, now, op))
    requires forall i :: i in ids ==> i in a.apps && a.apps[i].key == op.key
    requires forall i :: i in b.apps && a.apps[i].landed && b.apps[i].key == op.key && i !in b.refiled ==>
                     (i in ids <==> b.apps[i].folder == folder)
    requires now == set i | i in ids && i in b.apps && b.apps[i].landed && b.apps[i].folder == folder
    ensures Handling(a, c) && Within(a, c, op.key, None, {Kw(o, op.folder)})
    ensures Alone(a, op.key) ==> Became(a, c, op.key, None, Sets(o, op), Clears(o, op))
  {
    DriftHandles(a, b, op.key);
    StampedWithin(o, a, b, c, op, now);
    if Alone(a, op.key) { StampedBecame(o, a, b, c, op, ids, now, folder); }
  }

  lemma StampedWithin(o: Opts, a: Sys, b: Sys, c: Sys, op: PendingOp, now: set<nat>)
    requires Handling(a, b) && Within(a, b, op.key, None, {}) && c == b.(apps := Stamped(o, b.apps, now, op))
    requires forall i :: i in now ==> i in b.apps && b.apps[i].key == op.key
    ensures Handling(a, c) && Within(a, c, op.key, None, {Kw(o, op.folder)})
  {
    forall i | i in c.apps ensures Handled(a, c, i) {
      assert Handled(a, b, i);
    }
  }

  lemma StampedBecame(o: Opts, a: Sys, b: Sys, c: Sys, op: PendingOp, ids: set<nat>, now: set<nat>, folder: Folder)
    requires Became(a, b, op.key, None, {}, {}) && ids != {} && c == b.(apps := Stamped(o, b.apps, now, op))
    requires (forall i :: i in ids ==> i in a.apps && a.apps[i].key == op.key) && Alone(a, op.key)
    requires forall i :: i in b.apps ==> i in a.apps && b.apps[i].key == a.apps[i].key
    requires forall i :: i in b.apps && a.apps[i].landed ==> b.apps[i].landed
    requires forall i :: i in b.apps && a.apps[i].landed && b.apps[i].key == op.key && i !in b.refiled ==>
                     (i in ids <==> b.apps[i].folder == folder)
    requires now == set i | i in ids && i in b.apps && b.apps[i].landed && b.apps[i].folder == folder
    ensures Became(a, c, op.key, None, Sets(o, op), Clears(o, op))
  {
    var j :| j in ids;
    forall i | i in c.apps && a.apps[i].landed && c.apps[i].key == op.key && i !in c.refiled ensures i in now {
      assert i == j;
    }
  }

  // ---------------------------------------------------------------- one row

  lemma BecameTwice(a: Sys, b: Sys, c: Sys, key: Key, to: Option<Folder>, add: set<string>, drop: set<string>)
    requires Handling(a, b) && Handling(b, c)
    requires Became(a, b, key, None, {}, {}) && Became(b, c, key, to, add, drop)
    ensures Became(a, c, key, to, add, drop)
  {
  }

  /** None of the given buckets holds the copy, except maybe the one desired. */
  ghost predicate SearchedIn(a: Sys, b: Sys, key: Key, folders: seq<Folder>, desired: Option<Folder>) {
    forall i :: i in b.apps && i in a.apps && a.apps[i].landed && b.apps[i].key == key && i !in b.refiled ==>
      a.apps[i].folder !in folders || desired == Some(a.apps[i].folder)
  }

  lemma SearchedMore(a: Sys, b: Sys, c: Sys, key: Key, folders: seq<Folder>, folder: Folder, desired: Option<Folder>)
    requires Handling(a, b) && Handling(b, c) && Became(a, b, key, None, {}, {})
    requires SearchedIn(a, b, key, folders, desired) && (desired == Some(folder) || Absent(b, c, key, folder))
    ensures SearchedIn(a, c, key, folders + [folder], desired)
  {
  }

  /** The copies of the row's key show its effect, unless a user has moved them; so does each
      keyword that no user has changed. */
  ghost predicate Took(o: Opts, a: Sys, b: Sys, op: PendingOp) {
    forall i :: i in b.apps && i in a.apps && a.apps[i].landed && b.apps[i].key == op.key && i !in b.refiled ==>
      Shows(b, i, Effect(o, a.db, a.apps[i], op))
  }

  /** What is known of a queued row. */
  lemma RowKnown(w: World, op: PendingOp)
    requires w.Valid() && op in w.sys.db.pending
    ensures op.kind == Keyword ==> op.folder in w.sys.labels && w.o.labelPropagate
    ensures LiveInv(w.o, w.sys)
  {
    w.Known();
    assert KnownLabels(w.o, w.sys, w.sys.db);
  }

  /** The buckets searched so far did not hold the copy. */
  ghost predicate Tried(a: Sys, b: Sys, key: Key, folders: seq<Folder>, desired: Option<Folder>) {
    Became(a, b, key, None, {}, {}) && SearchedIn(a, b, key, folders, desired)
  }

  /** Tries to move the copy out of one bucket. */
  method MoveFrom(w: World, op: PendingOp, folder: Folder, desired: Folder, ghost a: Sys, ghost done: seq<Folder>)
    returns (ok: bool, moved: bool)
    requires w.Valid() && w.sys.busy && w.sys.live == map[] && op in w.sys.db.pending
    requires op.kind == Move && desired == DestFor(w.o, w.sys.db, op.key)
    requires Handling(a, w.sys) && Within(a, w.sys, op.key, Target(w.o, a.db, op), Stamps(w.o, op))
    requires Tried(a, w.sys, op.key, done, Some(desired))
    modifies w`run, w`sys, w.src`main, w.src`folders, w.dst`apps, w.dst`selected
    ensures w.Valid() && Handling(a, w.sys) && Within(a, w.sys, op.key, Target(w.o, a.db, op), Stamps(w.o, op))
    ensures ok && !moved ==> Tried(a, w.sys, op.key, done + [folder], Some(desired))
    ensures ok && moved && Alone(a, op.key) ==> Became(a, w.sys, op.key, Some(desired), {}, {})
    ensures w.healthy ==> ok
  {
    ghost var b := w.sys;
    if folder == desired {
      SearchedMore(a, b, b, op.key, done, folder, Some(desired));
      return true, false;
    }
    ok, moved := MoveMessageID(w, folder, desired, op.key);
    MovedOn(w.o, a, b, w.sys, op, folder, desired, done);
  }

  lemma MovedOn(o: Opts, a: Sys, b: Sys, c: Sys, op: PendingOp, folder: Folder, desired: Folder, done: seq<Folder>)
    requires Handling(a, b) && Within(a, b, op.key, Target(o, a.db, op), Stamps(o, op))
    requires Handling(b, c) && Within(b, c, op.key, Target(o, a.db, op), Stamps(o, op))
    requires Tried(a, b, op.key, done, Some(desired))
    ensures Handling(a, c) && Within(a, c, op.key, Target(o, a.db, op), Stamps(o, op))
    ensures Became(b, c, op.key, None, {}, {}) && Absent(b, c, op.key, folder) ==>
              Tried(a, c, op.key, done + [folder], Some(desired))
    ensures Became(b, c, op.key, Some(desired), {}, {}) ==> Became(a, c, op.key, Some(desired), {}, {})
    ensures Alone(a, op.key) ==> Alone(b, op.key)
  {
    HandlingTwice(a, b, c);
    WithinTwice(a, b, c, op.key, Target(o, a.db, op), Stamps(o, op));
    if Became(b, c, op.key, Some(desired), {}, {}) { BecameTwice(a, b, c, op.key, Some(desired), {}, {}); }
    if Became(b, c, op.key, None, {}, {}) && Absent(b, c, op.key, folder) {
      BecameTwice(a, b, c, op.key, None, {}, {});
      SearchedMore(a, b, c, op.key, done, folder, Some(desired));
    }
  }

  /** Tries one bucket after the other. */
  method MoveFromAny(w: World, op: PendingOp, desired: Folder, folders: seq<Folder>) returns (ok: bool, moved: bool)
    requires w.Valid() && w.sys.busy && w.sys.live == map[] && op in w.sys.db.pending
    requires op.kind == Move && desired == DestFor(w.o, w.sys.db, op.key)
    modifies w`run, w`sys, w.src`main, w.src`folders, w.dst`apps, w.dst`selected
    ensures w.Valid() && Handling(old(w.sys), w.sys)
    ensures Within(old(w.sys), w.sys, op.key, Target(w.o, old(w.sys).db, op), Stamps(w.o, op))
    ensures ok && !moved ==> Tried(old(w.sys), w.sys, op.key, folders, Some(desired))
    ensures ok && moved && Alone(old(w.sys), op.key) ==> Became(old(w.sys), w.sys, op.key, Some(desired), {}, {})
    ensures w.healthy ==> ok
  {
    ghost var a := w.sys;
    ok, moved := true, false;
    var n := 0;
    while n < |folders| && ok && !moved
      invariant w.Valid() && Handling(a, w.sys) && n <= |folders|
      invariant Within(a, w.sys, op.key, Target(w.o, a.db, op), Stamps(w.o, op))
      invariant ok && !moved ==> Tried(a, w.sys, op.key, folders[..n], Some(desired))
      invariant ok && moved && Alone(a, op.key) ==> Became(a, w.sys, op.key, Some(desired), {}, {})
      invariant w.healthy ==> ok
      decreases |folders| - n
    {
      ok, moved := MoveFrom(w, op, folders[n], desired, a, folders[..n]);
      assert folders[..n + 1] == folders[..n] + [folders[n]];
      n := n + 1;
    }
    assert folders[..|folders|] == folders;
  }

  method ApplyMove(w: World, op: PendingOp) returns (ok: bool)
    requires w.Valid() && w.sys.busy && w.sys.live == map[]
    requires op in w.sys.db.pending && op.kind == Move && Routing(w.o)
    modifies w`run, w`sys, w`sum, w.src`main, w.src`folders, w.dst`apps, w.dst`selected
    ensures w.Valid() && Handling(old(w.sys), w.sys)
    ensures Within(old(w.sys), w.sys, op.key, Target(w.o, old(w.sys).db, op), Stamps(w.o, op))
    ensures ok && Alone(old(w.sys), op.key) ==>
              Became(old(w.sys), w.sys, op.key, Some(DestFor(w.o, old(w.sys).db, op.key)), {}, {})
    ensures w.healthy ==> ok
  {
    ghost var a := w.sys;
    RowKnown(w, op);
    ok :| w.healthy ==> ok;
    if !ok { return; }
    var desired := DestFor(w.o, w.store.db, op.key);
    var moved;
    ok, moved := MoveFromAny(w, op, desired, Buckets(w.o));
    if ok && moved { w.sum := w.sum.(moved := w.sum.moved + 1); }
    if ok && !moved { AllTried(w.o, a, w.sys, op.key, Buckets(w.o), Some(desired)); }
  }

  /** A copy that lies in no other bucket lies in the one desired. */
  lemma AllTried(o: Opts, a: Sys, b: Sys, key: Key, folders: seq<Folder>, desired: Option<Folder>)
    requires LiveInv(o, a) && folders == Buckets(o) && Tried(a, b, key, folders, desired)
    ensures forall add, drop :: Became(a, b, key, desired, add, drop) <== desired == None || (add == {} && drop == {})
  {
  }

  /** Tries to set or clear the keyword in one bucket. */
  method KeywordIn(w: World, op: PendingOp, folder: Folder, ghost a: Sys, ghost done: seq<Folder>)
    returns (ok: bool, found: bool)
    requires w.Valid() && w.sys.busy && w.sys.live == map[]
    requires op in w.sys.db.pending && op.kind == Keyword && Kw(w.o, op.folder) != ""
    requires Handling(a, w.sys) && Within(a, w.sys, op.key, Target(w.o, a.db, op), Stamps(w.o, op))
    requires Tried(a, w.sys, op.key, done, None)
    modifies w`run, w`sys, w.src`main, w.src`folders, w.dst`apps, w.dst`selected
    ensures w.Valid() && Handling(a, w.sys) && Within(a, w.sys, op.key, Target(w.o, a.db, op), Stamps(w.o, op))
    ensures ok && !found ==> Tried(a, w.sys, op.key, done + [folder], None)
    ensures ok && found && Alone(a, op.key) ==> Became(a, w.sys, op.key, None, Sets(w.o, op), Clears(w.o, op))
    ensures w.healthy ==> ok
  {
    ghost var b := w.sys;
    ok, found := StoreKeywordByMessageID(w, folder, op);
    HandlingTwice(a, b, w.sys);
    WithinTwice(a, b, w.sys, op.key, Target(w.o, a.db, op), Stamps(w.o, op));
    if !ok { return; }
    if found {
      if Alone(a, op.key) { BecameTwice(a, b, w.sys, op.key, None, Sets(w.o, op), Clears(w.o, op)); }
      return;
    }
    BecameTwice(a, b, w.sys, op.key, None, {}, {});
    SearchedMore(a, b, w.sys, op.key, done, folder, None);
  }

  method KeywordInAny(w: World, op: PendingOp, folders: seq<Folder>) returns (ok: bool, found: bool)
    requires w.Valid() && w.sys.busy && w.sys.live == map[]
    requires op in w.sys.db.pending && op.kind == Keyword && Kw(w.o, op.folder) != ""
    modifies w`run, w`sys, w.src`main, w.src`folders, w.dst`apps, w.dst`selected
    ensures w.Valid() && Handling(old(w.sys), w.sys)
    ensures Within(old(w.sys), w.sys, op.key, Target(w.o, old(w.sys).db, op), Stamps(w.o, op))
    ensures ok && !found ==> Tried(old(w.sys), w.sys, op.key, folders, None)
    ensures ok && found && Alone(old(w.sys), op.key) ==>
              Became(old(w.sys), w.sys, op.key, None, Sets(w.o, op), Clears(w.o, op))
    ensures w.healthy ==> ok
  {
    ghost var a := w.sys;
    ok, found := true, false;
    var n := 0;
    while n < |folders| && ok && !found
      invariant w.Valid() && Handling(a, w.sys) && n <= |folders|
      invariant Within(a, w.sys, op.key, Target(w.o, a.db, op), Stamps(w.o, op))
      invariant ok && !found ==> Tried(a, w.sys, op.key, folders[..n], None)
      invariant ok && found && Alone(a, op.key) ==> Became(a, w.sys, op.key, None, Sets(w.o, op), Clears(w.o, op))
      invariant w.healthy ==> ok
      decreases |folders| - n
    {
      ok, found := KeywordIn(w, op, folders[n], a, folders[..n]);
      assert folders[..n + 1] == folders[..n] + [folders[n]];
      n := n + 1;
    }
    assert folders[..|folders|] == folders;
  }

  method ApplyKeyword(w: World, op: PendingOp) returns (ok: bool)
    requires w.Valid() && w.sys.busy && w.sys.live == map[]
    requires op in w.sys.db.pending && op.kind == Keyword && Kw(w.o, op.folder) != ""
    modifies w`run, w`sys, w`sum, w.src`main, w.src`folders, w.dst`apps, w.dst`selected
    ensures w.Valid() && Handling(old(w.sys), w.sys)
    ensures Within(old(w.sys), w.sys, op.key, Target(w.o, old(w.sys).db, op), Stamps(w.o, op))
    ensures ok && Alone(old(w.sys), op.key) ==> Became(old(w.sys), w.sys, op.key, None, Sets(w.o, op), Clears(w.o, op))
    ensures w.healthy ==> ok
  {
    ghost var a := w.sys;
    RowKnown(w, op);
    var found;
    ok, found := KeywordInAny(w, op, Buckets(w.o));
    if ok && found { w.sum := w.sum.(keywordsUpdated := w.sum.keywordsUpdated + 1); }
    if ok && !found { AllTried(w.o, a, w.sys, op.key, Buckets(w.o), None); }
  }

  /** Applies one row, or finds that there is nothing to do. */
  method ApplyPending(w: World, op: PendingOp) returns (ok: bool)
    requires w.Valid() && w.sys.busy && w.sys.live == map[] && op in w.sys.db.pending
    modifies w`run, w`sys, w`sum, w.src`main, w.src`folders, w.dst`apps, w.dst`selected
    ensures w.Valid() && Handling(old(w.sys), w.sys)
    ensures Within(old(w.sys), w.sys, op.key, Target(w.o, old(w.sys).db, op), Stamps(w.o, op))
    ensures ok && Alone(old(w.sys), op.key) ==> Took(w.o, old(w.sys), w.sys, op)
    ensures w.healthy ==> ok
  {
    ghost var a := w.sys;
    NothingToDo(w.o, a, op);
    match op.kind {
      case Move =>
        if !Routing(w.o) { return true; }
        ok := ApplyMove(w, op);
        MoveTook(w.o, a, w.sys, op);
      case Keyword =>
        if !w.o.labelPropagate { return true; }
        var kw := Labels.LabelKeyword(op.folder, w.o.keywordPrefix, w.o.keywordReplacement);
        if kw == "" { return true; }
        ok := ApplyKeyword(w, op);
        KeywordTook(w.o, a, w.sys, op);
      case Other =>
        return true;
    }
  }

  lemma NothingToDo(o: Opts, s: Sys, op: PendingOp)
    ensures Handling(s, s) && Within(s, s, op.key, Target(o, s.db, op), Stamps(o, op))
    ensures op.kind == Other || (op.kind == Move && !Routing(o)) ==> Took(o, s, s, op)
    ensures op.kind == Keyword && (!o.labelPropagate || Kw(o, op.folder) == "") ==> Took(o, s, s, op)
  {
  }

  lemma MoveTook(o: Opts, a: Sys, b: Sys, op: PendingOp)
    requires Handling(a, b) && op.kind == Move && Routing(o)
    ensures Became(a, b, op.key, Some(DestFor(o, a.db, op.key)), {}, {}) ==> Took(o, a, b, op)
  {
  }

  lemma KeywordTook(o: Opts, a: Sys, b: Sys, op: PendingOp)
    requires Handling(a, b) && op.kind == Keyword && o.labelPropagate && Kw(o, op.folder) != ""
    ensures Became(a, b, op.key, None, Sets(o, op), Clears(o, op)) ==> Took(o, a, b, op)
  {
  }

  // ------------------------------------------------------------------ pages

  const PAGE := 200

  lemma ReplayedMore(o: Opts, a: Sys, b: Sys, c: Sys, q: seq<PendingOp>, op: PendingOp)
    requires Handling(a, b) && Handling(b, c) && Replayed(o, a, b, q)
    requires Within(b, c, op.key, Target(o, b.db, op), Stamps(o, op))
    requires Alone(b, op.key) ==> Took(o, b, c, op)
    ensures Replayed(o, a, c, q + [op])
  {
    forall i | Stayed(a, c, i) ensures Shows(c, i, Replay(o, a.db, a.apps[i], q + [op])) {
      assert Stayed(a, b, i);
      assert (q + [op])[..|q|] == q;
      ReplayKeeps(o, a.db, a.apps[i], q);
      ShownNext(o, a.db, b, c, i, Replay(o, a.db, a.apps[i], q), op);
    }
  }

  /** A copy that showed app shows one more row. */
  lemma ShownNext(o: Opts, db: Db, b: Sys, c: Sys, i: nat, app: App, op: PendingOp)
    requires Handling(b, c) && i in c.apps && i in b.apps && i !in c.refiled && b.apps[i].landed
    requires Shows(b, i, app) && app.key == b.apps[i].key && b.db.members == db.members
    requires Within(b, c, op.key, Target(o, b.db, op), Stamps(o, op))
    requires op.key == app.key ==> Took(o, b, c, op)
    ensures Shows(c, i, Effect(o, db, app, op))
  {
    KeywordsSame(o, db, b.db, app.key);
  }

  lemma NearlyDone(o: Opts, b: Sys, s: Sys, op: PendingOp)
    requires Within(b, s, op.key, Target(o, b.db, op), Stamps(o, op))
    ensures Nearly(o, b, s, op)
  {
  }

  /** Applies the next row of a page. */
  method ApplyNext(w: World, j: nat, ghost a: Sys) returns (ok: bool)
    requires w.Valid() && w.sys.busy && w.sys.live == map[] && j < |w.sys.db.pending|
    requires Ready(w.o, a, w.sys, w.sys, j)
    modifies w`run, w`sys, w`sum, w.src`main, w.src`folders, w.dst`apps, w.dst`selected
    ensures w.Valid() && Handling(a, w.sys)
    ensures if ok then Ready(w.o, a, w.sys, w.sys, j + 1) else Ready(w.o, a, old(w.sys), w.sys, j)
    ensures w.healthy ==> ok
  {
    ghost var b := w.sys;
    var q := w.store.db.pending;
    assert q[j] in q;
    ok := ApplyPending(w, q[j]);
    HandlingTwice(a, b, w.sys);
    NearlyDone(w.o, b, w.sys, q[j]);
    assert q[..j + 1] == q[..j] + [q[j]];
    if ok { ReplayedMore(w.o, a, b, w.sys, q[..j], q[j]); }
  }

  /** The first n rows have been replayed since a, and at most part of the next since b. */
  ghost predicate Ready(o: Opts, a: Sys, b: Sys, s: Sys, n: nat)
    requires n <= |s.db.pending|
  {
    && Handling(a, b) && Handling(b, s)
    && Replayed(o, a, b, s.db.pending[..n])
    && (s.apps == b.apps || (n < |s.db.pending| && Nearly(o, b, s, s.db.pending[n])))
  }

  /** Deletes the first n rows, all applied. */
  method DeleteDone(w: World, n: nat, ghost a: Sys, ghost b: Sys) returns (ok: bool)
    requires w.Valid() && w.sys.busy && n <= |w.sys.db.pending|
    requires TrackInv(a) && Ready(w.o, a, b, w.sys, n)
    modifies w`run, w`sys, w.store
    ensures w.Valid()
    ensures if ok then Deleted(w.o, old(w.sys), w.sys, n) else w.sys == old(w.sys)
    ensures w.healthy ==> ok
  {
    MayDelete(w, n, a, b);
    ok := DropRows(w, n);
  }

  method DropRows(w: World, n: nat) returns (ok: bool)
    requires w.Valid() && Enabled(w.o, w.sys, DeleteRows(n)) && n <= |w.sys.db.pending|
    requires WithoutRows(w.sys.db.pending, Ids(w.sys.db.pending[..n])) == w.sys.db.pending[n..]
    modifies w`run, w`sys, w.store
    ensures w.Valid()
    ensures if ok then Deleted(w.o, old(w.sys), w.sys, n) else w.sys == old(w.sys)
    ensures w.healthy ==> ok
  {
    ok := w.store.DeletePendingBatch(Ids(w.store.db.pending[..n]));
    if ok { LogDrop(w, n); }
  }

  ghost method LogDrop(w: World, n: nat)
    requires Legal(w.o, w.run) && w.sys == Last(w.run) && Enabled(w.o, w.sys, DeleteRows(n))
    modifies w`run, w`sys
    ensures Legal(w.o, w.run) && w.sys == Last(w.run) && Deleted(w.o, old(w.sys), w.sys, n)
  {
    w.Act(DeleteRows(n));
  }

  /** The first n rows are gone; what they may have missed is excused. */
  ghost predicate Deleted(o: Opts, a: Sys, b: Sys, n: nat) {
    && n <= |a.db.pending| && b.db == a.db.(pending := a.db.pending[n..])
    && b == a.(db := b.db, hist := b.hist, loose := b.loose)
    && b.loose == LooseDeleted(o, a, a.db.pending[..n])
  }

  lemma MayDelete(w: World, n: nat, a: Sys, b: Sys)
    requires w.Valid() && w.sys.busy && n <= |w.sys.db.pending|
    requires TrackInv(a) && Ready(w.o, a, b, w.sys, n)
    ensures Enabled(w.o, w.sys, DeleteRows(n))
    ensures WithoutRows(w.sys.db.pending, Ids(w.sys.db.pending[..n])) == w.sys.db.pending[n..]
  {
    RowsKnown(w, n);
    RowsApplied(w.o, a, b, w.sys, n);
    DeletePrefix(w.sys.db.pending, w.sys.db.nextId, n);
  }

  lemma RowsApplied(o: Opts, a: Sys, b: Sys, s: Sys, n: nat)
    requires n <= |s.db.pending| && TrackInv(a) && Ready(o, a, b, s, n)
    requires TrackInv(s) && EditInv(s) && LiveInv(o, s)
    requires s.db.pending[..n] + s.db.pending[n..] == s.db.pending
    requires forall op :: op in s.db.pending && op.kind == Keyword ==> op.folder in s.labels && o.labelPropagate
    ensures Applied(o, s, s.db.pending[..n], s.db.pending[n..])
  {
    ReplayedIsApplied(o, a, b, s, s.db.pending[..n], s.db.pending[n..]);
  }

  lemma RowsKnown(w: World, n: nat)
    requires w.Valid() && n <= |w.sys.db.pending|
    ensures TrackInv(w.sys) && EditInv(w.sys) && LiveInv(w.o, w.sys) && Ordered(w.sys.db.pending, w.sys.db.nextId)
    ensures w.sys.db.pending[..n] + w.sys.db.pending[n..] == w.sys.db.pending
    ensures forall op :: op in w.sys.db.pending && op.kind == Keyword ==>
                  op.folder in w.sys.labels && w.o.labelPropagate
  {
    w.Known();
    assert CommittedOk(w.sys, w.sys.db) && KnownLabels(w.o, w.sys, w.sys.db);
  }

  /** What draining the queue may change. */
  ghost predicate Draining(a: Sys, b: Sys) {
    && MailLater(a.src, b.src) && MailsLater(a.watched, b.watched)
    && b.db == a.db.(pending := b.db.pending)
    && |b.db.pending| <= |a.db.pending| && b.db.pending == a.db.pending[|a.db.pending| - |b.db.pending|..]
    && b.busy == a.busy && b.live == a.live && b.labels == a.labels && b.blank == a.blank
    && a.observed <= b.observed && b.distinct <= a.distinct && a.names <= b.names
    && b.placed <= a.placed && b.tagged == a.tagged && StillTracked(a, b) && Remembers(a, b)
    && (forall i :: i in b.apps ==>
          i in a.apps && b.apps[i].key == a.apps[i].key && (a.apps[i].landed ==> b.apps[i].landed))
  }

  lemma DrainingTwice(a: Sys, b: Sys, c: Sys)
    requires Draining(a, b) && Draining(b, c)
    ensures Draining(a, c)
  {
    var n, m := |a.db.pending| - |b.db.pending|, |b.db.pending| - |c.db.pending|;
    assert a.db.pending[n..][m..] == a.db.pending[n + m..];
  }

  lemma PageDrains(o: Opts, a: Sys, b: Sys, c: Sys, n: nat)
    requires Handling(a, b) && (c == b || Deleted(o, b, c, n))
    ensures Draining(a, c)
  {
    forall i | i in c.apps && i in a.tagged ensures i in a.apps && StillExcused(a, c, i) {
      assert Handled(a, b, i);
    }
  }

  lemma ReplayedPages(o: Opts, a: Sys, b: Sys, c: Sys, p: seq<PendingOp>, q: seq<PendingOp>)
    requires Draining(a, b) && Draining(b, c) && Replayed(o, a, b, p) && Replayed(o, b, c, q)
    ensures Replayed(o, a, c, p + q)
  {
    forall i | Stayed(a, c, i) ensures Shows(c, i, Replay(o, a.db, a.apps[i], p + q)) {
      assert Stayed(a, b, i) && Stayed(b, c, i);
      ReplaySplit(o, a.db, a.apps[i], p, q);
      ReplayMembers(o, a.db, b.db, b.apps[i], q);
      ReplayKeeps(o, a.db, a.apps[i], p);
      ShownAfter(o, a.db, b, c, i, Replay(o, a.db, a.apps[i], p), q);
    }
  }

  /** A copy that showed app shows the rows replayed since. */
  lemma ShownAfter(o: Opts, db: Db, b: Sys, c: Sys, i: nat, app: App, q: seq<PendingOp>)
    requires i in b.apps && i in c.apps && Remembers(b, c) && app.key == b.apps[i].key
    requires Shows(b, i, app) && Shows(c, i, Replay(o, db, b.apps[i], q))
    ensures Shows(c, i, Replay(o, db, app, q))
  {
    ReplayMoves(o, db, app, q);
    ReplayMoves(o, db, b.apps[i], q);
    forall w | w !in Of(c.retagged, i) ensures w in c.apps[i].flags <==> w in Replay(o, db, app, q).flags {
      ReplayFlags(o, db, app, q, w);
      ReplayFlags(o, db, b.apps[i], q, w);
    }
  }

  /** Applies the first n rows in order, until an error. */
  method ApplyPage(w: World, n: nat) returns (ok: bool, done: nat, ghost mid: Sys)
    requires w.Valid() && w.sys.busy && w.sys.live == map[] && n <= |w.sys.db.pending|
    modifies w`run, w`sys, w`sum, w.src`main, w.src`folders, w.dst`apps, w.dst`selected
    ensures w.Valid() && Handling(old(w.sys), w.sys) && done <= n && Ready(w.o, old(w.sys), mid, w.sys, done)
    ensures AppliedTo(w.o, old(w.sys), mid, w.sys, n, done)
    ensures ok ==> done == n && mid == w.sys
    ensures w.healthy ==> ok
  {
    ghost var a := w.sys;
    ok, done, mid := true, 0, w.sys;
    while done < n
      invariant w.Valid() && Handling(a, w.sys) && done <= n && Ready(w.o, a, w.sys, w.sys, done)
    {
      mid := w.sys;
      ok :| w.healthy ==> ok;
      if !ok { return; }
      ok := ApplyNext(w, done, a);
      if !ok { return; }
      done := done + 1;
    }
    mid := w.sys;
  }

  /** Of the first n rows of the queue of a, done had been replayed in state mid, and since then
      at most part of the next. */
  ghost predicate AppliedTo(o: Opts, a: Sys, mid: Sys, s: Sys, n: nat, done: nat) {
    && done <= n <= |a.db.pending| && Handling(a, mid) && Replayed(o, a, mid, a.db.pending[..done])
    && (s.apps == mid.apps || (done < n && Nearly(o, mid, s, a.db.pending[done])))
  }

  /** Applies the rows of one page in order and deletes exactly those applied: all of them, or
      those before an error, or none if the deletion fails. */
  method ProcessPage(w: World, n: nat) returns (ok: bool, ghost done: nat, ghost mid: Sys)
    requires w.Valid() && w.sys.busy && w.sys.live == map[] && n <= |w.sys.db.pending|
    modifies w`run, w`sys, w`sum, w.src`main, w.src`folders, w.dst`apps, w.dst`selected, w.store
    ensures w.Valid() && Draining(old(w.sys), w.sys)
    ensures AppliedTo(w.o, old(w.sys), mid, w.sys, n, done)
    ensures w.sys.db.pending == old(w.sys).db.pending[done..] || (!ok && w.sys.db.pending == old(w.sys).db.pending)
    ensures ok ==> done == n && Replayed(w.o, old(w.sys), w.sys, old(w.sys).db.pending[..n])
    ensures w.healthy ==> ok
  {
    ghost var a := w.sys;
    RowsKnown(w, 0);
    var applied, rows;
    applied, rows, mid := ApplyPage(w, n);
    done := rows;
    ghost var b := w.sys;
    ok := DeleteDone(w, rows, a, mid);
    PageDrains(w.o, a, b, w.sys, rows);
    AppliedOn(w.o, a, mid, b, w.sys, n, rows);
    ok := ok && applied;
  }

  lemma AppliedOn(o: Opts, a: Sys, mid: Sys, b: Sys, c: Sys, n: nat, done: nat)
    requires AppliedTo(o, a, mid, b, n, done) && c == b.(db := c.db, hist := c.hist, loose := c.loose)
    ensures AppliedTo(o, a, mid, c, n, done)
    ensures Replayed(o, a, b, a.db.pending[..done]) ==> Replayed(o, a, c, a.db.pending[..done])
  {
  }

  /** The rows of the queue of a that are gone show on the copies. */
  ghost predicate GoneShow(o: Opts, a: Sys, s: Sys) {
    Draining(a, s) && Replayed(o, a, s, a.db.pending[..|a.db.pending| - |s.db.pending|])
  }

  /** Said as Legal is. */
  ghost predicate Drained(o: Opts, a: Sys, s: Sys) {
    forall n: nat {:trigger Look(n)} :: Look(n) ==> GoneShow(o, a, s)
  }

  /** Processes one page, and reads the queue again. */
  method NextPage(w: World, ghost a: Sys) returns (ok: bool)
    requires w.Valid() && w.sys.busy && w.sys.live == map[] && Drained(w.o, a, w.sys) && w.sys.db.pending != []
    modifies w`run, w`sys, w`sum, w.src`main, w.src`folders, w.dst`apps, w.dst`selected, w.store
    ensures w.Valid() && Draining(a, w.sys) && w.sys.busy && w.sys.live == map[]
    ensures ok ==> |w.sys.db.pending| < |old(w.sys).db.pending| && Drained(w.o, a, w.sys)
    ensures w.healthy ==> ok
  {
    ghost var b := w.sys;
    var done: bool;
    ghost var rows, mid;
    done, rows, mid := ProcessPage(w, PageSize(w.store.db.pending));
    PageDrained(w.o, a, b, w.sys, PageSize(b.db.pending));
    ok :| w.healthy ==> ok;
    ok := ok && done;
  }

  /** The rows of the next page. */
  function PageSize(q: seq<PendingOp>): (n: nat)
    ensures n <= |q| && n <= PAGE && (q != [] ==> n > 0)
  {
    if |q| < PAGE then |q| else PAGE
  }

  lemma PageDrained(o: Opts, a: Sys, b: Sys, c: Sys, size: nat)
    requires Drained(o, a, b) && Draining(b, c) && size <= |b.db.pending|
    ensures Draining(a, c)
    ensures c.db.pending == b.db.pending[size..] && Replayed(o, b, c, b.db.pending[..size]) ==> Drained(o, a, c)
  {
    assert Look(0);
    DrainingTwice(a, b, c);
    var n := |a.db.pending| - |b.db.pending|;
    if c.db.pending == b.db.pending[size..] && Replayed(o, b, c, b.db.pending[..size]) {
      ReplayedPages(o, a, b, c, a.db.pending[..n], b.db.pending[..size]);
      assert a.db.pending[..n] + b.db.pending[..size] == a.db.pending[..n + size];
    }
  }

  /** Drains the queue page by page. On success it is empty, and every copy that had landed,
      the only one of its key, and that no user has moved is what the whole queue makes of it,
      apart from keywords a user has changed. */
  method Propagate(w: World) returns (ok: bool)
    requires w.Valid() && w.sys.busy && w.sys.live == map[]
    modifies w`run, w`sys, w`sum, w.src`main, w.src`folders, w.dst`apps, w.dst`selected, w.store
    ensures w.Valid() && Draining(old(w.sys), w.sys)
    ensures ok ==> w.sys.db.pending == []
    ensures ok ==> Replayed(w.o, old(w.sys), w.sys, old(w.sys).db.pending)
    ensures old(w.sys).db.pending == [] ==> w.sys == old(w.sys) && w.sum == old(w.sum)
    ensures w.healthy ==> ok
  {
    ghost var a := w.sys;
    ok :| w.healthy ==> ok;
    if !ok || w.store.db.pending == [] { return; }
    DrainedNone(w.o, a);
    while w.store.db.pending != []
      invariant w.Valid() && ok && w.sys.busy && w.sys.live == map[] && Drained(w.o, a, w.sys)
      decreases |w.store.db.pending|
    {
      ok := NextPage(w, a);
      if !ok { return; }
    }
    DrainedAll(w.o, a, w.sys);
  }

  lemma DrainedNone(o: Opts, a: Sys)
    requires Draining(a, a)
    ensures Drained(o, a, a)
  {
  }

  lemma DrainedAll(o: Opts, a: Sys, s: Sys)
    requires s.db.pending == [] && Drained(o, a, s)
    ensures Draining(a, s) && Replayed(o, a, s, a.db.pending)
  {
    assert Look(0);
    assert a.db.pending[..|a.db.pending|] == a.db.pending;
  }
}
