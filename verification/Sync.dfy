/** Membership of the watched source folders: incremental sync, rebuild, and the operations
    they queue (internal/reconcile/membership.go). */
module Sync {
  import opened Wrappers
  import opened State
  import opened Placement
  import opened Protocol
  import opened Rows
  import opened World
  import Windows
  import Scan

  // ------------------------------------------------- what a batch consists of

  /** The kind an added key asks for: none on a first scan or a uid refresh. */
  function AddKind(o: Opts, db: Db, f: Folder, key: Key, refresh: set<Key>, silent: bool): Option<Kind> {
    if silent || key in refresh then None else Gate(db, key, KindFor(o, f))
  }

  function Additions(o: Opts, db: Db, f: Folder, metas: seq<KeyRecord>, refresh: set<Key>, silent: bool): seq<Change> {
    seq(|metas|, i requires 0 <= i < |metas| =>
      Change(metas[i].key, metas[i].uid, true, AddKind(o, db, f, metas[i].key, refresh, silent)))
  }

  function Removals(o: Opts, db: Db, f: Folder, keys: seq<Key>): seq<Change> {
    seq(|keys|, i requires 0 <= i < |keys| => Change(keys[i], 0, false, Gate(db, keys[i], KindFor(o, f))))
  }

  lemma AdditionsAre(o: Opts, db: Db, f: Folder, metas: seq<KeyRecord>, refresh: set<Key>, silent: bool)
    ensures AllAdd(Additions(o, db, f, metas, refresh, silent))
    ensures ChangedKeys(Additions(o, db, f, metas, refresh, silent)) == RecordedKeys(metas)
    ensures forall c :: c in Additions(o, db, f, metas, refresh, silent) ==>
              KeyRecord(c.key, c.uid) in metas && c.kind == AddKind(o, db, f, c.key, refresh, silent)
  {
    var cs := Additions(o, db, f, metas, refresh, silent);
    forall c | c in cs
      ensures c.add && KeyRecord(c.key, c.uid) in metas && c.kind == AddKind(o, db, f, c.key, refresh, silent)
    {
      var i :| 0 <= i < |cs| && cs[i] == c;
      assert metas[i] in metas;
    }
    forall r | r in metas ensures r.key in ChangedKeys(cs) {
      var i :| 0 <= i < |metas| && metas[i] == r;
      assert cs[i] in cs;
    }
  }

  lemma RemovalsAre(o: Opts, db: Db, f: Folder, keys: seq<Key>)
    ensures AllRemove(Removals(o, db, f, keys))
    ensures ChangedKeys(Removals(o, db, f, keys)) == set k | k in keys
    ensures forall c :: c in Removals(o, db, f, keys) ==> c.kind == Gate(db, c.key, KindFor(o, f))
  {
    var cs := Removals(o, db, f, keys);
    forall k | k in keys ensures k in ChangedKeys(cs) {
      var i :| 0 <= i < |keys| && keys[i] == k;
      assert cs[i] in cs;
    }
  }

  // -------------------------------------------------------- agreement by keys

  /** The rows of the given keys have uids of mailbox m with these keys, no two the same. */
  ghost predicate SoundOn(db: Db, f: Folder, m: Mailbox, keys: set<Key>) {
    && (forall k :: k in keys ==>
          && (f, k) in db.members
          && 1 <= db.members[(f, k)] < m.uidNext
          && (db.members[(f, k)] in m.msgs ==> m.msgs[db.members[(f, k)]] == k))
    && (forall k, l :: k in keys && l in keys && db.members[(f, k)] == db.members[(f, l)] ==> k == l)
  }

  /** Every message of m up to stop has its row among those of the given keys. */
  ghost predicate CoverOn(db: Db, f: Folder, m: Mailbox, stop: nat, keys: set<Key>) {
    forall u :: u in m.msgs && u <= stop ==>
      m.msgs[u] in keys && (f, m.msgs[u]) in db.members && db.members[(f, m.msgs[u])] == u
  }

  /** The rows of these keys have the uids of messages still there. */
  ghost predicate UidsIn(db: Db, f: Folder, m: Mailbox, keys: set<Key>) {
    forall k :: k in keys ==> (f, k) in db.members && db.members[(f, k)] in m.msgs
  }

  lemma OnAll(db: Db, f: Folder, m: Mailbox, stop: nat)
    ensures RowsSound(db, f, m) <==> SoundOn(db, f, m, MemberKeys(db, f))
    ensures RowsCover(db, f, m, stop) <==> CoverOn(db, f, m, stop, MemberKeys(db, f))
  {
    assert forall k :: (f, k) in db.members <==> k in MemberKeys(db, f);
  }

  lemma OnLater(o: Opts, db: Db, f: Folder, m: Mailbox, m': Mailbox, stop: nat, keys: set<Key>)
    requires MailLater(m, m') && MailOk(o, m') && StopOk(m, stop)
    ensures StopOk(m', stop)
    ensures SoundOn(db, f, m, keys) ==> SoundOn(db, f, m', keys)
    ensures CoverOn(db, f, m, stop, keys) ==> CoverOn(db, f, m', stop, keys)
  {
  }

  /** The rows a batch of additions writes for the messages of one window. */
  lemma WindowRows(o: Opts, db: Db, f: Folder, m: Mailbox, metas: seq<KeyRecord>, start: nat, stop: nat,
                   refresh: set<Key>, silent: bool)
    requires Listed(metas, m, start, stop)
    ensures var db' := ApplyChanges(db, f, Additions(o, db, f, metas, refresh, silent));
            forall k :: k in RecordedKeys(metas) ==>
              && (f, k) in db'.members && start <= db'.members[(f, k)] <= stop
              && db'.members[(f, k)] in m.msgs && m.msgs[db'.members[(f, k)]] == k
  {
    var cs := Additions(o, db, f, metas, refresh, silent);
    AdditionsAre(o, db, f, metas, refresh, silent);
    AddsEffect(db, f, cs);
    var db' := ApplyChanges(db, f, cs);
    forall k | k in RecordedKeys(metas)
      ensures (f, k) in db'.members && start <= db'.members[(f, k)] <= stop
      ensures db'.members[(f, k)] in m.msgs && m.msgs[db'.members[(f, k)]] == k
    {
      var c :| c in cs && c.key == k && c.uid == db'.members[(f, k)];
      assert KeyRecord(c.key, c.uid) in metas;
    }
  }

  /** What a window of additions makes of the rows: those of its messages are written, the
      other ones stay. */
  ghost predicate Written(db: Db, db': Db, f: Folder, m: Mailbox, start: nat, stop: nat, keys: set<Key>,
                          news: set<Key>) {
    && (forall k :: k in news ==>
          && (f, k) in db'.members && start <= db'.members[(f, k)] <= stop
          && db'.members[(f, k)] in m.msgs && m.msgs[db'.members[(f, k)]] == k)
    && (forall k :: k in keys && k !in news ==>
          (f, k) in db.members && (f, k) in db'.members && db'.members[(f, k)] == db.members[(f, k)])
    && (forall u :: u in m.msgs && start <= u <= stop ==> m.msgs[u] in news)
  }

  lemma WindowWritten(o: Opts, db: Db, f: Folder, m: Mailbox, metas: seq<KeyRecord>, start: nat, stop: nat,
                      refresh: set<Key>, silent: bool, keys: set<Key>)
    requires Listed(metas, m, start, stop) && forall k :: k in keys ==> (f, k) in db.members
    ensures Written(db, ApplyChanges(db, f, Additions(o, db, f, metas, refresh, silent)), f, m, start, stop,
                    keys, RecordedKeys(metas))
  {
    var cs := Additions(o, db, f, metas, refresh, silent);
    AdditionsAre(o, db, f, metas, refresh, silent);
    ChangesFrame(db, f, cs);
    WindowRows(o, db, f, m, metas, start, stop, refresh, silent);
    forall u | u in m.msgs && start <= u <= stop ensures m.msgs[u] in RecordedKeys(metas) {
      assert KeyRecord(m.msgs[u], u) in metas;
    }
  }

  lemma WrittenSound(o: Opts, db: Db, db': Db, f: Folder, m: Mailbox, start: nat, stop: nat, keys: set<Key>,
                     news: set<Key>)
    requires MailOk(o, m) && SoundOn(db, f, m, keys) && Written(db, db', f, m, start, stop, keys, news)
    ensures SoundOn(db', f, m, keys + news)
    ensures UidsIn(db, f, m, keys) ==> UidsIn(db', f, m, keys + news)
  {
    forall k, l | k in keys + news && l in keys + news && db'.members[(f, k)] == db'.members[(f, l)]
      ensures k == l
    {
      if k in news { assert m.msgs[db'.members[(f, k)]] == k; }
      if l in news { assert m.msgs[db'.members[(f, l)]] == l; }
    }
  }

  lemma WrittenCovers(db: Db, db': Db, f: Folder, m: Mailbox, start: nat, stop: nat, keys: set<Key>, news: set<Key>)
    requires KeysDistinct(m) && 1 <= start <= stop
    requires CoverOn(db, f, m, start - 1, keys) && Written(db, db', f, m, start, stop, keys, news)
    ensures CoverOn(db', f, m, stop, keys + news)
  {
    forall u | u in m.msgs && u <= stop
      ensures m.msgs[u] in keys + news && (f, m.msgs[u]) in db'.members && db'.members[(f, m.msgs[u])] == u
    {
      if m.msgs[u] in news { assert db'.members[(f, m.msgs[u])] in m.msgs; }
    }
  }

  /** After the window from start to stop the rows are still sound and, where no key is held
      twice, cover the folder up to stop. */
  lemma WindowAgrees(o: Opts, db: Db, f: Folder, m: Mailbox, metas: seq<KeyRecord>, start: nat, stop: nat,
                     refresh: set<Key>, silent: bool, keys: set<Key>)
    requires MailOk(o, m) && Listed(metas, m, start, stop) && 1 <= start <= stop && SoundOn(db, f, m, keys)
    ensures var db', news := ApplyChanges(db, f, Additions(o, db, f, metas, refresh, silent)), RecordedKeys(metas);
            && SoundOn(db', f, m, keys + news)
            && (UidsIn(db, f, m, keys) ==> UidsIn(db', f, m, keys + news))
            && (KeysDistinct(m) && CoverOn(db, f, m, start - 1, keys) ==> CoverOn(db', f, m, stop, keys + news))
  {
    var db', news := ApplyChanges(db, f, Additions(o, db, f, metas, refresh, silent)), RecordedKeys(metas);
    WindowWritten(o, db, f, m, metas, start, stop, refresh, silent, keys);
    WrittenSound(o, db, db', f, m, start, stop, keys, news);
    if KeysDistinct(m) && CoverOn(db, f, m, start - 1, keys) {
      WrittenCovers(db, db', f, m, start, stop, keys, news);
    }
  }

  // -------------------------------------------------------- allowed batches

  lemma AdditionsOk(o: Opts, s: Sys, f: Folder, metas: seq<KeyRecord>, start: nat, stop: nat,
                    refresh: set<Key>, silent: bool)
    requires s.busy && s.live == map[] && f in s.watched && MailOk(o, s.watched[f])
    requires Listed(metas, s.watched[f], start, stop) && 1 <= start
    requires refresh <= MemberKeys(s.db, f) && (silent ==> f in s.virgin)
    requires Follows(s, s.db, f) ==> s.db.folders[f].lastUid < start && RowsSound(s.db, f, s.watched[f])
    requires Tracks(s, s.db, f) ==> KeysDistinct(s.watched[f])
    ensures MembersOk(o, s, f, Additions(o, s.db, f, metas, refresh, silent))
  {
    var cs := Additions(o, s.db, f, metas, refresh, silent);
    AdditionsAre(o, s.db, f, metas, refresh, silent);
    if Follows(s, s.db, f) {
      forall c | c in cs ensures AddSound(s, f, c) && (Tracks(s, s.db, f) ==> AddFresh(s, f, c)) {
        assert KeyRecord(c.key, c.uid) in metas;
      }
      forall c, d | c in cs && d in cs && c.uid == d.uid ensures c.key == d.key {
        assert KeyRecord(c.key, c.uid) in metas && KeyRecord(d.key, d.uid) in metas;
      }
    }
  }

  /** Keys whose stored uids are gone from the folder may be removed. */
  lemma RemovalsOk(o: Opts, s: Sys, f: Folder, keys: seq<Key>)
    requires s.busy && s.live == map[] && f in s.watched
    requires Tracks(s, s.db, f) ==>
               && RowsCover(s.db, f, s.watched[f], s.db.folders[f].lastUid)
               && forall k :: k in keys ==> (f, k) in s.db.members && s.db.members[(f, k)] !in s.watched[f].msgs
    ensures MembersOk(o, s, f, Removals(o, s.db, f, keys))
  {
    var cs := Removals(o, s.db, f, keys);
    RemovalsAre(o, s.db, f, keys);
    forall c | c in cs ensures c.key in keys && (Tracks(s, s.db, f) ==> RemoveOk(s, f, c)) {
      assert c.key in ChangedKeys(cs);
    }
  }

  // ------------------------------------------------------------ transactions

  /** The rows of the other folders. */
  function OtherRows(db: Db, f: Folder): map<(Folder, Key), nat> {
    map fk | fk in db.members && fk.0 != f :: db.members[fk]
  }

  /** What syncing folder f may change. */
  ghost predicate Synced(a: Sys, b: Sys, f: Folder) {
    && MailLater(a.src, b.src) && MailsLater(a.watched, b.watched)
    && b.db == a.db.(members := b.db.members, pending := b.db.pending, nextId := b.db.nextId, folders := b.db.folders)
    && a.db.pending <= b.db.pending
    && OtherRows(b.db, f) == OtherRows(a.db, f) && b.db.folders - {f} == a.db.folders - {f}
    && b.busy == a.busy && b.live == a.live && b.distinct <= a.distinct && a.observed <= b.observed
    && b.blank == a.blank && a.names <= b.names && Traced(a, b)
  }

  lemma SyncedTwice(a: Sys, b: Sys, c: Sys, f: Folder)
    requires Synced(a, b, f) && Synced(b, c, f)
    ensures Synced(a, c, f)
  {
  }

  lemma DriftSyncs(a: Sys, b: Sys, f: Folder)
    requires Drift(a, b)
    ensures Synced(a, b, f)
  {
  }

  /** The sources and what is known of them are untouched. */
  ghost predicate SameSources(a: Sys, b: Sys) {
    b.src == a.src && b.watched == a.watched && b.distinct == a.distinct && b.virgin == a.virgin
  }

  lemma OthersStay(db: Db, f: Folder, changes: seq<Change>)
    ensures OtherRows(ApplyChanges(db, f, changes), f) == OtherRows(db, f)
  {
    ChangesFrame(db, f, changes);
    var db' := ApplyChanges(db, f, changes);
    forall fk: (Folder, Key) | fk.0 != f
      ensures fk in db'.members <==> fk in db.members
      ensures fk in db.members ==> db'.members[fk] == db.members[fk]
    {
      assert fk == (fk.0, fk.1);
    }
  }

  /** One transaction of membership changes. */
  method StoreChanges(w: World, f: Folder, changes: seq<Change>) returns (ok: bool)
    requires w.Valid() && MembersOk(w.o, w.sys, f, changes)
    modifies w`run, w`sys, w.store
    ensures w.Valid() && Synced(old(w.sys), w.sys, f) && SameSources(old(w.sys), w.sys)
    ensures w.sys.db == if ok then ApplyChanges(old(w.sys).db, f, changes) else old(w.sys).db
    ensures changes == [] ==> ok && w.sys == old(w.sys)
    ensures w.healthy ==> ok
  {
    ChangesFrame(w.sys.db, f, changes);
    OthersStay(w.sys.db, f, changes);
    ok := w.store.MemberChangeBatch(f, changes);
    if ok && changes != [] { w.Act(Members(f, changes)); }
  }

  /** Stores the scan state of f. */
  method StoreMark(w: World, f: Folder, stop: nat) returns (ok: bool)
    requires w.Valid() && w.sys.busy && f in w.sys.watched
    requires StopOk(w.sys.watched[f], stop) && RowsSound(w.sys.db, f, w.sys.watched[f])
    requires f in w.sys.distinct ==> RowsCover(w.sys.db, f, w.sys.watched[f], stop)
    modifies w`run, w`sys, w.store
    ensures w.Valid() && Synced(old(w.sys), w.sys, f) && SameSources(old(w.sys), w.sys)
    ensures w.sys.db == if ok then Marked(old(w.sys), f, stop) else old(w.sys).db
    ensures w.healthy ==> ok
  {
    var mark := FolderMark(w.src.folders[f].validity, stop);
    ok := w.store.SetFolderState(f, mark);
    if ok { LogMark(w, f, stop); }
  }

  ghost method LogMark(w: World, f: Folder, stop: nat)
    requires Legal(w.o, w.run) && w.sys == Last(w.run) && f in w.sys.watched && Enabled(w.o, w.sys, MarkFolder(f, stop))
    modifies w`run, w`sys
    ensures Legal(w.o, w.run) && w.sys == Last(w.run)
    ensures w.sys == old(w.sys).(db := w.sys.db, hist := w.sys.hist)
    ensures w.sys.db == Marked(old(w.sys), f, stop)
  {
    w.Act(MarkFolder(f, stop));
  }

  function Marked(s: Sys, f: Folder, stop: nat): Db
    requires f in s.watched
  {
    s.db.(folders := s.db.folders[f := FolderMark(s.watched[f].validity, stop)])
  }

  /** Records the messages of one window as members. */
  method RecordAdditions(w: World, f: Folder, metas: seq<KeyRecord>, refresh: set<Key>, silent: bool) returns (ok: bool)
    requires w.Valid() && MembersOk(w.o, w.sys, f, Additions(w.o, w.sys.db, f, metas, refresh, silent))
    modifies w`run, w`sys, w.store
    ensures w.Valid() && Synced(old(w.sys), w.sys, f) && SameSources(old(w.sys), w.sys)
    ensures w.sys.db ==
            if ok then
              ApplyChanges(old(w.sys).db, f, Additions(w.o, old(w.sys).db, f, metas, refresh, silent))
            else old(w.sys).db
    ensures w.healthy ==> ok
  {
    ghost var all := Additions(w.o, w.sys.db, f, metas, refresh, silent);
    var items: seq<Change> := [];
    for i := 0 to |metas|
      invariant items == all[..i]
    {
      var failed: bool :| w.healthy ==> !failed;
      if failed { return false; }
      var key := metas[i].key;
      var kind := if silent || key in refresh then None else Gate(w.store.db, key, KindFor(w.o, f));
      items := items + [Change(key, metas[i].uid, true, kind)];
    }
    assert all[..|metas|] == all;
    ok := StoreChanges(w, f, items);
  }

  /** Records keys as no longer members. */
  method RecordRemovals(w: World, f: Folder, keys: seq<Key>) returns (ok: bool)
    requires w.Valid() && MembersOk(w.o, w.sys, f, Removals(w.o, w.sys.db, f, keys))
    modifies w`run, w`sys, w.store
    ensures w.Valid() && Synced(old(w.sys), w.sys, f) && SameSources(old(w.sys), w.sys)
    ensures w.sys.db ==
            if ok then ApplyChanges(old(w.sys).db, f, Removals(w.o, old(w.sys).db, f, keys)) else old(w.sys).db
    ensures keys == [] ==> w.sys == old(w.sys)
    ensures w.healthy ==> ok
  {
    ghost var all := Removals(w.o, w.sys.db, f, keys);
    var items: seq<Change> := [];
    for i := 0 to |keys|
      invariant items == all[..i]
    {
      var failed: bool :| w.healthy ==> !failed;
      if failed { return false; }
      items := items + [Change(keys[i], 0, false, Gate(w.store.db, keys[i], KindFor(w.o, f)))];
    }
    assert all[..|keys|] == all;
    ok := StoreChanges(w, f, items);
  }

  // ------------------------------------------------------------- queued rows

  ghost predicate Queued(rows: seq<PendingOp>, k: Key, add: bool) {
    exists row :: row in rows && row.key == k && row.add == add
  }

  /** rows are exactly what the gate lets through of the keys added and removed. */
  ghost predicate RowsExactly(o: Opts, db: Db, rows: seq<PendingOp>, f: Folder, added: set<Key>, removed: set<Key>) {
    && (forall row :: row in rows ==> row.folder == f && Gate(db, row.key, KindFor(o, f)) == Some(row.kind))
    && (forall k :: Queued(rows, k, true) <==> k in added && Gate(db, k, KindFor(o, f)).Some?)
    && (forall k :: Queued(rows, k, false) <==> k in removed && Gate(db, k, KindFor(o, f)).Some?)
  }

  lemma RowsJoin(o: Opts, db: Db, p: seq<PendingOp>, q: seq<PendingOp>, f: Folder,
                 a: set<Key>, r: set<Key>, a': set<Key>, r': set<Key>)
    requires RowsExactly(o, db, p, f, a, r) && RowsExactly(o, db, q, f, a', r')
    ensures RowsExactly(o, db, p + q, f, a + a', r + r')
  {
    forall k, add ensures Queued(p + q, k, add) <==> Queued(p, k, add) || Queued(q, k, add) {
      if Queued(p, k, add) {
        var row :| row in p && row.key == k && row.add == add;
        assert row in p + q;
      }
      if Queued(q, k, add) {
        var row :| row in q && row.key == k && row.add == add;
        assert row in p + q;
      }
    }
  }

  /** A batch of one sort queues exactly the gated keys of its changes. */
  lemma BatchRows(o: Opts, db: Db, f: Folder, cs: seq<Change>, add: bool, keys: set<Key>)
    requires forall c :: c in cs ==>
                  c.add == add && c.kind == if c.key in keys then Gate(db, c.key, KindFor(o, f)) else None
    requires keys <= ChangedKeys(cs)
    ensures RowsExactly(o, db, QueuedRows(f, cs, db.nextId), f, if add then keys else {}, if add then {} else keys)
  {
    var rows := QueuedRows(f, cs, db.nextId);
    QueuedRowsStem(f, cs, db.nextId);
    QueuedRowsCover(f, cs, db.nextId);
    forall row | row in rows
      ensures row.folder == f && row.add == add && row.key in keys && Gate(db, row.key, KindFor(o, f)) == Some(row.kind)
    {
      var j :| 0 <= j < |rows| && rows[j] == row;
      assert RowFrom(rows[j], cs);
      var c :| c in cs && RowOf(row, c);
    }
    forall k | k in keys && Gate(db, k, KindFor(o, f)).Some? ensures Queued(rows, k, add) {
      var c :| c in cs && c.key == k;
      assert HasRowOf(rows, c);
      var row :| row in rows && RowOf(row, c);
    }
  }

  // ----------------------------------------------------------------- rebuild

  /** A mailbox that ends as it began was never different in between. */
  lemma NeverDifferent(o: Opts, a: Mailbox, b: Mailbox, c: Mailbox)
    requires MailOk(o, a) && MailOk(o, b) && MailOk(o, c) && MailLater(a, b) && MailLater(b, c) && c == a
    ensures b == a
  {
    assert a.msgs.Keys == b.msgs.Keys;
  }

  /** A rebuild of f in session s that has seen the messages below start: base is the state
      it began with, m0 the folder then. */
  ghost predicate Progress(o: Opts, s: Sys, base: Db, m0: Mailbox, f: Folder, start: nat, seen: set<Key>) {
    && f in s.watched && !Follows(s, s.db, f) && MailOk(o, s.watched[f]) && MailOk(o, m0) && MailLater(m0, s.watched[f])
    && s.db.copied == base.copied
    && MemberKeys(s.db, f) == MemberKeys(base, f) + seen
    && (forall u :: u in s.watched[f].msgs && u < start ==> s.watched[f].msgs[u] in seen)
    && (s.watched[f] == m0 ==> seen <= m0.msgs.Values && UidsIn(s.db, f, m0, seen))
    && 1 <= start && StopOk(s.watched[f], start - 1) && SoundOn(s.db, f, s.watched[f], seen)
    && (f in s.distinct ==> CoverOn(s.db, f, s.watched[f], start - 1, seen))
    && base.pending <= s.db.pending
    && RowsExactly(o, base, s.db.pending[|base.pending|..], f,
                   if MemberKeys(base, f) == {} then {} else seen - MemberKeys(base, f), {})
  }

  lemma ProgressDrifts(o: Opts, s: Sys, s': Sys, base: Db, m0: Mailbox, f: Folder, start: nat, seen: set<Key>)
    requires Progress(o, s, base, m0, f, start, seen) && Drift(s, s') && MailOk(o, s'.watched[f])
    ensures Progress(o, s', base, m0, f, start, seen)
  {
    assert MailLater(s.watched[f], s'.watched[f]);
    if s'.watched[f] == m0 {
      NeverDifferent(o, m0, s.watched[f], s'.watched[f]);
    }
    OnLater(o, s.db, f, s.watched[f], s'.watched[f], start - 1, seen);
  }

  lemma ProgressWindow(o: Opts, s: Sys, s': Sys, base: Db, m0: Mailbox, f: Folder, start: nat, stop: nat,
                       seen: set<Key>, metas: seq<KeyRecord>)
    requires Progress(o, s, base, m0, f, start, seen) && start <= stop < s.watched[f].uidNext
    requires Listed(metas, s.watched[f], start, stop) && SameSources(s, s') && (f in s.distinct ==>
                  KeysDistinct(s.watched[f]))
    requires var stored := MemberKeys(base, f);
             s'.db == ApplyChanges(s.db, f, Additions(o, s.db, f, metas, stored, stored == {}))
    ensures Progress(o, s', base, m0, f, stop + 1, seen + RecordedKeys(metas))
  {
    var stored := MemberKeys(base, f);
    AdditionsJoin(o, s.db, f, metas, stored, stored == {});
    WindowAgrees(o, s.db, f, s.watched[f], metas, start, stop, stored, stored == {}, seen);
    ProgressRows(o, s.db, base, f, seen, metas);
    ProgressCover(s.watched[f], metas, start, stop, seen);
  }

  /** A batch of additions makes its keys members and changes nothing else of the kind. */
  lemma AdditionsJoin(o: Opts, db: Db, f: Folder, metas: seq<KeyRecord>, refresh: set<Key>, silent: bool)
    ensures var db' := ApplyChanges(db, f, Additions(o, db, f, metas, refresh, silent));
            && MemberKeys(db', f) == MemberKeys(db, f) + RecordedKeys(metas)
            && db'.copied == db.copied && db'.folders == db.folders
  {
    var cs := Additions(o, db, f, metas, refresh, silent);
    AdditionsAre(o, db, f, metas, refresh, silent);
    ChangesFrame(db, f, cs);
    AddsEffect(db, f, cs);
    var db' := ApplyChanges(db, f, cs);
    forall k ensures k in MemberKeys(db', f) <==> k in MemberKeys(db, f) || k in RecordedKeys(metas) {
      assert k in MemberKeys(db', f) <==> (f, k) in db'.members;
      assert k in MemberKeys(db, f) <==> (f, k) in db.members;
    }
  }

  lemma ProgressCover(m: Mailbox, metas: seq<KeyRecord>, start: nat, stop: nat, seen: set<Key>)
    requires Listed(metas, m, start, stop) && forall u :: u in m.msgs && u < start ==> m.msgs[u] in seen
    ensures forall u :: u in m.msgs && u < stop + 1 ==> m.msgs[u] in seen + RecordedKeys(metas)
    ensures RecordedKeys(metas) <= m.msgs.Values
  {
    forall u | u in m.msgs && start <= u <= stop ensures m.msgs[u] in RecordedKeys(metas) {
      assert KeyRecord(m.msgs[u], u) in metas;
    }
  }

  lemma QueueGrows(db: Db, f: Folder, cs: seq<Change>)
    ensures ApplyChanges(db, f, cs).pending == db.pending + QueuedRows(f, cs, db.nextId)
  {
    ChangesFrame(db, f, cs);
  }

  lemma AdditionRows(o: Opts, db: Db, base: Db, f: Folder, metas: seq<KeyRecord>, stored: set<Key>, added: set<Key>)
    requires db.copied == base.copied && added == if stored == {} then {} else RecordedKeys(metas) - stored
    ensures var cs := Additions(o, db, f, metas, stored, stored == {});
            RowsExactly(o, base, QueuedRows(f, cs, db.nextId), f, added, {})
  {
    var cs := Additions(o, db, f, metas, stored, stored == {});
    AdditionsAre(o, db, f, metas, stored, stored == {});
    BatchRows(o, db, f, cs, true, added);
    SameGate(o, db, base, QueuedRows(f, cs, db.nextId), f, added, {});
  }

  lemma SameGate(o: Opts, db: Db, base: Db, rows: seq<PendingOp>, f: Folder, a: set<Key>, r: set<Key>)
    requires db.copied == base.copied && RowsExactly(o, db, rows, f, a, r)
    ensures RowsExactly(o, base, rows, f, a, r)
  {
  }

  lemma ProgressRows(o: Opts, db: Db, base: Db, f: Folder, seen: set<Key>, metas: seq<KeyRecord>)
    requires db.copied == base.copied && base.pending <= db.pending
    requires var stored := MemberKeys(base, f);
             RowsExactly(o, base, db.pending[|base.pending|..], f, if stored == {} then {} else seen - stored, {})
    ensures var stored := MemberKeys(base, f);
            var db' := ApplyChanges(db, f, Additions(o, db, f, metas, stored, stored == {}));
            && base.pending <= db'.pending
            && RowsExactly(o, base, db'.pending[|base.pending|..], f,
                           if stored == {} then {} else (seen + RecordedKeys(metas)) - stored, {})
  {
    var stored := MemberKeys(base, f);
    var cs := Additions(o, db, f, metas, stored, stored == {});
    var db' := ApplyChanges(db, f, cs);
    var added := if stored == {} then {} else RecordedKeys(metas) - stored;
    AdditionRows(o, db, base, f, metas, stored, added);
    QueueGrows(db, f, cs);
    var rows := QueuedRows(f, cs, db.nextId);
    RowsJoin(o, base, db.pending[|base.pending|..], rows, f, if stored == {} then {} else seen - stored, {}, added, {});
    assert db'.pending[|base.pending|..] == db.pending[|base.pending|..] + rows;
    assert (seen - stored) + (RecordedKeys(metas) - stored) == (seen + RecordedKeys(metas)) - stored;
  }

  method RebuildWindow(w: World, f: Folder, start: nat, stop: nat, stored: set<Key>, seen: set<Key>,
                       ghost a: Sys, ghost base: Db, ghost m0: Mailbox)
    returns (ok: bool, seen': set<Key>)
    requires w.Valid() && w.sys.busy && w.sys.live == map[] && w.src.selected == Named(f) && f in w.src.folders
    requires Synced(a, w.sys, f)
    requires Progress(w.o, w.sys, base, m0, f, start, seen) && start <= stop < w.sys.watched[f].uidNext
    requires stored == MemberKeys(base, f) && (stored == {} ==> f in w.sys.virgin)
    modifies w`run, w`sys, w.src`main, w.src`folders, w.dst`apps, w.store
    ensures w.Valid() && Synced(a, w.sys, f) && w.sys.virgin == old(w.sys).virgin
    ensures ok ==> Progress(w.o, w.sys, base, m0, f, stop + 1, seen')
    ensures w.healthy ==> ok
  {
    var metas;
    ok, metas := w.FetchMetaRange(start, stop);
    seen' := seen + RecordedKeys(metas);
    ghost var b := w.sys;
    w.Known();
    DriftSyncs(old(w.sys), b, f);
    SyncedTwice(a, old(w.sys), b, f);
    if !ok { return; }
    ProgressDrifts(w.o, old(w.sys), b, base, m0, f, start, seen);
    AdditionsOk(w.o, b, f, metas, start, stop, stored, stored == {});
    ok := RecordAdditions(w, f, metas, stored, stored == {});
    SyncedTwice(a, b, w.sys, f);
    if ok { ProgressWindow(w.o, b, w.sys, base, m0, f, start, stop, seen, metas); }
  }

  /** What a completed rebuild of f leaves, base being the state it began with, m0 the folder
      then: exact membership, and exactly the gated difference in the queue. */
  ghost predicate Rebuilt(o: Opts, s: Sys, base: Db, m0: Mailbox, f: Folder) {
    var before, after := MemberKeys(base, f), MemberKeys(s.db, f);
    && Follows(s, s.db, f) && m0.uidNext <= s.db.folders[f].lastUid + 1
    && (forall u :: u in s.watched[f].msgs && u < m0.uidNext ==> s.watched[f].msgs[u] in after)
    && (s.watched[f] == m0 ==> after == m0.msgs.Values && UidsIn(s.db, f, m0, after))
    && base.pending <= s.db.pending
    && RowsExactly(o, base, s.db.pending[|base.pending|..], f,
                   if before == {} then {} else after - before, before - after)
  }

  lemma RemovalsLeave(o: Opts, db: Db, f: Folder, keys: seq<Key>)
    ensures var db' := ApplyChanges(db, f, Removals(o, db, f, keys));
            && MemberKeys(db', f) == MemberKeys(db, f) - (set k | k in keys)
            && db'.copied == db.copied && db'.folders == db.folders
            && (forall k :: k !in keys && (f, k) in db.members ==>
                  (f, k) in db'.members && db'.members[(f, k)] == db.members[(f, k)])
  {
    var cs := Removals(o, db, f, keys);
    RemovalsAre(o, db, f, keys);
    ChangesFrame(db, f, cs);
    RemovesEffect(db, f, cs);
    var db' := ApplyChanges(db, f, cs);
    forall k ensures k in MemberKeys(db', f) <==> k in MemberKeys(db, f) && k !in keys {
      assert k in MemberKeys(db', f) <==> (f, k) in db'.members;
      assert k in MemberKeys(db, f) <==> (f, k) in db.members;
    }
  }

  /** Dropping the keys not seen leaves the rows of those seen. */
  lemma FinishMembers(o: Opts, s: Sys, db': Db, base: Db, m0: Mailbox, f: Folder, start: nat, seen: set<Key>,
                      gone: seq<Key>)
    requires Progress(o, s, base, m0, f, start, seen)
    requires forall k :: k in gone <==> k in MemberKeys(base, f) - seen
    requires db' == ApplyChanges(s.db, f, Removals(o, s.db, f, gone))
    ensures MemberKeys(db', f) == seen && db'.folders == s.db.folders
    ensures RowsSound(db', f, s.watched[f]) && (s.watched[f] == m0 ==> UidsIn(db', f, m0, seen))
    ensures f in s.distinct ==> RowsCover(db', f, s.watched[f], start - 1)
  {
    RemovalsLeave(o, s.db, f, gone);
    OnAll(db', f, s.watched[f], start - 1);
  }

  lemma FinishRows(o: Opts, db: Db, base: Db, f: Folder, seen: set<Key>, gone: seq<Key>)
    requires db.copied == base.copied && base.pending <= db.pending
    requires forall k :: k in gone <==> k in MemberKeys(base, f) - seen
    requires var before := MemberKeys(base, f);
             RowsExactly(o, base, db.pending[|base.pending|..], f, if before == {} then {} else seen - before, {})
    ensures var before := MemberKeys(base, f);
            var db' := ApplyChanges(db, f, Removals(o, db, f, gone));
            && base.pending <= db'.pending
            && RowsExactly(o, base, db'.pending[|base.pending|..], f,
                           if before == {} then {} else seen - before, before - seen)
  {
    var before := MemberKeys(base, f);
    var cs := Removals(o, db, f, gone);
    var db' := ApplyChanges(db, f, cs);
    RemovalsAre(o, db, f, gone);
    QueueGrows(db, f, cs);
    var rows := QueuedRows(f, cs, db.nextId);
    BatchRows(o, db, f, cs, false, before - seen);
    SameGate(o, db, base, rows, f, {}, before - seen);
    var added := if before == {} then {} else seen - before;
    RowsJoin(o, base, db.pending[|base.pending|..], rows, f, added, {}, {}, before - seen);
    assert db'.pending[|base.pending|..] == db.pending[|base.pending|..] + rows;
  }

  method Sequence<T>(s: set<T>) returns (q: seq<T>)
    ensures (forall x :: x in q <==> x in s) && |q| == |s|
  {
    q := [];
    var rest := s;
    while rest != {}
      invariant rest <= s && forall x :: x in q <==> x in s && x !in rest
      invariant |q| + |rest| == |s|
      decreases |rest|
    {
      var x :| x in rest;
      rest := rest - {x};
      q := q + [x];
    }
  }

  /** A rebuild that has seen everything below start and dropped what it has not seen. */
  ghost predicate Finished(o: Opts, s: Sys, base: Db, m0: Mailbox, f: Folder, start: nat, seen: set<Key>) {
    var before := MemberKeys(base, f);
    && f in s.watched && MailOk(o, s.watched[f])
    && 1 <= start && StopOk(s.watched[f], start - 1) && RowsSound(s.db, f, s.watched[f])
    && (f in s.distinct ==> RowsCover(s.db, f, s.watched[f], start - 1))
    && MemberKeys(s.db, f) == seen
    && (forall u :: u in s.watched[f].msgs && u < start ==> s.watched[f].msgs[u] in seen)
    && (s.watched[f] == m0 ==> seen <= m0.msgs.Values && UidsIn(s.db, f, m0, seen))
    && base.pending <= s.db.pending
    && RowsExactly(o, base, s.db.pending[|base.pending|..], f,
                   if before == {} then {} else seen - before, before - seen)
  }

  /** Removes the keys not seen. */
  method DropUnseen(w: World, f: Folder, start: nat, stored: set<Key>, seen: set<Key>, ghost base: Db,
                    ghost m0: Mailbox)
    returns (ok: bool)
    requires w.Valid() && w.sys.busy && w.sys.live == map[]
    requires Progress(w.o, w.sys, base, m0, f, start, seen) && stored == MemberKeys(base, f)
    modifies w`run, w`sys, w.store
    ensures w.Valid() && Synced(old(w.sys), w.sys, f)
    ensures ok ==> Finished(w.o, w.sys, base, m0, f, start, seen)
    ensures w.healthy ==> ok
  {
    ghost var a := w.sys;
    var gone := Sequence(stored - seen);
    RemovalsOk(w.o, a, f, gone);
    ok := RecordRemovals(w, f, gone);
    if !ok { return; }
    FinishMembers(w.o, a, w.sys.db, base, m0, f, start, seen, gone);
    FinishRows(w.o, a.db, base, f, seen, gone);
  }

  /** Removes the keys not seen and stores the scan state. */
  method FinishRebuild(w: World, f: Folder, start: nat, stored: set<Key>, seen: set<Key>, ghost base: Db,
                       ghost m0: Mailbox)
    returns (ok: bool)
    requires w.Valid() && w.sys.busy && w.sys.live == map[]
    requires Progress(w.o, w.sys, base, m0, f, start, seen) && stored == MemberKeys(base, f)
    requires m0.uidNext <= start
    modifies w`run, w`sys, w.store
    ensures w.Valid() && Synced(old(w.sys), w.sys, f)
    ensures ok ==> Rebuilt(w.o, w.sys, base, m0, f)
    ensures w.healthy ==> ok
  {
    ghost var a := w.sys;
    ok := DropUnseen(w, f, start, stored, seen, base, m0);
    if !ok { return; }
    ghost var b := w.sys;
    ok := StoreMark(w, f, start - 1);
    SyncedTwice(a, b, w.sys, f);
    if ok { MarkedRebuilt(w.o, b, w.sys, base, m0, f, start, seen); }
  }

  lemma MarkedRebuilt(o: Opts, b: Sys, s: Sys, base: Db, m0: Mailbox, f: Folder, start: nat, seen: set<Key>)
    requires Finished(o, b, base, m0, f, start, seen) && SameSources(b, s) && m0.uidNext <= start
    requires s.db == b.db.(folders := b.db.folders[f := FolderMark(s.watched[f].validity, start - 1)])
    ensures Rebuilt(o, s, base, m0, f)
  {
    assert MemberKeys(s.db, f) == MemberKeys(b.db, f);
    if s.watched[f] == m0 {
      forall k | k in m0.msgs.Values ensures k in seen {
        var u :| u in m0.msgs && m0.msgs[u] == k;
      }
    }
  }

  lemma ProgressStart(o: Opts, s: Sys, m0: Mailbox, f: Folder)
    requires f in s.watched && !Follows(s, s.db, f)
    requires MailOk(o, s.watched[f]) && MailOk(o, m0) && MailLater(m0, s.watched[f])
    ensures Progress(o, s, s.db, m0, f, 1, {})
  {
    assert s.db.pending[|s.db.pending|..] == [];
  }

  method RebuildScan(w: World, f: Folder, uidNext: nat, stored: set<Key>, ghost base: Db, ghost m0: Mailbox)
    returns (ok: bool, seen: set<Key>)
    requires w.Valid() && w.sys.busy && w.sys.live == map[] && w.src.selected == Named(f) && f in w.src.folders
    requires Progress(w.o, w.sys, base, m0, f, 1, {}) && (uidNext == 1 || 1 < uidNext <= w.sys.watched[f].uidNext)
    requires ConfigOk(w.o) && stored == MemberKeys(base, f) && (stored == {} ==> f in w.sys.virgin)
    modifies w`run, w`sys, w.src`main, w.src`folders, w.dst`apps, w.store
    ensures w.Valid() && Synced(old(w.sys), w.sys, f)
    ensures ok ==> Progress(w.o, w.sys, base, m0, f, uidNext, seen)
    ensures w.healthy ==> ok
  {
    var spans := Scan.SpansOf(w.o, 1, uidNext);
    ok, seen := RebuildSpans(w, f, spans, uidNext, stored, base, m0);
  }

  method RebuildSpans(w: World, f: Folder, spans: seq<Windows.Span>, uidNext: nat, stored: set<Key>,
                      ghost base: Db, ghost m0: Mailbox)
    returns (ok: bool, seen: set<Key>)
    requires w.Valid() && w.sys.busy && w.sys.live == map[] && w.src.selected == Named(f) && f in w.src.folders
    requires Progress(w.o, w.sys, base, m0, f, 1, {}) && (uidNext == 1 || uidNext <= w.sys.watched[f].uidNext)
    requires stored == MemberKeys(base, f) && (stored == {} ==> f in w.sys.virgin)
    requires Scan.Chain(spans, 1, uidNext)
    modifies w`run, w`sys, w.src`main, w.src`folders, w.dst`apps, w.store
    ensures w.Valid() && Synced(old(w.sys), w.sys, f)
    ensures ok ==> Progress(w.o, w.sys, base, m0, f, uidNext, seen)
    ensures w.healthy ==> ok
  {
    ghost var a := w.sys;
    ok, seen := true, {};
    for i := 0 to |spans|
      invariant w.Valid() && Synced(a, w.sys, f) && w.sys.virgin == a.virgin
      invariant Progress(w.o, w.sys, base, m0, f, Scan.From(spans, i, uidNext), seen)
    {
      ok, seen := RebuildNext(w, f, spans, i, uidNext, stored, seen, a, base, m0);
      if !ok { return; }
    }
  }

  method RebuildNext(w: World, f: Folder, spans: seq<Windows.Span>, i: nat, uidNext: nat, stored: set<Key>,
                     seen: set<Key>, ghost a: Sys, ghost base: Db, ghost m0: Mailbox)
    returns (ok: bool, seen': set<Key>)
    requires w.Valid() && w.sys.busy && w.sys.live == map[] && w.src.selected == Named(f) && f in w.src.folders
    requires Synced(a, w.sys, f) && Scan.Chain(spans, 1, uidNext) && i < |spans|
    requires f in a.watched && (uidNext == 1 || uidNext <= a.watched[f].uidNext)
    requires Progress(w.o, w.sys, base, m0, f, Scan.From(spans, i, uidNext), seen)
    requires stored == MemberKeys(base, f) && (stored == {} ==> f in w.sys.virgin)
    modifies w`run, w`sys, w.src`main, w.src`folders, w.dst`apps, w.store
    ensures w.Valid() && Synced(a, w.sys, f) && w.sys.virgin == old(w.sys).virgin
    ensures ok ==> Progress(w.o, w.sys, base, m0, f, Scan.From(spans, i + 1, uidNext), seen')
    ensures w.healthy ==> ok
  {
    Scan.ChainAt(spans, 1, uidNext, i);
    assert MailLater(a.watched[f], w.sys.watched[f]);
    ok, seen' := RebuildWindow(w, f, spans[i].start, spans[i].stop, stored, seen, a, base, m0);
  }

  /** A full scan diffed against the stored members by key. */
  method RebuildWatchedFolder(w: World, f: Folder, uidNext: nat, ghost m0: Mailbox) returns (ok: bool)
    requires w.Valid() && w.sys.busy && w.sys.live == map[] && w.src.selected == Named(f) && f in w.src.folders
    requires !Follows(w.sys, w.sys.db, f) && m0.uidNext <= uidNext <= w.sys.watched[f].uidNext
    requires MailOk(w.o, m0) && MailLater(m0, w.sys.watched[f])
    modifies w`run, w`sys, w.src`main, w.src`folders, w.dst`apps, w.store
    ensures w.Valid() && Synced(old(w.sys), w.sys, f)
    ensures ok ==> Rebuilt(w.o, w.sys, old(w.sys).db, m0, f)
    ensures w.healthy ==> ok
  {
    var stored;
    ok, stored := StoredKeys(w, f, m0);
    if ok { ok := RebuildStored(w, f, uidNext, stored, m0); }
  }

  /** Scans the whole folder, and drops the stored members that were not seen. */
  method RebuildStored(w: World, f: Folder, uidNext: nat, stored: set<Key>, ghost m0: Mailbox) returns (ok: bool)
    requires w.Valid() && w.sys.busy && w.sys.live == map[] && w.src.selected == Named(f) && f in w.src.folders
    requires Progress(w.o, w.sys, w.sys.db, m0, f, 1, {}) && m0.uidNext <= uidNext <= w.sys.watched[f].uidNext
    requires ConfigOk(w.o) && stored == MemberKeys(w.sys.db, f) && (stored == {} ==> f in w.sys.virgin)
    modifies w`run, w`sys, w.src`main, w.src`folders, w.dst`apps, w.store
    ensures w.Valid() && Synced(old(w.sys), w.sys, f)
    ensures ok ==> Rebuilt(w.o, w.sys, old(w.sys).db, m0, f)
    ensures w.healthy ==> ok
  {
    ghost var a := w.sys;
    var seen: set<Key>, first := {}, if uidNext == 0 then 1 else uidNext;
    ok, seen := RebuildScan(w, f, first, stored, a.db, m0);
    if !ok { return; }
    ghost var b := w.sys;
    ok := FinishRebuild(w, f, first, stored, seen, a.db, m0);
    SyncedTwice(a, b, w.sys, f);
  }

  /** The members a rebuild begins with. Where there are none, additions will be silent. */
  method StoredKeys(w: World, f: Folder, ghost m0: Mailbox) returns (ok: bool, stored: set<Key>)
    requires w.Valid() && w.sys.busy && w.sys.live == map[] && f in w.sys.watched
    requires !Follows(w.sys, w.sys.db, f) && MailOk(w.o, m0) && MailLater(m0, w.sys.watched[f])
    modifies w`run, w`sys
    ensures w.Valid() && (w.sys == old(w.sys) || w.sys == old(w.sys).(virgin := old(w.sys).virgin + {f}))
    ensures ok ==> stored == MemberKeys(w.sys.db, f) && (stored == {} ==> f in w.sys.virgin)
    ensures ok ==> Progress(w.o, w.sys, w.sys.db, m0, f, 1, {})
    ensures MailOk(w.o, w.sys.watched[f]) && ConfigOk(w.o)
    ensures w.healthy ==> ok
  {
    ok :| w.healthy ==> ok;
    stored := MemberKeys(w.store.db, f);
    if ok && stored == {} { LogFirst(w, f); }
    ScanStarts(w, f, m0);
  }

  ghost method LogFirst(w: World, f: Folder)
    requires w.Valid() && w.sys.busy && MemberKeys(w.sys.db, f) == {}
    modifies w`run, w`sys
    ensures w.Valid() && w.sys == old(w.sys).(virgin := old(w.sys).virgin + {f})
  {
    w.Act(FirstScan(f));
  }

  lemma ScanStarts(w: World, f: Folder, m0: Mailbox)
    requires w.Valid() && f in w.sys.watched && !Follows(w.sys, w.sys.db, f)
    requires MailOk(w.o, m0) && MailLater(m0, w.sys.watched[f])
    ensures Progress(w.o, w.sys, w.sys.db, m0, f, 1, {})
    ensures MailOk(w.o, w.sys.watched[f]) && ConfigOk(w.o)
  {
    w.Known();
    ProgressStart(w.o, w.sys, m0, f);
  }

  // ------------------------------------------------------------- incremental

  ghost predicate UidsApart(db: Db, f: Folder) {
    forall k, l :: (f, k) in db.members && (f, l) in db.members && db.members[(f, k)] == db.members[(f, l)] ==> k == l
  }

  /** The stored members of f by uid, placeholders aside. Of rows that share a uid only one shows. */
  method MemberUidKeys(w: World, f: Folder) returns (ok: bool, stored: map<nat, Key>)
    ensures ok ==> forall u :: u in stored ==>
                  (f, stored[u]) in w.store.db.members && w.store.db.members[(f, stored[u])] == u
    ensures ok ==> forall k :: (f, k) in w.store.db.members && w.store.db.members[(f, k)] > 0 ==>
                     w.store.db.members[(f, k)] in stored
    ensures w.healthy ==> ok
  {
    ok :| w.healthy ==> ok;
    stored := map[];
    var rows := w.store.db.members.Keys;
    while rows != {}
      invariant rows <= w.store.db.members.Keys
      invariant forall u :: u in stored ==>
                    (f, stored[u]) in w.store.db.members && w.store.db.members[(f, stored[u])] == u
      invariant forall k :: (f, k) in w.store.db.members && (f, k) !in rows && w.store.db.members[(f, k)] > 0 ==>
                  w.store.db.members[(f, k)] in stored
      decreases |rows|
    {
      var row :| row in rows;
      rows := rows - {row};
      if row.0 == f && w.store.db.members[row] > 0 {
        stored := stored[w.store.db.members[row] := row.1];
      }
    }
  }

  /** Keys of stored uids that the folder no longer holds. */
  method GoneKeys(w: World, f: Folder, current: set<nat>) returns (ok: bool, gone: seq<Key>)
    ensures ok ==> forall k :: k in gone ==> (f, k) in w.store.db.members && w.store.db.members[(f, k)] !in current
    ensures ok && UidsApart(w.store.db, f) ==>
              forall k :: (f, k) in w.store.db.members && w.store.db.members[(f, k)] > 0 ==>
                w.store.db.members[(f, k)] in current || k in gone
    ensures ok && (forall k :: (f, k) in w.store.db.members ==> w.store.db.members[(f, k)] in current) ==> gone == []
    ensures w.healthy ==> ok
  {
    var stored;
    ok, stored := MemberUidKeys(w, f);
    gone := [];
    if !ok { return; }
    var uids := stored.Keys;
    while uids != {}
      invariant uids <= stored.Keys
      invariant forall k :: k in gone ==> (f, k) in w.store.db.members && w.store.db.members[(f, k)] !in current
      invariant forall u :: u in stored && u !in uids && u !in current ==> stored[u] in gone
      decreases |uids|
    {
      var u :| u in uids;
      uids := uids - {u};
      if u !in current {
        gone := gone + [stored[u]];
      }
    }
    assert gone != [] ==> gone[0] in gone;
  }

  /** What an incremental sync over rows db leaves as members when m, unchanged meanwhile, has
      been scanned below start: members whose stored message is there, and what lies above the
      mark. */
  function SyncedTo(db: Db, f: Folder, m: Mailbox, start: nat): set<Key>
    requires f in db.folders
  {
    (set k | k in MemberKeys(db, f) && (f, k) in db.members && db.members[(f, k)] in m.msgs)
    + (set u | u in m.msgs && db.folders[f].lastUid < u < start :: m.msgs[u])
  }

  function SyncedKeys(db: Db, f: Folder, m: Mailbox): set<Key>
    requires f in db.folders
  {
    SyncedTo(db, f, m, m.uidNext)
  }

  lemma SyncedAll(o: Opts, db: Db, f: Folder, m: Mailbox, start: nat)
    requires f in db.folders && MailOk(o, m) && m.uidNext <= start
    ensures SyncedTo(db, f, m, start) == SyncedKeys(db, f, m)
  {
  }

  lemma SyncedMore(db: Db, f: Folder, m: Mailbox, metas: seq<KeyRecord>, start: nat, stop: nat)
    requires f in db.folders && Listed(metas, m, start, stop) && db.folders[f].lastUid < start <= stop
    ensures SyncedTo(db, f, m, stop + 1) == SyncedTo(db, f, m, start) + RecordedKeys(metas)
  {
    forall u | u in m.msgs && start <= u <= stop ensures m.msgs[u] in RecordedKeys(metas) {
      assert KeyRecord(m.msgs[u], u) in metas;
    }
  }

  /** An incremental sync of f over rows base that has followed the folder below start; m0 is
      the folder as the sync found it. */
  ghost predicate Following(o: Opts, s: Sys, base: Db, m0: Mailbox, f: Folder, start: nat) {
    && Follows(s, s.db, f) && MailOk(o, s.watched[f]) && MailOk(o, m0) && MailLater(m0, s.watched[f])
    && f in base.folders && base.folders[f].lastUid < s.db.folders[f].lastUid + 1 == start
    && (s.watched[f] == m0 ==>
          && UidsIn(s.db, f, m0, MemberKeys(s.db, f))
          && MemberKeys(s.db, f) == SyncedTo(base, f, m0, start))
  }

  lemma FollowingDrifts(o: Opts, s: Sys, s': Sys, base: Db, m0: Mailbox, f: Folder, start: nat)
    requires Following(o, s, base, m0, f, start) && Drift(s, s') && MailOk(o, s'.watched[f])
    ensures Following(o, s', base, m0, f, start)
  {
    assert MailLater(s.watched[f], s'.watched[f]);
    if s'.watched[f] == m0 {
      NeverDifferent(o, m0, s.watched[f], s'.watched[f]);
    }
  }

  /** A recorded window may be marked, and still follows. */
  lemma FollowingWindow(o: Opts, s: Sys, db': Db, base: Db, m0: Mailbox, f: Folder, start: nat, stop: nat,
                        metas: seq<KeyRecord>)
    requires Following(o, s, base, m0, f, start) && start <= stop < s.watched[f].uidNext
    requires Listed(metas, s.watched[f], start, stop) && RowsSound(s.db, f, s.watched[f])
    requires f in s.distinct ==> KeysDistinct(s.watched[f]) && RowsCover(s.db, f, s.watched[f], start - 1)
    requires db' == ApplyChanges(s.db, f, Additions(o, s.db, f, metas, {}, false))
    ensures RowsSound(db', f, s.watched[f]) && (f in s.distinct ==> RowsCover(db', f, s.watched[f], stop))
    ensures s.watched[f] == m0 ==>
              && UidsIn(db', f, m0, MemberKeys(db', f))
              && MemberKeys(db', f) == SyncedTo(base, f, m0, stop + 1)
  {
    var m := s.watched[f];
    OnAll(s.db, f, m, start - 1);
    WindowAgrees(o, s.db, f, m, metas, start, stop, {}, false, MemberKeys(s.db, f));
    AdditionsJoin(o, s.db, f, metas, {}, false);
    OnAll(db', f, m, stop);
    if m == m0 { SyncedMore(base, f, m0, metas, start, stop); }
  }

  method IncrementalWindow(w: World, f: Folder, start: nat, stop: nat, ghost a: Sys, ghost base: Db, ghost m0: Mailbox)
    returns (ok: bool)
    requires w.Valid() && w.sys.busy && w.sys.live == map[] && w.src.selected == Named(f) && f in w.src.folders
    requires Synced(a, w.sys, f)
    requires Following(w.o, w.sys, base, m0, f, start) && start <= stop < w.sys.watched[f].uidNext
    modifies w`run, w`sys, w.src`main, w.src`folders, w.dst`apps, w.store
    ensures w.Valid() && Synced(a, w.sys, f)
    ensures ok ==> Following(w.o, w.sys, base, m0, f, stop + 1)
    ensures w.healthy ==> ok
  {
    var metas;
    ok, metas := w.FetchMetaRange(start, stop);
    ghost var b := w.sys;
    w.Known();
    DriftSyncs(old(w.sys), b, f);
    SyncedTwice(a, old(w.sys), b, f);
    if !ok { return; }
    FollowingDrifts(w.o, old(w.sys), b, base, m0, f, start);
    ok := IncrementalStore(w, f, start, stop, metas, base, m0);
    SyncedTwice(a, b, w.sys, f);
  }

  /** Records one window and commits the mark. */
  method IncrementalStore(w: World, f: Folder, start: nat, stop: nat, metas: seq<KeyRecord>,
                          ghost base: Db, ghost m0: Mailbox)
    returns (ok: bool)
    requires w.Valid() && w.sys.busy && w.sys.live == map[]
    requires Following(w.o, w.sys, base, m0, f, start) && start <= stop < w.sys.watched[f].uidNext
    requires Listed(metas, w.sys.watched[f], start, stop)
    modifies w`run, w`sys, w.store
    ensures w.Valid() && Synced(old(w.sys), w.sys, f)
    ensures ok ==> Following(w.o, w.sys, base, m0, f, stop + 1)
    ensures w.healthy ==> ok
  {
    ghost var a := w.sys;
    Agreeing(w, f);
    AdditionsOk(w.o, a, f, metas, start, stop, {}, false);
    ok := RecordAdditions(w, f, metas, {}, false);
    if !ok { return; }
    ghost var b := w.sys;
    FollowingWindow(w.o, a, b.db, base, m0, f, start, stop, metas);
    ok := StoreMark(w, f, stop);
    SyncedTwice(a, b, w.sys, f);
  }

  /** What every run keeps of the rows of a folder that is followed. */
  lemma Agreeing(w: World, f: Folder)
    requires w.Valid() && Follows(w.sys, w.sys.db, f)
    ensures var m, mark := w.sys.watched[f], w.sys.db.folders[f].lastUid;
            && StopOk(m, mark) && RowsSound(w.sys.db, f, m)
            && (f in w.sys.distinct ==> KeysDistinct(m) && RowsCover(w.sys.db, f, m, mark))
    ensures MailOk(w.o, w.sys.watched[f]) && ConfigOk(w.o)
  {
    w.Known();
    assert RowsOk(w.sys, w.sys.db, f);
  }

  /** Each row is a message of m under its key, and each message has its row. */
  ghost predicate RowsMatch(db: Db, f: Folder, m: Mailbox) {
    forall k, u :: (f, k) in db.members && db.members[(f, k)] == u <==> u in m.msgs && m.msgs[u] == k
  }

  /** Nothing to do for f: all scanned, all rows still there. */
  ghost predicate FolderQuiet(s: Sys, f: Folder) {
    && Follows(s, s.db, f) && s.watched[f].uidNext <= s.db.folders[f].lastUid + 1
    && forall k :: (f, k) in s.db.members ==> s.db.members[(f, k)] in s.watched[f].msgs
  }

  /** Removes the members whose uids are not among the current ones. */
  method RemoveGone(w: World, f: Folder, uids: set<nat>, ghost m0: Mailbox) returns (ok: bool)
    requires w.Valid() && w.sys.busy && w.sys.live == map[]
    requires Follows(w.sys, w.sys.db, f) && uids == w.sys.watched[f].msgs.Keys
    requires MailOk(w.o, m0) && MailLater(m0, w.sys.watched[f])
    modifies w`run, w`sys, w.store
    ensures w.Valid() && Synced(old(w.sys), w.sys, f)
    ensures ok ==> Following(w.o, w.sys, old(w.sys).db, m0, f, old(w.sys).db.folders[f].lastUid + 1)
    ensures (forall k :: (f, k) in old(w.sys).db.members ==> old(w.sys).db.members[(f, k)] in uids) ==>
                  w.sys == old(w.sys)
    ensures w.healthy ==> ok
  {
    Agreeing(w, f);
    var gone;
    ok, gone := GoneKeys(w, f, uids);
    if !ok { return; }
    RemovalsOk(w.o, w.sys, f, gone);
    ok := DropGone(w, f, gone, m0);
  }

  /** Records that the members among gone, all whose messages have left, are none any more. */
  method DropGone(w: World, f: Folder, gone: seq<Key>, ghost m0: Mailbox) returns (ok: bool)
    requires w.Valid() && Follows(w.sys, w.sys.db, f) && MembersOk(w.o, w.sys, f, Removals(w.o, w.sys.db, f, gone))
    requires MailOk(w.o, w.sys.watched[f]) && MailOk(w.o, m0) && MailLater(m0, w.sys.watched[f])
    requires forall k :: k in gone ==>
               (f, k) in w.sys.db.members && w.sys.db.members[(f, k)] !in w.sys.watched[f].msgs
    requires forall k :: (f, k) in w.sys.db.members ==>
               w.sys.db.members[(f, k)] in w.sys.watched[f].msgs || k in gone
    modifies w`run, w`sys, w.store
    ensures w.Valid() && Synced(old(w.sys), w.sys, f)
    ensures ok ==> Following(w.o, w.sys, old(w.sys).db, m0, f, old(w.sys).db.folders[f].lastUid + 1)
    ensures gone == [] ==> w.sys == old(w.sys)
    ensures w.healthy ==> ok
  {
    ghost var db := w.sys.db;
    RemovalsLeave(w.o, db, f, gone);
    ok := RecordRemovals(w, f, gone);
    if ok { GoneFollows(w.o, w.sys, db, m0, f, gone); }
  }

  lemma GoneFollows(o: Opts, s: Sys, db: Db, m0: Mailbox, f: Folder, gone: seq<Key>)
    requires s.db == ApplyChanges(db, f, Removals(o, db, f, gone)) && Follows(s, s.db, f) && MailOk(o, s.watched[f])
    requires MailOk(o, m0) && MailLater(m0, s.watched[f]) && s.db.folders == db.folders
    requires forall k :: k in gone ==> (f, k) in db.members && db.members[(f, k)] !in s.watched[f].msgs
    requires forall k :: (f, k) in db.members ==> db.members[(f, k)] in s.watched[f].msgs || k in gone
    ensures Following(o, s, db, m0, f, db.folders[f].lastUid + 1)
  {
    RemovalsLeave(o, db, f, gone);
    forall k ensures k in MemberKeys(s.db, f) <==> (f, k) in db.members && db.members[(f, k)] in s.watched[f].msgs {
      assert (f, k) in db.members <==> k in MemberKeys(db, f);
    }
  }

  /** Removals: stored uids missing from the folder's current ones. */
  method IncrementalRemovals(w: World, f: Folder, ghost m0: Mailbox) returns (ok: bool)
    requires w.Valid() && w.sys.busy && w.sys.live == map[] && w.src.selected == Named(f) && f in w.src.folders
    requires Follows(w.sys, w.sys.db, f) && MailOk(w.o, m0) && MailLater(m0, w.sys.watched[f])
    modifies w`run, w`sys, w.src`main, w.src`folders, w.dst`apps, w.store
    ensures w.Valid() && Synced(old(w.sys), w.sys, f)
    ensures ok ==> Following(w.o, w.sys, old(w.sys).db, m0, f, old(w.sys).db.folders[f].lastUid + 1)
    ensures FolderQuiet(old(w.sys), f) && m0 == old(w.sys).watched[f] == w.sys.watched[f] ==> Drift(old(w.sys), w.sys)
    ensures w.healthy ==> ok
  {
    ghost var a := w.sys;
    var uids;
    ok, uids := w.SearchAllUids();
    ghost var b := w.sys;
    DriftSyncs(a, b, f);
    if !ok { return; }
    StillLater(w, a, b, f, m0);
    ok := RemoveGone(w, f, uids, m0);
    SyncedTwice(a, b, w.sys, f);
    if w.sys.watched[f] == m0 { BackAgain(w, a, b, f, m0); }
  }

  lemma StillLater(w: World, a: Sys, b: Sys, f: Folder, m0: Mailbox)
    requires w.Valid() && w.sys == b && Drift(a, b) && Follows(a, a.db, f)
    requires MailOk(w.o, m0) && MailLater(m0, a.watched[f])
    ensures Follows(b, b.db, f) && b.db == a.db && MailLater(m0, b.watched[f]) && MailOk(w.o, b.watched[f])
  {
    w.Safe();
    assert MailLater(a.watched[f], b.watched[f]);
  }

  lemma BackAgain(w: World, a: Sys, b: Sys, f: Folder, m0: Mailbox)
    requires w.Valid() && MailsLater(a.watched, b.watched) && MailsLater(b.watched, w.sys.watched)
    requires f in a.watched && MailOk(w.o, m0) && MailOk(w.o, b.watched[f]) && MailLater(m0, b.watched[f])
    requires w.sys.watched[f] == m0
    ensures b.watched[f] == m0
  {
    w.Safe();
    assert MailLater(b.watched[f], w.sys.watched[f]);
    NeverDifferent(w.o, m0, b.watched[f], w.sys.watched[f]);
  }

  // -------------------------------------------------------------- one folder

  method IncrementalScan(w: World, f: Folder, first: nat, uidNext: nat, ghost base: Db, ghost m0: Mailbox)
    returns (ok: bool)
    requires w.Valid() && w.sys.busy && w.sys.live == map[] && w.src.selected == Named(f) && f in w.src.folders
    requires Following(w.o, w.sys, base, m0, f, first) && first <= uidNext <= w.sys.watched[f].uidNext
    modifies w`run, w`sys, w.src`main, w.src`folders, w.dst`apps, w.store
    ensures w.Valid() && Synced(old(w.sys), w.sys, f)
    ensures ok ==> Following(w.o, w.sys, base, m0, f, uidNext)
    ensures w.healthy ==> ok
  {
    Agreeing(w, f);
    var spans := Scan.SpansOf(w.o, first, uidNext);
    ok := IncrementalSpans(w, f, spans, first, uidNext, base, m0);
  }

  method IncrementalSpans(w: World, f: Folder, spans: seq<Windows.Span>, first: nat, uidNext: nat,
                          ghost base: Db, ghost m0: Mailbox)
    returns (ok: bool)
    requires w.Valid() && w.sys.busy && w.sys.live == map[] && w.src.selected == Named(f) && f in w.src.folders
    requires Following(w.o, w.sys, base, m0, f, first) && uidNext <= w.sys.watched[f].uidNext
    requires Scan.Chain(spans, first, uidNext)
    modifies w`run, w`sys, w.src`main, w.src`folders, w.dst`apps, w.store
    ensures w.Valid() && Synced(old(w.sys), w.sys, f)
    ensures ok ==> Following(w.o, w.sys, base, m0, f, uidNext)
    ensures w.healthy ==> ok
  {
    ghost var a := w.sys;
    ok := true;
    for i := 0 to |spans|
      invariant w.Valid() && Synced(a, w.sys, f)
      invariant Following(w.o, w.sys, base, m0, f, Scan.From(spans, i, uidNext))
    {
      ok := IncrementalNext(w, f, spans, i, first, uidNext, a, base, m0);
      if !ok { return; }
    }
  }

  method IncrementalNext(w: World, f: Folder, spans: seq<Windows.Span>, i: nat, ghost first: nat, ghost uidNext: nat,
                         ghost a: Sys, ghost base: Db, ghost m0: Mailbox)
    returns (ok: bool)
    requires w.Valid() && w.sys.busy && w.sys.live == map[] && w.src.selected == Named(f) && f in w.src.folders
    requires Synced(a, w.sys, f) && Scan.Chain(spans, first, uidNext) && i < |spans|
    requires Following(w.o, w.sys, base, m0, f, spans[i].start) && uidNext <= w.sys.watched[f].uidNext
    modifies w`run, w`sys, w.src`main, w.src`folders, w.dst`apps, w.store
    ensures w.Valid() && Synced(a, w.sys, f)
    ensures ok ==> Following(w.o, w.sys, base, m0, f, Scan.From(spans, i + 1, uidNext))
    ensures w.healthy ==> ok
  {
    Scan.ChainAt(spans, first, uidNext, i);
    ok := IncrementalWindow(w, f, spans[i].start, spans[i].stop, a, base, m0);
  }

  /** Diffs the folder against the stored members: removals by uid, then additions above the
      mark. */
  method SyncIncrementally(w: World, f: Folder, uidNext: nat, ghost m0: Mailbox) returns (ok: bool)
    requires w.Valid() && w.sys.busy && w.sys.live == map[] && w.src.selected == Named(f) && f in w.src.folders
    requires Follows(w.sys, w.sys.db, f) && m0.uidNext <= uidNext <= w.sys.watched[f].uidNext
    requires MailOk(w.o, m0) && MailLater(m0, w.sys.watched[f])
    modifies w`run, w`sys, w.src`main, w.src`folders, w.dst`apps, w.store
    ensures w.Valid() && Synced(old(w.sys), w.sys, f)
    ensures ok ==> FolderDone(w.sys, f, m0)
    ensures ok && w.sys.watched[f] == m0 ==> MemberKeys(w.sys.db, f) == SyncedKeys(old(w.sys).db, f, m0)
    ensures FolderQuiet(old(w.sys), f) && m0 == old(w.sys).watched[f] == w.sys.watched[f] && uidNext == m0.uidNext ==>
              Drift(old(w.sys), w.sys)
    ensures w.healthy ==> ok
  {
    ghost var a := w.sys;
    ok := IncrementalRemovals(w, f, m0);
    if !ok { return; }
    ghost var b := w.sys;
    ok := IncrementalAdditions(w, f, uidNext, a.db, m0);
    SyncedTwice(a, b, w.sys, f);
  }

  /** Additions: whatever lies above the mark. */
  method IncrementalAdditions(w: World, f: Folder, uidNext: nat, ghost base: Db, ghost m0: Mailbox) returns (ok: bool)
    requires w.Valid() && w.sys.busy && w.sys.live == map[] && w.src.selected == Named(f) && f in w.src.folders
    requires f in w.sys.db.folders && Following(w.o, w.sys, base, m0, f, w.sys.db.folders[f].lastUid + 1)
    requires m0.uidNext <= uidNext <= w.sys.watched[f].uidNext
    modifies w`run, w`sys, w.src`main, w.src`folders, w.dst`apps, w.store
    ensures w.Valid() && Synced(old(w.sys), w.sys, f)
    ensures ok ==> FolderDone(w.sys, f, m0)
    ensures ok && w.sys.watched[f] == m0 ==> MemberKeys(w.sys.db, f) == SyncedKeys(base, f, m0)
    ensures old(w.sys).db.folders[f].lastUid + 1 >= uidNext ==> w.sys == old(w.sys)
    ensures w.healthy ==> ok
  {
    var first := w.store.db.folders[f].lastUid + 1;
    ok := true;
    if first < uidNext { ok := IncrementalScan(w, f, first, uidNext, base, m0); }
    if ok { FollowedIsDone(w, base, m0, f); }
  }

  lemma FollowedIsDone(w: World, base: Db, m0: Mailbox, f: Folder)
    requires w.Valid() && Follows(w.sys, w.sys.db, f) && m0.uidNext <= w.sys.db.folders[f].lastUid + 1
    requires Following(w.o, w.sys, base, m0, f, w.sys.db.folders[f].lastUid + 1)
    ensures FolderDone(w.sys, f, m0)
    ensures w.sys.watched[f] == m0 ==> MemberKeys(w.sys.db, f) == SyncedKeys(base, f, m0)
  {
    FolderIsDone(w, f, m0);
    SyncedAll(w.o, base, f, m0, w.sys.db.folders[f].lastUid + 1);
  }

  /** A synced folder: scanned up to where it was at the start, m0; where it is still the same,
      every row is one of its messages and, with no key twice, the rows are exactly these. */
  ghost predicate FolderDone(s: Sys, f: Folder, m0: Mailbox) {
    && Follows(s, s.db, f) && m0.uidNext <= s.db.folders[f].lastUid + 1
    && (s.watched[f] == m0 ==>
          && (forall k :: (f, k) in s.db.members ==> s.db.members[(f, k)] in m0.msgs)
          && (f in s.distinct ==> RowsMatch(s.db, f, m0)))
  }

  lemma FolderIsDone(w: World, f: Folder, m0: Mailbox)
    requires w.Valid() && Follows(w.sys, w.sys.db, f) && m0.uidNext <= w.sys.db.folders[f].lastUid + 1
    requires w.sys.watched[f] == m0 ==> UidsIn(w.sys.db, f, m0, MemberKeys(w.sys.db, f))
    ensures FolderDone(w.sys, f, m0)
  {
    Agreeing(w, f);
    assert forall k :: (f, k) in w.sys.db.members ==> k in MemberKeys(w.sys.db, f);
  }

  /** Syncs one watched folder. */
  method SyncWatchedFolder(w: World, f: Folder) returns (ok: bool)
    requires w.Valid() && w.sys.busy && w.sys.live == map[]
    modifies w`run, w`sys, w.src`main, w.src`folders, w.src`selected, w.dst`apps, w.store
    ensures w.Valid() && Synced(old(w.sys), w.sys, f)
    ensures ok ==> f in old(w.sys).watched && FolderDone(w.sys, f, old(w.sys).watched[f])
    ensures ok && !Follows(old(w.sys), old(w.sys).db, f) ==>
              Rebuilt(w.o, w.sys, old(w.sys).db, old(w.sys).watched[f], f)
    ensures ok && Follows(old(w.sys), old(w.sys).db, f) && w.sys.watched[f] == old(w.sys).watched[f] ==>
              MemberKeys(w.sys.db, f) == SyncedKeys(old(w.sys).db, f, w.sys.watched[f])
    ensures FolderQuiet(old(w.sys), f) && w.sys.watched[f] == old(w.sys).watched[f] ==> Drift(old(w.sys), w.sys)
    ensures w.healthy && f in old(w.src.folders) ==> ok
  {
    ghost var a := w.sys;
    var validity, uidNext;
    w.Safe();
    ok, validity, uidNext := w.Select(Named(f));
    ghost var b := w.sys;
    DriftSyncs(a, b, f);
    if !ok { return; }
    StillThere(w, a, b, f);
    ok := SyncSelected(w, f, validity, uidNext, a.watched[f]);
    SyncedTwice(a, b, w.sys, f);
    QuietSince(w, a, b, f);
  }

  /** Rebuilds a folder that is not followed, syncs another. */
  method SyncSelected(w: World, f: Folder, validity: nat, uidNext: nat, ghost m0: Mailbox) returns (ok: bool)
    requires w.Valid() && w.sys.busy && w.sys.live == map[] && w.src.selected == Named(f) && f in w.src.folders
    requires validity == w.sys.watched[f].validity != 0 && m0.uidNext <= uidNext == w.sys.watched[f].uidNext
    requires MailOk(w.o, m0) && MailLater(m0, w.sys.watched[f])
    modifies w`run, w`sys, w.src`main, w.src`folders, w.dst`apps, w.store
    ensures w.Valid() && Synced(old(w.sys), w.sys, f)
    ensures ok ==> FolderDone(w.sys, f, m0)
    ensures ok && !Follows(old(w.sys), old(w.sys).db, f) ==> Rebuilt(w.o, w.sys, old(w.sys).db, m0, f)
    ensures ok && Follows(old(w.sys), old(w.sys).db, f) && w.sys.watched[f] == m0 ==>
              MemberKeys(w.sys.db, f) == SyncedKeys(old(w.sys).db, f, m0)
    ensures FolderQuiet(old(w.sys), f) && m0 == old(w.sys).watched[f] == w.sys.watched[f] ==> Drift(old(w.sys), w.sys)
    ensures w.healthy ==> ok
  {
    var mark := if f in w.store.db.folders then w.store.db.folders[f] else FolderMark(0, 0);
    if mark.validity != validity {
      ghost var db := w.sys.db;
      ok := RebuildWatchedFolder(w, f, uidNext, m0);
      if ok { RebuiltIsDone(w, db, m0, f); }
    } else {
      ok := SyncIncrementally(w, f, uidNext, m0);
    }
  }

  /** A folder that ends as it began was the same when it was selected. */
  lemma QuietSince(w: World, a: Sys, b: Sys, f: Folder)
    requires w.Valid() && Drift(a, b) && MailsLater(b.watched, w.sys.watched) && f in a.watched
    requires MailOk(w.o, a.watched[f]) && MailOk(w.o, b.watched[f])
    requires FolderQuiet(b, f) && a.watched[f] == b.watched[f] == w.sys.watched[f] ==> Drift(b, w.sys)
    ensures FolderQuiet(a, f) && w.sys.watched[f] == a.watched[f] ==> Drift(a, w.sys)
  {
    if FolderQuiet(a, f) && w.sys.watched[f] == a.watched[f] {
      BackAgain(w, a, b, f, a.watched[f]);
      DriftTwice(a, b, w.sys);
    }
  }

  lemma StillThere(w: World, a: Sys, b: Sys, f: Folder)
    requires w.Valid() && w.sys == b && Drift(a, b) && f in b.watched && MailsOk(w.o, a.watched)
    ensures f in a.watched && MailOk(w.o, a.watched[f]) && MailLater(a.watched[f], b.watched[f])
    ensures MailOk(w.o, b.watched[f]) && b.watched[f].validity != 0
    ensures Follows(a, a.db, f) <==> Follows(b, b.db, f)
    ensures a.watched[f] == b.watched[f] ==> (FolderQuiet(a, f) <==> FolderQuiet(b, f))
  {
    w.Safe();
    assert MailLater(a.watched[f], b.watched[f]);
  }

  lemma RebuiltIsDone(w: World, base: Db, m0: Mailbox, f: Folder)
    requires w.Valid() && Rebuilt(w.o, w.sys, base, m0, f)
    ensures FolderDone(w.sys, f, m0)
  {
    FolderIsDone(w, f, m0);
  }

  /** Incremental sync refines the full rescan: matching rows are the folder's key set, which
      is what a rebuild leaves. */
  lemma MatchIsRescan(db: Db, f: Folder, m: Mailbox)
    requires RowsMatch(db, f, m)
    ensures MemberKeys(db, f) == m.msgs.Values
  {
    forall k ensures k in MemberKeys(db, f) <==> k in m.msgs.Values {
      assert k in MemberKeys(db, f) <==> (f, k) in db.members;
      if (f, k) in db.members { assert db.members[(f, k)] in m.msgs; }
      if k in m.msgs.Values {
        var u :| u in m.msgs && m.msgs[u] == k;
      }
    }
  }

  /** Over rows that held exactly the keys of a folder, an incremental sync leaves exactly its
      keys later on, in m', if and only if each key of a message scanned earlier still has its
      stored message, or another one above the mark. */
  lemma SyncExactIff(db: Db, f: Folder, m: Mailbox, m': Mailbox)
    requires f in db.folders && m.uidNext <= db.folders[f].lastUid + 1 && MemberKeys(db, f) == m.msgs.Values
    requires MailLater(m, m') && RowsSound(db, f, m') && forall u :: u in m'.msgs ==> u < m'.uidNext
    ensures SyncedKeys(db, f, m') == m'.msgs.Values <==>
            forall u :: u in m'.msgs && u <= db.folders[f].lastUid ==>
              || ((f, m'.msgs[u]) in db.members && db.members[(f, m'.msgs[u])] in m'.msgs)
              || exists v :: v in m'.msgs && db.folders[f].lastUid < v && m'.msgs[v] == m'.msgs[u]
  {
    var mark := db.folders[f].lastUid;
    assert forall k :: k in MemberKeys(db, f) <==> (f, k) in db.members;
    forall k | k in SyncedKeys(db, f, m') ensures k in m'.msgs.Values {
      if (f, k) in db.members && db.members[(f, k)] in m'.msgs { assert m'.msgs[db.members[(f, k)]] == k; }
    }
    if SyncedKeys(db, f, m') == m'.msgs.Values {
      forall u | u in m'.msgs && u <= mark
        ensures ((f, m'.msgs[u]) in db.members && db.members[(f, m'.msgs[u])] in m'.msgs)
                || exists v :: v in m'.msgs && mark < v && m'.msgs[v] == m'.msgs[u]
      {
        assert m'.msgs[u] in SyncedKeys(db, f, m');
      }
    } else {
      var k :| k in m'.msgs.Values && k !in SyncedKeys(db, f, m');
      var u :| u in m'.msgs && m'.msgs[u] == k;
      assert u <= mark;
    }
  }

  /** The row of a key that two messages of m share names the newer one; one of them leaves. */
  ghost predicate DuplicateLeaves(db: Db, f: Folder, m: Mailbox, m': Mailbox) {
    && f in db.folders && m.uidNext <= db.folders[f].lastUid + 1 && MemberKeys(db, f) == m.msgs.Values
    && MailLater(m, m') && RowsSound(db, f, m') && m'.msgs.Keys < m.msgs.Keys && m'.msgs.Values == m.msgs.Values
  }

  /** When the newer one leaves, an incremental sync drops the member, although the older
      message is still there; when the older one leaves, it does not. */
  lemma DuplicateForgotten()
    ensures exists db, f, m, gone, kept ::
              && DuplicateLeaves(db, f, m, gone) && SyncedKeys(db, f, gone) == {} != gone.msgs.Values
              && DuplicateLeaves(db, f, m, kept) && SyncedKeys(db, f, kept) == kept.msgs.Values
  {
    var m := Mailbox(1, 3, map[1 := "a", 2 := "a"]);
    var gone, kept := m.(msgs := map[1 := "a"]), m.(msgs := map[2 := "a"]);
    var db := EMPTY.(members := map[("L", "a") := 2], folders := map["L" := FolderMark(1, 2)]);
    DuplicateLeft(db, m, gone, 1);
    DuplicateLeft(db, m, kept, 2);
  }

  lemma DuplicateLeft(db: Db, m: Mailbox, m': Mailbox, u: nat)
    requires db == EMPTY.(members := map[("L", "a") := 2], folders := map["L" := FolderMark(1, 2)])
    requires m == Mailbox(1, 3, map[1 := "a", 2 := "a"]) && (u == 1 || u == 2)
    requires m' == m.(msgs := map[u := "a"])
    ensures DuplicateLeaves(db, "L", m, m') && m'.msgs.Values == {"a"}
    ensures SyncedKeys(db, "L", m') == if u == 2 then {"a"} else {}
  {
    OnlyRow(db);
    assert m.msgs.Values == {"a"} by { assert m.msgs[1] == "a"; }
    assert m'.msgs.Values == {"a"} by { assert m'.msgs[u] == "a"; }
    assert m.msgs.Keys == {1, 2};
  }

  lemma OnlyRow(db: Db)
    requires db.members == map[("L", "a") := 2]
    ensures MemberKeys(db, "L") == {"a"}
  {
    assert ("L", "a") in db.members;
  }

  // ------------------------------------------------------- all watched folders

  /** What syncing the membership of all folders may change. */
  ghost predicate Membered(a: Sys, b: Sys) {
    && MailLater(a.src, b.src) && MailsLater(a.watched, b.watched)
    && b.db == a.db.(members := b.db.members, pending := b.db.pending, nextId := b.db.nextId, folders := b.db.folders)
    && a.db.pending <= b.db.pending
    && b.busy == a.busy && b.live == a.live && b.distinct <= a.distinct && a.observed <= b.observed
    && b.blank == a.blank && a.names <= b.names && Traced(a, b)
  }

  lemma MemberedMore(a: Sys, b: Sys, c: Sys, f: Folder)
    requires Membered(a, b) && Synced(b, c, f)
    ensures Membered(a, c)
  {
  }

  /** The source folders to watch: labels in any order, then the routing folders. */
  method WatchList(w: World) returns (ok: bool, list: seq<Folder>)
    ensures ok ==> forall f :: f in list <==> Watched(w.o, w.src.special, w.src.folders.Keys, f)
    ensures w.healthy ==> ok
  {
    ok :| w.healthy ==> ok;
    if !ok && w.o.syncLabels { return false, []; }
    list := Sequence(LabelFolders(w.o, w.src.special, w.src.folders.Keys));
    list := list + RoutingFolders(w.o);
    ok := true;
  }

  /** A folder done stays done while another one is synced. */
  lemma StaysDone(o: Opts, b: Sys, s: Sys, f: Folder, g: Folder, m0: Mailbox)
    requires Synced(b, s, g) && f != g && FolderDone(b, f, m0)
    requires MailOk(o, m0) && MailOk(o, b.watched[f]) && MailsOk(o, s.watched) && MailLater(m0, b.watched[f])
    ensures FolderDone(s, f, m0)
  {
    assert MailLater(b.watched[f], s.watched[f]);
    if s.watched[f] == m0 { NeverDifferent(o, m0, b.watched[f], s.watched[f]); }
    assert f in b.db.folders - {g} && f in s.db.folders - {g};
    SameRows(b.db, s.db, f, g);
  }

  lemma SameRows(db: Db, db': Db, f: Folder, g: Folder)
    requires OtherRows(db', g) == OtherRows(db, g) && f != g
    ensures forall k :: (f, k) in db'.members <==> (f, k) in db.members
    ensures forall k :: (f, k) in db.members ==> db'.members[(f, k)] == db.members[(f, k)]
  {
    forall k ensures (f, k) in db'.members <==> (f, k) in db.members
      ensures (f, k) in db.members ==> db'.members[(f, k)] == db.members[(f, k)]
    {
      assert (f, k) in OtherRows(db, g) <==> (f, k) in OtherRows(db', g);
    }
  }

  ghost predicate AllQuiet(s: Sys, folders: seq<Folder>) {
    forall f :: f in folders ==> FolderQuiet(s, f)
  }

  /** Every folder of the list is done. */
  ghost predicate AllDone(a: Sys, b: Sys, list: seq<Folder>) {
    forall f :: f in list ==> f in a.watched && FolderDone(b, f, a.watched[f])
  }

  lemma NextDone(w: World, a: Sys, b: Sys, list: seq<Folder>, g: Folder)
    requires w.Valid() && Membered(a, b) && Synced(b, w.sys, g) && MailsOk(w.o, a.watched) && MailsOk(w.o, b.watched)
    requires AllDone(a, b, list) && g in a.watched && FolderDone(w.sys, g, b.watched[g])
    ensures AllDone(a, w.sys, list + [g])
  {
    w.Safe();
    forall f | f in list + [g] ensures f in a.watched && FolderDone(w.sys, f, a.watched[f]) {
      assert MailLater(a.watched[f], b.watched[f]);
      if f == g {
        if w.sys.watched[f] == a.watched[f] { BackAgain(w, a, b, f, a.watched[f]); }
      } else {
        StaysDone(w.o, b, w.sys, f, g, a.watched[f]);
      }
    }
  }

  /** Watched folders that end as they began were never different. */
  lemma WatchedSame(w: World, a: Sys, b: Sys)
    requires w.Valid() && MailsLater(a.watched, b.watched) && MailsLater(b.watched, w.sys.watched)
    requires MailsOk(w.o, a.watched) && MailsOk(w.o, b.watched) && w.sys.watched == a.watched
    ensures b.watched == a.watched
  {
    forall f | f in a.watched ensures b.watched[f] == a.watched[f] {
      assert MailLater(a.watched[f], b.watched[f]) && MailLater(b.watched[f], w.sys.watched[f]);
      NeverDifferent(w.o, a.watched[f], b.watched[f], w.sys.watched[f]);
    }
  }

  lemma WatchedOk(w: World)
    requires w.Valid()
    ensures MailsOk(w.o, w.sys.watched)
  {
    w.Safe();
  }

  method SyncNext(w: World, list: seq<Folder>, i: nat, ghost a: Sys) returns (ok: bool)
    requires w.Valid() && w.sys.busy && w.sys.live == map[] && Membered(a, w.sys) && MailsOk(w.o, a.watched)
    requires i < |list| && AllDone(a, w.sys, list[..i])
    requires AllQuiet(a, list) && w.sys.watched == a.watched ==> Drift(a, w.sys)
    modifies w`run, w`sys, w.src`main, w.src`folders, w.src`selected, w.dst`apps, w.store
    ensures w.Valid() && Membered(a, w.sys)
    ensures ok ==> AllDone(a, w.sys, list[..i + 1])
    ensures AllQuiet(a, list) && w.sys.watched == a.watched ==> Drift(a, w.sys)
    ensures w.healthy && list[i] in old(w.src.folders) ==> ok
  {
    ghost var b := w.sys;
    WatchedOk(w);
    ok := SyncWatchedFolder(w, list[i]);
    MemberedMore(a, b, w.sys, list[i]);
    assert list[..i + 1] == list[..i] + [list[i]];
    if ok { NextDone(w, a, b, list[..i], list[i]); }
    if w.sys.watched == a.watched && AllQuiet(a, list) { QuietNext(w, a, b, list, i); }
  }

  lemma QuietNext(w: World, a: Sys, b: Sys, list: seq<Folder>, i: nat)
    requires i < |list| && w.Valid() && Membered(a, b) && Membered(a, w.sys) && Synced(b, w.sys, list[i])
    requires MailsOk(w.o, a.watched) && MailsOk(w.o, b.watched)
    requires AllQuiet(a, list) && w.sys.watched == a.watched
    requires b.watched == a.watched ==> Drift(a, b)
    requires FolderQuiet(b, list[i]) && w.sys.watched[list[i]] == b.watched[list[i]] ==> Drift(b, w.sys)
    ensures Drift(a, w.sys)
  {
    WatchedSame(w, a, b);
    assert list[i] in list && FolderQuiet(a, list[i]);
    DriftTwice(a, b, w.sys);
  }

  ghost predicate MembershipQuiet(w: World, s: Sys) {
    forall f :: Watched(w.o, w.src.special, s.watched.Keys, f) ==> FolderQuiet(s, f)
  }

  ghost predicate MembershipDone(w: World, a: Sys)
    reads w
  {
    forall f :: Watched(w.o, w.src.special, a.watched.Keys, f) ==> f in a.watched && FolderDone(w.sys, f, a.watched[f])
  }

  /** Watched folders stay, so a listed one is still there. */
  lemma ListedThere(w: World, a: Sys, list: seq<Folder>, i: nat)
    requires w.Valid() && Membered(a, w.sys) && i < |list|
    requires Watched(w.o, w.src.special, a.watched.Keys, list[i])
    ensures (forall f :: f in RoutingFolders(w.o) ==> f in a.watched) ==> list[i] in w.src.folders
  {
  }

  /** Scans every watched folder and records the changes. */
  method SyncMembership(w: World) returns (ok: bool)
    requires w.Valid() && w.sys.busy && w.sys.live == map[]
    modifies w`run, w`sys, w.src`main, w.src`folders, w.src`selected, w.dst`apps, w.store
    ensures w.Valid() && Membered(old(w.sys), w.sys)
    ensures ok ==> MembershipDone(w, old(w.sys))
    ensures MembershipQuiet(w, old(w.sys)) && w.sys.watched == old(w.sys).watched ==> Drift(old(w.sys), w.sys)
    ensures w.healthy && old(forall f :: f in RoutingFolders(w.o) ==> f in w.src.folders) ==> ok
  {
    ghost var a := w.sys;
    WatchedOk(w);
    var list;
    ok, list := WatchList(w);
    if !ok { return; }
    for i := 0 to |list|
      invariant w.Valid() && Membered(a, w.sys) && AllDone(a, w.sys, list[..i])
      invariant AllQuiet(a, list) && w.sys.watched == a.watched ==> Drift(a, w.sys)
    {
      ListedThere(w, a, list, i);
      ok := SyncNext(w, list, i, a);
      if !ok { return; }
    }
    assert list[..|list|] == list;
  }
}
