/** The persistent state of one mirror: the SQLite tables of internal/state/store.go
    as one immutable value, the functions each transaction applies to it, and the
    Store whose methods run those transactions row by row. */
module State {
  import opened Wrappers

  type Key = string
  type Folder = string

  /** The kind column of a pending row; Other stands for a row of a later version. */
  datatype Kind = Move | Keyword | Other

  datatype PendingOp = PendingOp(id: nat, kind: Kind, key: Key, folder: Folder, add: bool)

  /** One membership change; kind None means that no destination operation is queued. */
  datatype Change = Change(key: Key, uid: nat, add: bool, kind: Option<Kind>)

  datatype KeyRecord = KeyRecord(key: Key, uid: nat)

  datatype FolderMark = FolderMark(validity: nat, lastUid: nat)

  datatype Db = Db(
    copied: map<Key, nat>,
    members: map<(Folder, Key), nat>,
    pending: seq<PendingOp>,
    nextId: nat,
    folders: map<Folder, FolderMark>,
    uidValidity: nat,
    lastUid: nat,
    fingerprint: string)

  const EMPTY := Db(map[], map[], [], 0, map[], 0, 0, "")

  // ---------------------------------------------------------------- recorded keys

  /** INSERT ... ON CONFLICT DO NOTHING, one row after the other. */
  function Recorded(copied: map<Key, nat>, records: seq<KeyRecord>): map<Key, nat> {
    if records == [] then copied
    else
      var before := Recorded(copied, records[..|records| - 1]);
      var r := records[|records| - 1];
      if r.key in before then before else before[r.key := r.uid]
  }

  function RecordedKeys(records: seq<KeyRecord>): set<Key> {
    set r | r in records :: r.key
  }

  /** A batch adds exactly its keys, and the first record of a key is never replaced. */
  lemma {:induction false} RecordedAdds(copied: map<Key, nat>, records: seq<KeyRecord>)
    ensures Recorded(copied, records).Keys == copied.Keys + RecordedKeys(records)
    ensures forall k :: k in copied ==> k in Recorded(copied, records) && Recorded(copied, records)[k] == copied[k]
  {
    if records != [] {
      var init := records[..|records| - 1];
      RecordedAdds(copied, init);
      assert records == init + [records[|records| - 1]];
    }
  }

  /** Recording a batch whose keys are all present changes nothing (RecordKeys is idempotent). */
  lemma {:induction false} RecordedTwice(copied: map<Key, nat>, records: seq<KeyRecord>)
    requires RecordedKeys(records) <= copied.Keys
    ensures Recorded(copied, records) == copied
  {
    if records != [] {
      var init := records[..|records| - 1];
      assert records == init + [records[|records| - 1]];
      assert forall r :: r in init ==> r in records;
      assert records[|records| - 1].key in RecordedKeys(records);
      RecordedTwice(copied, init);
    }
  }

  // ------------------------------------------------------------------- membership

  function MemberKeys(db: Db, folder: Folder): set<Key> {
    set fk | fk in db.members && fk.0 == folder :: fk.1
  }

  function ApplyChange(db: Db, folder: Folder, c: Change): Db {
    var members := if c.add then db.members[(folder, c.key) := c.uid] else db.members - {(folder, c.key)};
    match c.kind
    case None => db.(members := members)
    case Some(kind) =>
      db.(members := members,
          pending := db.pending + [PendingOp(db.nextId, kind, c.key, folder, c.add)],
          nextId := db.nextId + 1)
  }

  function ApplyChanges(db: Db, folder: Folder, changes: seq<Change>): Db {
    if changes == [] then db
    else ApplyChange(ApplyChanges(db, folder, changes[..|changes| - 1]), folder, changes[|changes| - 1])
  }

  function ChangedKeys(changes: seq<Change>): set<Key> {
    set c | c in changes :: c.key
  }

  predicate AllAdd(changes: seq<Change>) { forall c :: c in changes ==> c.add }

  predicate AllRemove(changes: seq<Change>) { forall c :: c in changes ==> !c.add }

  /** The rows one batch appends to the queue, in the order of its changes. */
  function QueuedRows(folder: Folder, changes: seq<Change>, nextId: nat): seq<PendingOp> {
    if changes == [] then []
    else
      var rows := QueuedRows(folder, changes[..|changes| - 1], nextId);
      var c := changes[|changes| - 1];
      match c.kind
      case None => rows
      case Some(kind) => rows + [PendingOp(nextId + |rows|, kind, c.key, folder, c.add)]
  }

  /** A batch touches the members of its own folder and appends to the queue; nothing else. */
  lemma {:induction false} ChangesFrame(db: Db, folder: Folder, changes: seq<Change>)
    ensures var db' := ApplyChanges(db, folder, changes);
            && db'.pending == db.pending + QueuedRows(folder, changes, db.nextId)
            && db'.nextId == db.nextId + |QueuedRows(folder, changes, db.nextId)|
            && db' == db.(members := db'.members, pending := db'.pending, nextId := db'.nextId)
            && (forall f: Folder, k: Key :: f != folder || k !in ChangedKeys(changes) ==>
                  && ((f, k) in db'.members <==> (f, k) in db.members)
                  && ((f, k) in db.members ==> db'.members[(f, k)] == db.members[(f, k)]))
  {
    if changes != [] {
      var init, last := changes[..|changes| - 1], changes[|changes| - 1];
      ChangesFrame(db, folder, init);
      assert changes == init + [last];
      assert ChangedKeys(changes) == ChangedKeys(init) + {last.key};
      ChangeFrame(ApplyChanges(db, folder, init), folder, last);
    }
  }

  lemma ChangeFrame(db: Db, folder: Folder, c: Change)
    ensures forall f: Folder, k: Key :: f != folder || k != c.key ==>
              && ((f, k) in ApplyChange(db, folder, c).members <==> (f, k) in db.members)
              && ((f, k) in db.members ==> ApplyChange(db, folder, c).members[(f, k)] == db.members[(f, k)])
  {
  }

  /** The uid of the last change of a key. */
  function LastUid(changes: seq<Change>, k: Key): (u: nat)
    requires k in ChangedKeys(changes)
    ensures exists c :: c in changes && c.key == k && c.uid == u
  {
    var init, last := changes[..|changes| - 1], changes[|changes| - 1];
    assert changes == init + [last];
    if last.key == k then assert last in changes; last.uid
    else
      var u := LastUid(init, k);
      assert exists c :: c in changes && c.key == k && c.uid == u by {
        var c :| c in init && c.key == k && c.uid == u;
        assert c in changes;
      }
      u
  }

  /** Every key of an adding batch is a member afterwards, under the uid of its last change. */
  lemma {:induction false} AddsEffect(db: Db, folder: Folder, changes: seq<Change>)
    requires AllAdd(changes)
    ensures forall k :: k in ChangedKeys(changes) ==>
              && (folder, k) in ApplyChanges(db, folder, changes).members
              && ApplyChanges(db, folder, changes).members[(folder, k)] == LastUid(changes, k)
              && exists c :: c in changes && c.key == k && c.uid == LastUid(changes, k)
  {
    if changes != [] {
      var init, last := changes[..|changes| - 1], changes[|changes| - 1];
      assert changes == init + [last];
      AddsEffect(db, folder, init);
      var db1 := ApplyChanges(db, folder, init);
      forall k | k in ChangedKeys(changes)
        ensures (folder, k) in ApplyChanges(db, folder, changes).members
        ensures ApplyChanges(db, folder, changes).members[(folder, k)] == LastUid(changes, k)
      {
        if k != last.key {
          assert k in ChangedKeys(init);
          assert db1.members[(folder, k)] == LastUid(init, k);
        }
      }
    }
  }

  /** No key of a removing batch is a member afterwards. */
  lemma {:induction false} RemovesEffect(db: Db, folder: Folder, changes: seq<Change>)
    requires AllRemove(changes)
    ensures forall k :: k in ChangedKeys(changes) ==> (folder, k) !in ApplyChanges(db, folder, changes).members
  {
    if changes != [] {
      var init := changes[..|changes| - 1];
      assert changes == init + [changes[|changes| - 1]];
      RemovesEffect(db, folder, init);
    }
  }

  ghost predicate RowOf(row: PendingOp, c: Change) {
    row.key == c.key && row.add == c.add && c.kind == Some(row.kind)
  }

  ghost predicate RowFrom(row: PendingOp, changes: seq<Change>) {
    exists c :: c in changes && RowOf(row, c)
  }

  ghost predicate HasRowOf(rows: seq<PendingOp>, c: Change) {
    exists row :: row in rows && RowOf(row, c)
  }

  /** Every queued row stems from a change that carries a kind, under new, increasing ids. */
  lemma {:induction false} QueuedRowsStem(folder: Folder, changes: seq<Change>, nextId: nat)
    ensures forall j :: 0 <= j < |QueuedRows(folder, changes, nextId)| ==>
              var row := QueuedRows(folder, changes, nextId)[j];
              row.id == nextId + j && row.folder == folder && RowFrom(row, changes)
  {
    if changes != [] {
      var init, last := changes[..|changes| - 1], changes[|changes| - 1];
      assert changes == init + [last];
      QueuedRowsStem(folder, init, nextId);
      var rows0, rows := QueuedRows(folder, init, nextId), QueuedRows(folder, changes, nextId);
      forall j | 0 <= j < |rows|
        ensures rows[j].id == nextId + j && rows[j].folder == folder && RowFrom(rows[j], changes)
      {
        if j < |rows0| {
          assert rows[j] == rows0[j] && RowFrom(rows0[j], init);
          var c :| c in init && RowOf(rows0[j], c);
          assert c in changes;
        } else {
          assert last in changes && RowOf(rows[j], last);
        }
      }
    }
  }

  /** Every change that carries a kind is queued. */
  lemma {:induction false} QueuedRowsCover(folder: Folder, changes: seq<Change>, nextId: nat)
    ensures forall c :: c in changes && c.kind.Some? ==> HasRowOf(QueuedRows(folder, changes, nextId), c)
  {
    if changes != [] {
      var init, last := changes[..|changes| - 1], changes[|changes| - 1];
      assert changes == init + [last];
      QueuedRowsCover(folder, init, nextId);
      var rows0, rows := QueuedRows(folder, init, nextId), QueuedRows(folder, changes, nextId);
      forall c | c in changes && c.kind.Some? ensures HasRowOf(rows, c) {
        if c in init {
          var row :| row in rows0 && RowOf(row, c);
          assert row in rows;
        } else {
          assert rows[|rows0|] in rows && RowOf(rows[|rows0|], c);
        }
      }
    }
  }

  // ------------------------------------------------------------------ pending queue

  function WithoutRow(pending: seq<PendingOp>, id: nat): seq<PendingOp> {
    if pending == [] then []
    else if pending[0].id == id then WithoutRow(pending[1..], id)
    else [pending[0]] + WithoutRow(pending[1..], id)
  }

  function WithoutRows(pending: seq<PendingOp>, ids: seq<nat>): seq<PendingOp> {
    if ids == [] then pending
    else WithoutRow(WithoutRows(pending, ids[..|ids| - 1]), ids[|ids| - 1])
  }

  /** AUTOINCREMENT: ids increase along the queue and stay below the next one. */
  ghost predicate Ordered(pending: seq<PendingOp>, nextId: nat) {
    && (forall i, j :: 0 <= i < j < |pending| ==> pending[i].id < pending[j].id)
    && (forall i :: 0 <= i < |pending| ==> pending[i].id < nextId)
  }

  function Ids(pending: seq<PendingOp>): seq<nat> {
    seq(|pending|, i requires 0 <= i < |pending| => pending[i].id)
  }

  lemma {:induction false} WithoutRowAbsent(pending: seq<PendingOp>, id: nat)
    requires forall i :: 0 <= i < |pending| ==> pending[i].id != id
    ensures WithoutRow(pending, id) == pending
  {
    if pending != [] {
      WithoutRowAbsent(pending[1..], id);
    }
  }

  /** Deleting the ids of the first n rows drops exactly that prefix of the queue. */
  lemma {:induction false} DeletePrefix(pending: seq<PendingOp>, nextId: nat, n: nat)
    requires Ordered(pending, nextId) && n <= |pending|
    ensures WithoutRows(pending, Ids(pending[..n])) == pending[n..]
  {
    if n > 0 {
      DeletePrefix(pending, nextId, n - 1);
      assert Ids(pending[..n])[..n - 1] == Ids(pending[..n - 1]);
      var rest := pending[n - 1..];
      assert rest[0].id == Ids(pending[..n])[n - 1];
      assert rest[1..] == pending[n..];
      WithoutRowAbsent(rest[1..], rest[0].id);
    }
  }

  // ------------------------------------------------------------------------- Store

  /** The SQLite store. Every batch runs in one transaction over a working copy of the
      tables: it commits as a whole or, on an error at any row, leaves them as they were. */
  class Store {
    var db: Db
    const healthy: bool               // whether no statement fails

    constructor (db: Db, healthy: bool)
      ensures this.db == db && this.healthy == healthy
    {
      this.db, this.healthy := db, healthy;
    }

    method RecordKeys(records: seq<KeyRecord>) returns (ok: bool)
      modifies this
      ensures ok ==> db == old(db).(copied := Recorded(old(db).copied, records))
      ensures !ok ==> db == old(db)
      ensures healthy ==> ok
    {
      if records == [] { return true; }
      var copied := db.copied;
      for i := 0 to |records|
        invariant db == old(db)
        invariant copied == Recorded(db.copied, records[..i])
      {
        var failed: bool :| healthy ==> !failed;
        if failed { return false; }
        assert records[..i + 1][..i] == records[..i];
        if records[i].key !in copied {
          copied := copied[records[i].key := records[i].uid];
        }
      }
      assert records[..|records|] == records;
      db := db.(copied := copied);
      return true;
    }

    method MemberChangeBatch(folder: Folder, changes: seq<Change>) returns (ok: bool)
      modifies this
      ensures ok ==> db == ApplyChanges(old(db), folder, changes)
      ensures !ok ==> db == old(db)
      ensures changes == [] ==> ok
      ensures healthy ==> ok
    {
      if changes == [] { return true; }
      var tx := db;
      for i := 0 to |changes|
        invariant db == old(db)
        invariant tx == ApplyChanges(db, folder, changes[..i])
      {
        var failed: bool :| healthy ==> !failed;
        if failed { return false; }
        assert changes[..i + 1][..i] == changes[..i];
        var c := changes[i];
        if c.add {
          tx := tx.(members := tx.members[(folder, c.key) := c.uid]);
        } else {
          tx := tx.(members := tx.members - {(folder, c.key)});
        }
        match c.kind {
          case None =>
          case Some(kind) =>
            tx := tx.(pending := tx.pending + [PendingOp(tx.nextId, kind, c.key, folder, c.add)],
                      nextId := tx.nextId + 1);
        }
      }
      assert changes[..|changes|] == changes;
      db := tx;
      return true;
    }

    method DeletePendingBatch(ids: seq<nat>) returns (ok: bool)
      modifies this
      ensures ok ==> db == old(db).(pending := WithoutRows(old(db).pending, ids))
      ensures !ok ==> db == old(db)
      ensures ids == [] ==> ok
      ensures healthy ==> ok
    {
      if ids == [] { return true; }
      var pending := db.pending;
      for i := 0 to |ids|
        invariant db == old(db)
        invariant pending == WithoutRows(db.pending, ids[..i])
      {
        var failed: bool :| healthy ==> !failed;
        if failed { return false; }
        assert ids[..i + 1][..i] == ids[..i];
        pending := WithoutRow(pending, ids[i]);
      }
      assert ids[..|ids|] == ids;
      db := db.(pending := pending);
      return true;
    }

    method SetFolderState(folder: Folder, mark: FolderMark) returns (ok: bool)
      modifies this
      ensures db == if ok then old(db).(folders := old(db).folders[folder := mark]) else old(db)
      ensures healthy ==> ok
    {
      ok :| healthy ==> ok;
      if ok { db := db.(folders := db.folders[folder := mark]); }
    }

    method SetLastUid(uid: nat) returns (ok: bool)
      modifies this
      ensures db == if ok then old(db).(lastUid := uid) else old(db)
      ensures healthy ==> ok
    {
      ok :| healthy ==> ok;
      if ok { db := db.(lastUid := uid); }
    }

    method SetUidValidity(v: nat) returns (ok: bool)
      modifies this
      ensures db == if ok then old(db).(uidValidity := v) else old(db)
      ensures healthy ==> ok
    {
      ok :| healthy ==> ok;
      if ok { db := db.(uidValidity := v); }
    }

    method SetFingerprint(fp: string) returns (ok: bool)
      modifies this
      ensures db == if ok then old(db).(fingerprint := fp) else old(db)
      ensures healthy ==> ok
    {
      ok :| healthy ==> ok;
      if ok { db := db.(fingerprint := fp); }
    }
  }
}
