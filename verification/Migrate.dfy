/** Schema migrations of the state file (internal/state/migrate.go): one transaction per
    version, refused for files of a newer binary. */
module Migrate {
  import opened State
  import opened Protocol

  const SCHEMA_VERSION := 2

  /** A state file of any version: version 1 keeps labels, version 2 members and operations. */
  datatype Tables = Tables(version: nat, labels: set<(Key, Folder)>, db: Db)

  /** What a file of a supported version may hold. */
  predicate WellFormed(t: Tables) {
    && t.version <= SCHEMA_VERSION
    && (t.version < 2 ==> t.db.members == map[] && t.db.pending == [])
    && (t.version == 2 ==> t.labels == {})
  }

  /** One migration. */
  function Upgraded(t: Tables): Tables
    requires t.version < SCHEMA_VERSION
  {
    if t.version == 0 then t.(version := 1)
    else
      t.(version := 2, labels := {},
         db := t.db.(members := map row | row in t.labels :: (row.1, row.0) := 0,
                     pending := [], nextId := 0, folders := map[]))
  }

  function Latest(t: Tables): Tables
    requires t.version <= SCHEMA_VERSION
    decreases SCHEMA_VERSION - t.version
  {
    if t.version == SCHEMA_VERSION then t else Latest(Upgraded(t))
  }

  datatype Outcome = Migrated | Failed | TooNew

  class File {
    var tables: Tables

    constructor (tables: Tables)
      ensures this.tables == tables
    {
      this.tables := tables;
    }

    /** One step commits as a whole or not at all. */
    method MigrateStep() returns (ok: bool)
      requires tables.version < SCHEMA_VERSION
      modifies this
      ensures tables == if ok then Upgraded(old(tables)) else old(tables)
    {
      ok := *;
      if ok { tables := Upgraded(tables); }
    }

    /** Brings the file to the version this binary needs. However far a failed attempt came,
        another one reaches the same tables. */
    method Migrate() returns (r: Outcome)
      requires tables.version <= SCHEMA_VERSION ==> WellFormed(tables)
      modifies this
      ensures r.TooNew? <==> old(tables).version > SCHEMA_VERSION
      ensures r.TooNew? ==> tables == old(tables)
      ensures r.Migrated? ==> tables == Latest(old(tables))
      ensures r.Failed? ==> tables.version <= SCHEMA_VERSION && Latest(tables) == Latest(old(tables))
    {
      if tables.version > SCHEMA_VERSION { return TooNew; }
      while tables.version < SCHEMA_VERSION
        invariant tables.version <= SCHEMA_VERSION && Latest(tables) == Latest(old(tables))
        decreases SCHEMA_VERSION - tables.version
      {
        var ok := MigrateStep();
        if !ok { return Failed; }
      }
      return Migrated;
    }
  }

  /** Dedup keys, marks and metadata survive; exactly the labels become members, under a uid
      that no message has, and every scan state is gone. */
  lemma LatestIs(t: Tables)
    requires WellFormed(t)
    ensures Latest(t).version == SCHEMA_VERSION && WellFormed(Latest(t))
    ensures t.version == SCHEMA_VERSION ==> Latest(t) == t
    ensures t.version < SCHEMA_VERSION ==>
              && Latest(t).db == t.db.(members := Latest(t).db.members, pending := [], nextId := 0, folders := map[])
              && (forall f, k :: (f, k) in Latest(t).db.members <==> (k, f) in t.labels)
              && forall fk :: fk in Latest(t).db.members ==> Latest(t).db.members[fk] == 0
  {
    if t.version < SCHEMA_VERSION {
      var t1 := if t.version == 0 then Upgraded(t) else t;
      assert t1.labels == t.labels && t1.db == t.db;
      assert Latest(t) == Upgraded(t1) by {
        assert Latest(t1) == Upgraded(t1) by { assert Latest(Upgraded(t1)) == Upgraded(t1); }
      }
      forall f, k ensures (f, k) in Upgraded(t1).db.members <==> (k, f) in t.labels {
        if (k, f) in t.labels { assert ((k, f).1, (k, f).0) in Upgraded(t1).db.members; }
      }
    }
  }

  /** A migrated file with an honest mark is a store the mirror may start from: it follows no
      folder yet, so the first sync of each is a rebuild. */
  lemma MigratedIsFresh(src: Mailbox, seen: set<Key>, t: Tables)
    requires WellFormed(t) && t.version < SCHEMA_VERSION && t.db.copied.Keys <= seen
    requires t.db.uidValidity == src.validity ==> Covered(src, t.db.copied, {}, t.db.lastUid)
    ensures Fresh(Latest(t).db, src, seen)
  {
    LatestIs(t);
  }
}
