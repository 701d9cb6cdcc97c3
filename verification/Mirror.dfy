/** Mirroring one UID window and the windowed scan (internal/reconcile/reconcile.go). */
module Mirror {
  import opened State
  import opened Placement
  import opened Protocol
  import opened Safety
  import opened Convergence
  import opened Tracking
  import opened World
  import P = Pipeline
  import K = Key
  import Labels

  /** A classified candidate awaiting its body copy. */
  datatype Pend = Pend(uid: nat, key: Key, folder: Folder)

  // ---------------------------------------------------------------- keywords

  method LabelsFor(w: World, key: Key) returns (ok: bool, labels: seq<Folder>)
    ensures ok ==> forall f :: f in labels <==> IsLabelOf(w.o, w.store.db, f, key)
    ensures w.healthy ==> ok
  {
    ok :| w.healthy ==> ok;
    labels := [];
    var rows := w.store.db.members.Keys;
    while rows != {}
      invariant rows <= w.store.db.members.Keys
      invariant forall f :: f in labels <==> IsLabelOf(w.o, w.store.db, f, key) && (f, key) !in rows
      decreases |rows|
    {
      var row :| row in rows;
      rows := rows - {row};
      if row.1 == key && !IsRoutingFolder(w.o, row.0) {
        labels := labels + [row.0];
      }
    }
  }

  lemma CollectedKeywords(o: Opts, db: Db, key: Key, labels: seq<Folder>, flags: seq<string>)
    requires o.syncLabels && forall f :: f in labels <==> IsLabelOf(o, db, f, key)
    requires flags == Labels.LabelKeywords(labels, o.keywordPrefix, o.keywordReplacement)
    ensures (set x | x in flags :: Labels.Lower(x)) == KeywordsOf(o, db, key)
  {
    Labels.LabelKeywordsAre(labels, o.keywordPrefix, o.keywordReplacement);
    forall x | x in flags ensures Labels.Lower(x) in KeywordsOf(o, db, key) {
      assert Labels.KeywordOfSome(x, labels, o.keywordPrefix, o.keywordReplacement);
      var f :| f in labels && x == Labels.LabelKeyword(f, o.keywordPrefix, o.keywordReplacement);
      assert IsLabelOf(o, db, f, key) && Kw(o, f) == Labels.Lower(x) && |Labels.Lower(x)| == |x|;
    }
    forall y | y in KeywordsOf(o, db, key) ensures y in set x | x in flags :: Labels.Lower(x) {
      var fk :| fk in db.members && fk.1 == key && !IsRoutingFolder(o, fk.0) && Kw(o, fk.0) == y && y != "";
      assert IsLabelOf(o, db, fk.0, key) && fk.0 in labels;
      var x := Labels.LabelKeyword(fk.0, o.keywordPrefix, o.keywordReplacement);
      assert Labels.KeywordOfSome(x, labels, o.keywordPrefix, o.keywordReplacement);
    }
  }

  /** The label keywords a copy of key gets, as the destination stores them. */
  method KeywordsFor(w: World, key: Key) returns (ok: bool, kws: set<string>)
    ensures ok ==> kws == KeywordsOf(w.o, w.store.db, key)
    ensures w.healthy ==> ok
  {
    if !w.o.syncLabels { return true, {}; }
    var labels;
    ok, labels := LabelsFor(w, key);
    if !ok { return false, {}; }
    var flags := Labels.CollectKeywords(labels, w.o.keywordPrefix, w.o.keywordReplacement);
    CollectedKeywords(w.o, w.store.db, key, labels, flags);
    kws := set x | x in flags :: Labels.Lower(x);
  }

  // ---------------------------------------------------------------- consumer

  function Keys(fs: seq<Flight>): seq<Key> {
    seq(|fs|, i requires 0 <= i < |fs| => fs[i].key)
  }

  ghost predicate Distinct<T>(s: seq<T>) {
    forall i, j :: 0 <= i < j < |s| ==> s[i] != s[j]
  }

  function Limit(w: World): P.Limits { P.LimitsFor(w.o.destGuard) }

  /** The buffered records belong to confirmed appends. */
  ghost predicate Buffered(s: Sys, c: P.Cons<Flight>) {
    forall fl :: fl in c.records ==> fl.id in s.confirmed && fl.id in s.live && s.live[fl.id] == fl.key
  }

  /** Until the first error, ring and records account for all appends of the session. */
  ghost predicate Held(o: Opts, s: Sys, c: P.Cons<Flight>) {
    && c.lost == []
    && Distinct(Keys(c.records + c.ring))
    && (forall fl :: fl in c.ring ==>
          && fl.id in s.live && s.live[fl.id] == fl.key && fl.id !in s.confirmed
          && fl.folder == DestFor(o, s.db, fl.key) && fl.key !in s.db.copied && fl.key in s.bodies)
    && (forall id :: id in s.live ==> exists fl :: (fl in c.ring || fl in c.records) && fl.id == id)
  }

  /** The store holds what it held in base plus everything recorded; that is tracked, unless there
      was a copy of it in base already. */
  ghost predicate Account(o: Opts, base: Sys, s: Sys, c: P.Cons<Flight>) {
    && Traced(base, s)
    && s.db.copied.Keys == base.db.copied.Keys + (set fl | fl in c.recorded :: fl.key)
    && forall fl :: fl in c.recorded ==> fl.key in AppKeys(base.apps) || Noted(o, s, fl.key)
  }

  /** Said as Legal is, to be unfolded where BookedIs is called. */
  ghost predicate Booked(o: Opts, base: Sys, s: Sys, c: P.Cons<Flight>) {
    forall n: nat {:trigger Look(n)} :: Look(n) ==> Account(o, base, s, c)
  }

  lemma BookedIs(o: Opts, base: Sys, s: Sys, c: P.Cons<Flight>)
    requires Booked(o, base, s, c)
    ensures Account(o, base, s, c)
  {
    assert Look(0);
  }

  /** What is noted stays so. */
  lemma NotedStays(o: Opts, a: Sys, b: Sys, k: Key)
    requires StillTracked(a, b) && Traced(a, b) && b.db.members == a.db.members && a.db.copied.Keys <= b.db.copied.Keys
    requires SoleInv(o, b) && LiveInv(o, b) && k in a.db.copied && Noted(o, a, k)
    ensures Noted(o, b, k)
  {
    if K.IsRealMessageID(k) {
      forall i | i in b.apps && b.apps[i].key == k ensures CopyNoted(o, b, i) {
        assert i !in b.live;
        assert CopyNoted(o, a, i) && StillExcused(a, b, i);
        KeywordsSame(o, a.db, b.db, k);
      }
    }
  }

  lemma BookedStays(w: World, base: Sys, a: Sys, c: P.Cons<Flight>, c': P.Cons<Flight>)
    requires w.Valid() && Booked(w.o, base, a, c) && Copying(a, w.sys) && w.sys.db.copied == a.db.copied
    requires c'.recorded == c.recorded
    ensures Booked(w.o, base, w.sys, c')
  {
    OpenKnown(w);
    BookedIs(w.o, base, a, c);
    BookedOn(w.o, base, a, w.sys, c);
  }

  /** What was booked in a still is in b. */
  lemma BookedOn(o: Opts, base: Sys, a: Sys, b: Sys, c: P.Cons<Flight>)
    requires LiveInv(o, b) && SoleInv(o, b) && Account(o, base, a, c) && Copying(a, b)
    ensures Traced(base, b)
    ensures forall fl :: fl in c.recorded ==> fl.key in AppKeys(base.apps) || Noted(o, b, fl.key)
  {
    TracedTwice(base, a, b);
    forall fl | fl in c.recorded && fl.key !in AppKeys(base.apps) ensures Noted(o, b, fl.key) {
      NotedStays(o, a, b, fl.key);
    }
  }

  /** What was confirmed and recorded, or waits to be. */
  function Sure(c: P.Cons<Flight>): seq<Key> { Keys(c.recorded + c.records) }

  ghost function IdSet(fs: seq<Flight>): (ids: set<nat>)
    ensures |ids| <= |fs|
    ensures forall fl :: fl in fs ==> fl.id in ids
  {
    if fs == [] then {}
    else
      assert fs == [fs[0]] + fs[1..];
      {fs[0].id} + IdSet(fs[1..])
  }

  lemma IdsFewer(live: map<nat, Key>, fs: seq<Flight>)
    requires forall id :: id in live ==> exists fl :: fl in fs && fl.id == id
    ensures |live| <= |fs|
  {
    assert live.Keys <= IdSet(fs);
    CardinalityLe(live.Keys, IdSet(fs));
  }

  method FlushRecords(w: World, ghost base: Sys)
    requires w.Valid() && w.sys.busy && Buffered(w.sys, w.cons) && Booked(w.o, base, w.sys, w.cons)
    requires Distinct(Keys(w.cons.records))
    modifies w`run, w`sys, w`cons, w.store, w.dst`open
    ensures w.Valid() && Copying(old(w.sys), w.sys) && Booked(w.o, base, w.sys, w.cons)
    ensures w.sys.cleared == old(w.sys).cleared && w.sys.rejected == old(w.sys).rejected
    ensures w.cons == P.Flushed(old(w.cons)) || w.cons == P.FlushFailed(old(w.cons))
    ensures w.cons != P.Flushed(old(w.cons)) ==> Buffered(w.sys, w.cons)
    ensures w.cons == P.Flushed(old(w.cons)) ==> Emptied(old(w.sys), w.sys, old(w.cons))
    ensures w.healthy && !old(w.cons.failed) ==> !w.cons.failed
  {
    if w.cons.records == [] {
      assert P.Flushed(w.cons) == w.cons;
    } else {
      StoreBuffer(w, base);
    }
  }

  method StoreBuffer(w: World, ghost base: Sys)
    requires w.Valid() && w.sys.busy && Buffered(w.sys, w.cons) && Booked(w.o, base, w.sys, w.cons)
    requires Distinct(Keys(w.cons.records))
    modifies w`run, w`sys, w`cons, w.store, w.dst`open
    ensures w.Valid() && Copying(old(w.sys), w.sys) && Booked(w.o, base, w.sys, w.cons)
    ensures w.sys.cleared == old(w.sys).cleared && w.sys.rejected == old(w.sys).rejected
    ensures w.cons == P.Flushed(old(w.cons)) || (w.cons == P.FlushFailed(old(w.cons)) && w.sys == old(w.sys))
    ensures w.cons == P.Flushed(old(w.cons)) ==> Emptied(old(w.sys), w.sys, old(w.cons))
    ensures w.healthy ==> w.cons == P.Flushed(old(w.cons))
  {
    var fs := w.cons.records;
    ghost var a, c := w.sys, w.cons;
    BufferReady(w);
    var ok := w.StoreRecords(Ids(fs), Records(fs));
    if ok { BufferBooked(w, base, a, c); }
    w.cons := if ok then P.Flushed(w.cons) else P.FlushFailed(w.cons);
  }

  /** The records in the buffer are stored, and their appends no longer open. */
  ghost predicate Emptied(a: Sys, b: Sys, c: P.Cons<Flight>) {
    && b.db.copied.Keys == a.db.copied.Keys + (set fl | fl in c.records :: fl.key)
    && b.live == a.live - (set fl | fl in c.records :: fl.id)
    && b.confirmed == a.confirmed - (set fl | fl in c.records :: fl.id)
  }

  lemma OpenKnown(w: World)
    requires w.Valid()
    ensures LiveInv(w.o, w.sys) && SoleInv(w.o, w.sys)
  {
    w.Known();
  }

  lemma BufferReady(w: World)
    requires w.Valid() && Buffered(w.sys, w.cons) && Distinct(Keys(w.cons.records))
    ensures RecordOk(w.sys, Ids(w.cons.records), Records(w.cons.records))
    ensures RecordedKeys(Records(w.cons.records)) == set fl | fl in w.cons.records :: fl.key
    ensures (set i | i in Ids(w.cons.records)) == set fl | fl in w.cons.records :: fl.id
  {
    IdsOf(w.cons.records);
    KeysOf(w.cons.records);
  }

  lemma BufferBooked(w: World, base: Sys, a: Sys, c: P.Cons<Flight>)
    requires Booked(w.o, base, a, c) && w.Valid() && Copying(a, w.sys)
    requires Buffered(a, c) && RecordNoted(w.o, a, w.sys, Ids(c.records))
    requires w.sys.db.copied.Keys == a.db.copied.Keys + set fl | fl in c.records :: fl.key
    ensures Booked(w.o, base, w.sys, P.Flushed(c))
  {
    OpenKnown(w);
    BookedIs(w.o, base, a, c);
    BookedOn(w.o, base, a, w.sys, c);
    BufferNoted(w.o, base, a, w.sys, c);
    FlushedBooked(w.o, base, a, w.sys, c);
  }

  /** The appends recorded from the buffer are noted. */
  lemma BufferNoted(o: Opts, base: Sys, a: Sys, b: Sys, c: P.Cons<Flight>)
    requires Buffered(a, c) && RecordNoted(o, a, b, Ids(c.records)) && Traced(base, a)
    ensures forall fl :: fl in c.records ==> fl.key in AppKeys(base.apps) || Noted(o, b, fl.key)
  {
    forall fl | fl in c.records ensures fl.key in AppKeys(base.apps) || Noted(o, b, fl.key) {
      var j :| 0 <= j < |c.records| && c.records[j] == fl;
      assert Ids(c.records)[j] == fl.id;
      TwinBefore(o, base, a, b, fl.id);
    }
  }

  lemma FlushedBooked(o: Opts, base: Sys, a: Sys, b: Sys, c: P.Cons<Flight>)
    requires a.db.copied.Keys == base.db.copied.Keys + set fl | fl in c.recorded :: fl.key
    requires b.db.copied.Keys == a.db.copied.Keys + set fl | fl in c.records :: fl.key
    requires Traced(base, b)
    requires forall fl :: fl in c.recorded || fl in c.records ==> fl.key in AppKeys(base.apps) || Noted(o, b, fl.key)
    ensures Booked(o, base, b, P.Flushed(c))
  {
    assert P.Flushed(c).recorded == c.recorded + c.records;
  }

  lemma TwinBefore(o: Opts, base: Sys, a: Sys, b: Sys, id: nat)
    requires id in a.live && OneNoted(o, a, b, id) && Traced(base, a)
    ensures a.live[id] in AppKeys(base.apps) || Noted(o, b, a.live[id])
  {
    if !Noted(o, b, a.live[id]) {
      var i :| i in a.apps && i !in a.live && a.apps[i].key == a.live[id];
      assert i in base.apps && base.apps[i].key == a.live[id];
    }
  }

  function Ids(fs: seq<Flight>): seq<nat> {
    seq(|fs|, i requires 0 <= i < |fs| => fs[i].id)
  }

  function Records(fs: seq<Flight>): seq<KeyRecord> {
    seq(|fs|, i requires 0 <= i < |fs| => KeyRecord(fs[i].key, fs[i].uid))
  }

  lemma IdsOf(fs: seq<Flight>)
    ensures (set i | i in Ids(fs)) == set fl | fl in fs :: fl.id
  {
    forall fl | fl in fs ensures fl.id in Ids(fs) {
      var i :| 0 <= i < |fs| && fs[i] == fl;
      assert Ids(fs)[i] == fl.id;
    }
    forall id | id in Ids(fs) ensures exists fl :: fl in fs && fl.id == id {
      var i :| 0 <= i < |fs| && Ids(fs)[i] == id;
      assert fs[i] in fs;
    }
  }

  lemma KeysOf(fs: seq<Flight>)
    ensures RecordedKeys(Records(fs)) == set fl | fl in fs :: fl.key
  {
    forall fl | fl in fs ensures fl.key in RecordedKeys(Records(fs)) {
      var i :| 0 <= i < |fs| && fs[i] == fl;
      assert Records(fs)[i] in Records(fs);
    }
    forall k | k in RecordedKeys(Records(fs)) ensures exists fl :: fl in fs && fl.key == k {
      var i :| 0 <= i < |fs| && Records(fs)[i].key == k;
      assert fs[i] in fs;
    }
  }

  /** The session before and after an append of key is settled: nothing else moves. */
  ghost predicate Rest(a: Sys, b: Sys, oldId: nat, newId: nat, key: Key) {
    && b.db == a.db && b.bodies == a.bodies
    && (forall k :: k in a.cleared && k != key ==> k in b.cleared)
    && (forall id :: id in a.live && id != oldId ==> id in b.live && b.live[id] == a.live[id])
    && (forall id :: id in b.live ==> id == newId || (id in a.live && id != oldId))
    && (forall id :: id in a.confirmed ==> id in b.confirmed)
    && (forall id :: id in b.confirmed ==> id == newId || id in a.confirmed)
  }

  lemma RetryOk(o: Opts, s: Sys, it: Flight, id: nat)
    requires s.busy && |s.live| < Window(o) && id !in s.apps && id !in s.live && id !in s.arrived
    requires it.key in s.rejected && (K.IsRealMessageID(it.key) ==> it.key in s.cleared)
    requires it.folder == DestFor(o, s.db, it.key) && it.key !in s.db.copied && it.key in s.bodies
    requires it.key !in s.live.Values
    ensures IssueOk(o, s, id, it.key, it.folder, {})
  {
  }

  /** The second attempt, without keywords, of an append that was refused. */
  method Retry(w: World, it: Flight) returns (ok: bool, now: Flight)
    requires w.Valid() && w.sys.busy && |w.sys.live| < Window(w.o) && it.key !in w.sys.live.Values
    requires it.key in w.sys.rejected && (K.IsRealMessageID(it.key) ==> it.key in w.sys.cleared)
    requires it.folder == DestFor(w.o, w.sys.db, it.key) && it.key !in w.sys.db.copied && it.key in w.sys.bodies
    modifies w`run, w`sys, w.src`main, w.src`folders, w.dst
    ensures w.Valid() && Copying(old(w.sys), w.sys) && w.sys.db == old(w.sys).db
    ensures now == it.(id := old(w.dst.nextId)) && w.dst.nextId == old(w.dst.nextId) + 1
    ensures forall i :: i in w.sys.live ==> i in old(w.sys).live || i == now.id
    ensures old(w.sys).confirmed <= w.sys.confirmed
    ensures forall i :: i in old(w.sys).live ==> i in w.sys.live && w.sys.live[i] == old(w.sys).live[i]
    ensures ok ==>
              && w.sys.live == old(w.sys).live[now.id := it.key]
              && w.sys.confirmed == old(w.sys).confirmed + {now.id}
              && w.sys.cleared == old(w.sys).cleared - {it.key}
    ensures w.healthy ==> ok
  {
    ghost var a := w.sys;
    RetryOk(w.o, w.sys, it, w.dst.nextId);
    var id;
    ok, id := w.BeginAppend(it.key, it.folder, {});
    now := it.(id := id);
    if ok {
      ghost var b := w.sys;
      ok := AwaitRetried(w, id);
      CopyingTwice(a, b, w.sys);
    }
  }

  method AwaitRetried(w: World, id: nat) returns (ok: bool)
    requires w.Valid() && w.sys.busy && id in w.sys.live && id !in w.sys.confirmed
    modifies w`run, w`sys, w.src`main, w.src`folders, w.dst`apps, w.dst`open
    ensures w.Valid() && Copying(old(w.sys), w.sys) && w.sys.db == old(w.sys).db
    ensures old(w.sys).confirmed <= w.sys.confirmed
    ensures forall i :: i in w.sys.live ==> i in old(w.sys).live
    ensures forall i :: i in old(w.sys).live && i != id ==> i in w.sys.live && w.sys.live[i] == old(w.sys).live[i]
    ensures ok ==> Heard(old(w.sys), w.sys, id, Stored)
    ensures w.healthy ==> ok
  {
    var r := w.Await(id);
    ok := r == Stored;
  }

  /** Awaits the oldest append; a refused append with keywords is retried without them. */
  method AwaitOldest(w: World, it: Flight) returns (ok: bool, now: Flight, keywordsLanded: bool)
    requires w.Valid() && w.sys.busy && |w.sys.live| <= Window(w.o)
    requires it.id in w.sys.live && w.sys.live[it.id] == it.key && it.id !in w.sys.confirmed
    requires it.folder == DestFor(w.o, w.sys.db, it.key) && it.key !in w.sys.db.copied && it.key in w.sys.bodies
    modifies w`run, w`sys, w.src`main, w.src`folders, w.dst
    ensures w.Valid() && Copying(old(w.sys), w.sys) && w.sys.db == old(w.sys).db
    ensures old(w.sys).confirmed <= w.sys.confirmed
    ensures forall id :: id in old(w.sys).live && id != it.id ==>
                  id in w.sys.live && w.sys.live[id] == old(w.sys).live[id]
    ensures ok ==>
                  now.key == it.key && now.id in w.sys.live && w.sys.live[now.id] == it.key && now.id in w.sys.confirmed
    ensures ok ==> Rest(old(w.sys), w.sys, it.id, now.id, it.key)
    ensures ok ==> now.id == it.id || now.id !in old(w.sys).live
    ensures ok ==> (keywordsLanded ==> it.hadKeywords)
    ensures w.dst.nextId != old(w.dst.nextId) ==>
              && it.hadKeywords && it.key in w.sys.rejected && it.id !in w.sys.live
              && w.dst.nextId == old(w.dst.nextId) + 1
    ensures w.healthy ==> ok
  {
    ghost var a := w.sys;
    OpenOnce(w, it.id);
    var r := w.Await(it.id);
    ok, now, keywordsLanded := r == Stored, it, it.hadKeywords;
    if r == Refused && it.hadKeywords {
      ghost var b := w.sys;
      keywordsLanded := false;
      ok, now := Retry(w, it);
      CopyingTwice(a, b, w.sys);
      if ok { RetriedRest(a, b, w.sys, it.id, now.id, it.key); }
    }
  }

  lemma RetriedRest(a: Sys, b: Sys, c: Sys, id: nat, now: nat, key: Key)
    requires id in a.live && a.live[id] == key && Heard(a, b, id, Refused) && Copying(a, c) && c.db == a.db
    requires c.live == b.live[now := key] && c.confirmed == b.confirmed + {now} && c.cleared == b.cleared - {key}
    requires now !in a.live
    ensures Rest(a, c, id, now, key)
  {
  }

  /** No key has two open appends. */
  lemma OpenOnce(w: World, id: nat)
    requires w.Valid() && id in w.sys.live
    ensures w.sys.live[id] !in (w.sys.live - {id}).Values && |w.sys.live - {id}| < |w.sys.live|
    ensures w.sys.confirmed <= w.sys.live.Keys
  {
    OpenKnown(w);
    ShrinkLive(w.sys.live, id);
  }

  lemma ShrinkLive(live: map<nat, Key>, id: nat)
    requires id in live
    ensures |live - {id}| < |live|
  {
    assert (live - {id}).Keys == live.Keys - {id};
  }

  /** The consumer's variables after its oldest append was confirmed as now. */
  function Settled(c: P.Cons<Flight>, now: Flight): P.Cons<Flight>
    requires c.ring != []
  {
    P.Confirmed(c.(ring := [now] + c.ring[1..]))
  }

  lemma SettledIs(c: P.Cons<Flight>, now: Flight)
    requires c.ring != [] && now.key == c.ring[0].key
    ensures var c' := Settled(c, now);
            && c'.ring == c.ring[1..] && c'.records == c.records + [now] && c'.recorded == c.recorded
            && c'.lost == c.lost && c'.failed == c.failed
            && Keys(c'.records + c'.ring) == Keys(c.records + c.ring)
            && Keys(c'.recorded + c'.records + c'.ring) == Keys(c.recorded + c.records + c.ring)
  {
    var c' := Settled(c, now);
    assert c'.ring == c.ring[1..];
  }

  lemma SettledHeld(o: Opts, a: Sys, b: Sys, c: P.Cons<Flight>, now: Flight)
    requires c.ring != [] && Held(o, a, c) && Buffered(a, c)
    requires Rest(a, b, c.ring[0].id, now.id, c.ring[0].key)
    requires now.key == c.ring[0].key && now.id in b.live && b.live[now.id] == now.key && now.id in b.confirmed
    requires now.id == c.ring[0].id || now.id !in a.live
    ensures Held(o, b, Settled(c, now)) && Buffered(b, Settled(c, now))
  {
    var c' := Settled(c, now);
    SettledIs(c, now);
    RingApart(c);
    forall fl | fl in c'.ring
      ensures fl.id in b.live && b.live[fl.id] == fl.key && fl.id !in b.confirmed
              && fl.folder == DestFor(o, b.db, fl.key) && fl.key !in b.db.copied && fl.key in b.bodies
    {
      assert fl in c.ring;
    }
    SettledCover(a, b, c, now);
  }

  lemma SettledCover(a: Sys, b: Sys, c: P.Cons<Flight>, now: Flight)
    requires c.ring != [] && now.key == c.ring[0].key && Rest(a, b, c.ring[0].id, now.id, c.ring[0].key)
    requires forall id :: id in a.live ==> exists fl :: (fl in c.ring || fl in c.records) && fl.id == id
    ensures forall id :: id in b.live ==>
              exists fl :: (fl in Settled(c, now).ring || fl in Settled(c, now).records) && fl.id == id
  {
    SettledIs(c, now);
    var c' := Settled(c, now);
    forall id | id in b.live ensures exists fl :: (fl in c'.ring || fl in c'.records) && fl.id == id {
      if id == now.id {
        assert now in c'.records;
      } else {
        var fl :| (fl in c.ring || fl in c.records) && fl.id == id;
        assert fl in c'.ring || fl in c'.records;
      }
    }
  }

  /** The oldest append's key is not that of any other append held. */
  lemma RingApart(c: P.Cons<Flight>)
    requires c.ring != [] && Distinct(Keys(c.records + c.ring))
    ensures forall fl :: fl in c.ring[1..] || fl in c.records ==> fl.key != c.ring[0].key
  {
    var all := c.records + c.ring;
    var n := |c.records|;
    forall fl | fl in c.ring[1..] || fl in c.records ensures fl.key != c.ring[0].key {
      if fl in c.records {
        var j :| 0 <= j < n && c.records[j] == fl;
        assert Keys(all)[j] == fl.key && Keys(all)[n] == c.ring[0].key;
      } else {
        var j :| 0 <= j < |c.ring[1..]| && c.ring[1..][j] == fl;
        assert Keys(all)[n + 1 + j] == fl.key && Keys(all)[n] == c.ring[0].key;
      }
    }
  }

  /** Confirms the oldest append and buffers its record. */
  method ConfirmOldest(w: World)
    requires w.Valid() && w.sys.busy && |w.sys.live| <= Window(w.o)
    requires !w.cons.failed && w.cons.ring != []
    requires Held(w.o, w.sys, w.cons) && Buffered(w.sys, w.cons)
    modifies w`run, w`sys, w`cons, w`sum, w.src`main, w.src`folders, w.dst
    ensures w.Valid() && Copying(old(w.sys), w.sys) && w.sys.db == old(w.sys).db
    ensures Buffered(w.sys, w.cons)
    ensures w.cons.failed ==> w.cons == P.Unconfirmed(old(w.cons))
    ensures !w.cons.failed ==>
              && Held(w.o, w.sys, w.cons)
              && w.cons.ring == old(w.cons).ring[1..]
              && w.cons.recorded == old(w.cons).recorded
              && |w.cons.records| == |old(w.cons).records| + 1
              && Keys(w.cons.recorded + w.cons.records + w.cons.ring)
                 == Keys(old(w.cons).recorded + old(w.cons).records + old(w.cons).ring)
              && w.sum == old(w.sum).(copied := old(w.sum).copied + 1, keywordsSet := w.sum.keywordsSet)
    ensures !w.cons.failed ==>
              forall k :: k in old(w.sys).cleared && k != old(w.cons).ring[0].key ==> k in w.sys.cleared
    ensures w.healthy ==> !w.cons.failed
  {
    ghost var a, c := w.sys, w.cons;
    var it := w.cons.ring[0];
    var ok, now, keywordsLanded := AwaitOldest(w, it);
    if !ok {
      w.cons := P.Unconfirmed(w.cons);
      RingApart(c);
      return;
    }
    SettledHeld(w.o, a, w.sys, c, now);
    SettledIs(c, now);
    w.cons := Settled(w.cons, now);
    w.sum := w.sum.(copied := w.sum.copied + 1,
                    keywordsSet := w.sum.keywordsSet + if keywordsLanded then 1 else 0);
  }

  /** Stores a full records buffer. */
  method FlushIfFull(w: World, ghost base: Sys)
    requires w.Valid() && w.sys.busy && !w.cons.failed
    requires Held(w.o, w.sys, w.cons) && Buffered(w.sys, w.cons) && Booked(w.o, base, w.sys, w.cons)
    modifies w`run, w`sys, w`cons, w.dst`open, w.store
    ensures w.Valid() && Copying(old(w.sys), w.sys) && w.sys.cleared == old(w.sys).cleared
    ensures Sure(w.cons) == Sure(old(w.cons))
    ensures Buffered(w.sys, w.cons) && Booked(w.o, base, w.sys, w.cons) && Distinct(Keys(w.cons.records))
    ensures !w.cons.failed ==>
              && Held(w.o, w.sys, w.cons)
              && w.cons.ring == old(w.cons).ring
              && |w.cons.records| < Limit(w).flush
              && Keys(w.cons.recorded + w.cons.records + w.cons.ring)
                 == Keys(old(w.cons).recorded + old(w.cons).records + old(w.cons).ring)
    ensures w.healthy ==> !w.cons.failed
  {
    ghost var a, c := w.sys, w.cons;
    DistinctPrefix(c.records, c.ring);
    if |w.cons.records| >= P.LimitsFor(w.o.destGuard).flush {
      FlushRecords(w, base);
      if !w.cons.failed {
        FlushedHeld(w.o, a, w.sys, c);
        FlushedKeys(c);
      }
    }
  }

  /** Confirms the oldest append; flushes a full buffer. */
  method SettleOldest(w: World, ghost base: Sys)
    requires w.Valid() && w.sys.busy && |w.sys.live| <= Window(w.o)
    requires !w.cons.failed && w.cons.ring != []
    requires Held(w.o, w.sys, w.cons) && Buffered(w.sys, w.cons) && Booked(w.o, base, w.sys, w.cons)
    modifies w`run, w`sys, w`cons, w`sum, w.src`main, w.src`folders, w.dst, w.store
    ensures w.Valid() && Copying(old(w.sys), w.sys)
    ensures Sure(w.cons) <= Handled(old(w.cons))
    ensures Buffered(w.sys, w.cons) && Booked(w.o, base, w.sys, w.cons) && Distinct(Keys(w.cons.records))
    ensures !w.cons.failed ==>
              && Held(w.o, w.sys, w.cons)
              && w.cons.ring == old(w.cons).ring[1..]
              && |w.cons.records| < Limit(w).flush
              && Keys(w.cons.recorded + w.cons.records + w.cons.ring)
                 == Keys(old(w.cons).recorded + old(w.cons).records + old(w.cons).ring)
              && w.sum == old(w.sum).(copied := old(w.sum).copied + 1, keywordsSet := w.sum.keywordsSet)
    ensures !w.cons.failed ==>
              forall k :: k in old(w.sys).cleared && k != old(w.cons).ring[0].key ==> k in w.sys.cleared
    ensures w.healthy ==> !w.cons.failed
  {
    ghost var a, c := w.sys, w.cons;
    DistinctPrefix(w.cons.records, w.cons.ring);
    ConfirmOldest(w);
    BookedStays(w, base, a, c, w.cons);
    if w.cons.failed { return; }
    ghost var b := w.sys;
    FlushIfFull(w, base);
    CopyingTwice(a, b, w.sys);
  }

  lemma DistinctPrefix(records: seq<Flight>, ring: seq<Flight>)
    requires Distinct(Keys(records + ring))
    ensures Distinct(Keys(records)) && Distinct(Keys(ring))
  {
    forall i, j | 0 <= i < j < |records| ensures Keys(records)[i] != Keys(records)[j] {
      assert Keys(records + ring)[i] == Keys(records)[i] && Keys(records + ring)[j] == Keys(records)[j];
    }
    forall i, j | 0 <= i < j < |ring| ensures Keys(ring)[i] != Keys(ring)[j] {
      assert Keys(records + ring)[|records| + i] == Keys(ring)[i];
      assert Keys(records + ring)[|records| + j] == Keys(ring)[j];
    }
  }

  lemma FlushedKeys(c: P.Cons<Flight>)
    ensures var c' := P.Flushed(c);
            Keys(c'.recorded + c'.records + c'.ring) == Keys(c.recorded + c.records + c.ring)
  {
    var c' := P.Flushed(c);
    assert c'.recorded + c'.records + c'.ring == c.recorded + c.records + c.ring;
  }

  lemma IdsApart(o: Opts, a: Sys, c: P.Cons<Flight>)
    requires Held(o, a, c) && Buffered(a, c)
    ensures forall x, y :: x in c.records && y in c.ring ==> x.id != y.id
  {
    RecordsApart(c);
    forall x, y | x in c.records && y in c.ring ensures x.id != y.id && x.key != y.key {
      assert a.live[x.id] == x.key && a.live[y.id] == y.key;
    }
  }

  lemma FlushedRing(o: Opts, a: Sys, b: Sys, c: P.Cons<Flight>, fl: Flight)
    requires Held(o, a, c) && Buffered(a, c) && b.db.members == a.db.members && b.bodies == a.bodies && fl in c.ring
    requires Emptied(a, b, c)
    ensures fl.id in b.live && b.live[fl.id] == fl.key && fl.id !in b.confirmed
    ensures fl.folder == DestFor(o, b.db, fl.key) && fl.key !in b.db.copied && fl.key in b.bodies
  {
    RecordsApart(c);
    IdsApart(o, a, c);
  }

  lemma FlushedHeld(o: Opts, a: Sys, b: Sys, c: P.Cons<Flight>)
    requires Held(o, a, c) && Buffered(a, c) && b.db.members == a.db.members && b.bodies == a.bodies
    requires Emptied(a, b, c)
    ensures Held(o, b, P.Flushed(c)) && Buffered(b, P.Flushed(c))
  {
    var c' := P.Flushed(c);
    assert c'.records + c'.ring == c.ring;
    DistinctPrefix(c.records, c.ring);
    forall fl | fl in c'.ring
      ensures fl.id in b.live && b.live[fl.id] == fl.key && fl.id !in b.confirmed
              && fl.folder == DestFor(o, b.db, fl.key) && fl.key !in b.db.copied && fl.key in b.bodies
    {
      FlushedRing(o, a, b, c, fl);
    }
    FlushedCover(a, b, c);
  }

  lemma FlushedCover(a: Sys, b: Sys, c: P.Cons<Flight>)
    requires b.live == a.live - (set fl | fl in c.records :: fl.id)
    requires forall id :: id in a.live ==> exists fl :: (fl in c.ring || fl in c.records) && fl.id == id
    ensures forall id :: id in b.live ==> exists fl :: (fl in c.ring || fl in P.Flushed(c).records) && fl.id == id
  {
    forall id | id in b.live ensures exists fl :: (fl in c.ring || fl in P.Flushed(c).records) && fl.id == id {
      var fl :| (fl in c.ring || fl in c.records) && fl.id == id;
      assert fl in c.ring;
    }
  }

  /** Records and ring share no key, hence no append either. */
  lemma RecordsApart(c: P.Cons<Flight>)
    requires Distinct(Keys(c.records + c.ring))
    ensures forall x, y :: x in c.records && y in c.ring ==> x.key != y.key
  {
    var all, n := c.records + c.ring, |c.records|;
    forall x, y | x in c.records && y in c.ring ensures x.key != y.key {
      var i :| 0 <= i < n && c.records[i] == x;
      var j :| 0 <= j < |c.ring| && c.ring[j] == y;
      assert Keys(all)[i] == x.key && Keys(all)[n + j] == y.key;
    }
  }

  /** The consumer between two items, before any error. */
  ghost predicate Steady(w: World, base: Sys)
    reads w
  {
    && !w.cons.failed
    && Held(w.o, w.sys, w.cons) && Buffered(w.sys, w.cons) && Booked(w.o, base, w.sys, w.cons)
    && |w.cons.ring| < Limit(w).ring && |w.cons.records| < Limit(w).flush
  }

  function Handled(c: P.Cons<Flight>): seq<Key> { Keys(c.recorded + c.records + c.ring) }

  lemma Fits(o: Opts, s: Sys, c: P.Cons<Flight>)
    requires Held(o, s, c)
    requires |c.ring| < P.LimitsFor(o.destGuard).ring && |c.records| < P.LimitsFor(o.destGuard).flush
    ensures |s.live| <= |c.ring| + |c.records| < Window(o)
  {
    forall id | id in s.live ensures exists fl :: fl in c.ring + c.records && fl.id == id {
      var fl :| (fl in c.ring || fl in c.records) && fl.id == id;
    }
    IdsFewer(s.live, c.ring + c.records);
  }

  /** Issues the append of one item and puts it into the ring. */
  method Begin(w: World, p: Pend, ghost base: Sys)
    requires w.Valid() && w.sys.busy && Steady(w, base)
    requires p.folder == DestFor(w.o, w.sys.db, p.key) && p.key !in w.sys.db.copied && p.key in w.sys.bodies
    requires w.o.destGuard && K.IsRealMessageID(p.key) ==> p.key in w.sys.cleared
    requires p.key !in Keys(w.cons.records + w.cons.ring)
    modifies w`run, w`sys, w`cons, w.src`main, w.src`folders, w.dst
    ensures w.Valid() && Copying(old(w.sys), w.sys) && w.sys.db == old(w.sys).db && w.sys.busy
    ensures Buffered(w.sys, w.cons) && Booked(w.o, base, w.sys, w.cons) && Distinct(Keys(w.cons.records))
    ensures w.cons.records == old(w.cons).records && w.cons.recorded == old(w.cons).recorded
    ensures !w.cons.failed ==> Begun(w, old(w.cons), p.key)
    ensures forall k :: k in old(w.sys).cleared && k != p.key ==> k in w.sys.cleared
    ensures w.healthy && !old(w.cons.failed) ==> !w.cons.failed
  {
    DistinctPrefix(w.cons.records, w.cons.ring);
    var ok, kws := KeywordsFor(w, p.key);
    if ok {
      MayIssue(w, p, kws, base);
      IssueBooked(w, p, kws, base);
    } else {
      w.cons := P.FlushFailed(w.cons);
    }
  }

  method IssueBooked(w: World, p: Pend, kws: set<string>, ghost base: Sys)
    requires w.Valid() && IssueOk(w.o, w.sys, w.dst.nextId, p.key, p.folder, kws) && Steady(w, base)
    requires p.key !in Keys(w.cons.records + w.cons.ring) && Distinct(Keys(w.cons.records))
    modifies w`run, w`sys, w`cons, w.src`main, w.src`folders, w.dst
    ensures w.Valid() && Copying(old(w.sys), w.sys) && w.sys.db == old(w.sys).db
    ensures Buffered(w.sys, w.cons) && Booked(w.o, base, w.sys, w.cons)
    ensures w.cons.records == old(w.cons).records && w.cons.recorded == old(w.cons).recorded
    ensures !w.cons.failed ==> Begun(w, old(w.cons), p.key)
    ensures forall k :: k in old(w.sys).cleared && k != p.key ==> k in w.sys.cleared
    ensures w.healthy && !old(w.cons.failed) ==> !w.cons.failed
  {
    ghost var a, c := w.sys, w.cons;
    Issue(w, p, kws);
    BookedStays(w, base, a, c, w.cons);
  }

  /** The append of key is in the ring. */
  ghost predicate Begun(w: World, c: P.Cons<Flight>, key: Key)
    reads w
  {
    && Held(w.o, w.sys, w.cons)
    && |w.cons.ring| == |c.ring| + 1 && |w.sys.live| <= Window(w.o)
    && Handled(w.cons) == Handled(c) + [key]
  }

  lemma MayIssue(w: World, p: Pend, kws: set<string>, base: Sys)
    requires w.Valid() && w.sys.busy && Steady(w, base) && kws == KeywordsOf(w.o, w.sys.db, p.key)
    requires p.folder == DestFor(w.o, w.sys.db, p.key) && p.key !in w.sys.db.copied && p.key in w.sys.bodies
    requires w.o.destGuard && K.IsRealMessageID(p.key) ==> p.key in w.sys.cleared
    requires p.key !in Keys(w.cons.records + w.cons.ring)
    ensures IssueOk(w.o, w.sys, w.dst.nextId, p.key, p.folder, kws)
  {
    Fits(w.o, w.sys, w.cons);
    NotOpen(w.o, w.sys, w.cons, p.key);
  }

  /** The keys of open appends are those in the ring and the buffer. */
  lemma NotOpen(o: Opts, s: Sys, c: P.Cons<Flight>, key: Key)
    requires Held(o, s, c) && Buffered(s, c) && key !in Keys(c.records + c.ring)
    ensures key !in s.live.Values
  {
    forall id | id in s.live ensures s.live[id] != key {
      var fl :| (fl in c.ring || fl in c.records) && fl.id == id;
      assert fl in c.records + c.ring;
      var j :| 0 <= j < |c.records + c.ring| && (c.records + c.ring)[j] == fl;
      assert Keys(c.records + c.ring)[j] == fl.key;
    }
  }

  method Issue(w: World, p: Pend, kws: set<string>)
    requires w.Valid() && IssueOk(w.o, w.sys, w.dst.nextId, p.key, p.folder, kws)
    requires Held(w.o, w.sys, w.cons) && Buffered(w.sys, w.cons)
    requires |w.cons.ring| < Limit(w).ring && |w.cons.records| < Limit(w).flush
    requires p.key !in Keys(w.cons.records + w.cons.ring) && Distinct(Keys(w.cons.records))
    modifies w`run, w`sys, w`cons, w.src`main, w.src`folders, w.dst
    ensures w.Valid() && Copying(old(w.sys), w.sys) && w.sys.db == old(w.sys).db
    ensures Buffered(w.sys, w.cons)
    ensures w.cons.records == old(w.cons).records && w.cons.recorded == old(w.cons).recorded
    ensures !w.cons.failed ==> Begun(w, old(w.cons), p.key)
    ensures forall k :: k in old(w.sys).cleared && k != p.key ==> k in w.sys.cleared
    ensures w.healthy && !old(w.cons.failed) ==> !w.cons.failed
  {
    ghost var a, c := w.sys, w.cons;
    var ok, id := w.BeginAppend(p.key, p.folder, kws);
    var fl := Flight(id, p.uid, p.key, p.folder, kws != {});
    StillBuffered(a, w.sys, c, fl);
    w.cons := if ok then P.Begun(w.cons, fl) else P.BeginFailed(w.cons, fl);
    if ok { BegunHeld(w.o, a, w.sys, c, fl); }
  }

  lemma StillBuffered(a: Sys, b: Sys, c: P.Cons<Flight>, fl: Flight)
    requires Buffered(a, c) && b.confirmed == a.confirmed && fl.id !in a.confirmed
    requires b.live == a.live || b.live == a.live[fl.id := fl.key]
    ensures Buffered(b, P.Begun(c, fl)) && Buffered(b, P.BeginFailed(c, fl))
  {
  }

  lemma BegunKeys(c: P.Cons<Flight>, fl: Flight)
    requires fl.key !in Keys(c.records + c.ring) && Distinct(Keys(c.records + c.ring))
    ensures Distinct(Keys(P.Begun(c, fl).records + P.Begun(c, fl).ring))
    ensures Handled(P.Begun(c, fl)) == Handled(c) + [fl.key]
  {
    var c', old_keys := P.Begun(c, fl), Keys(c.records + c.ring);
    assert c'.records + c'.ring == (c.records + c.ring) + [fl];
    assert Keys(c'.records + c'.ring) == old_keys + [fl.key];
    assert c'.recorded + c'.records + c'.ring == (c.recorded + c.records + c.ring) + [fl];
    forall i | 0 <= i < |old_keys| ensures old_keys[i] != fl.key {
      assert old_keys[i] in old_keys;
    }
  }

  lemma BegunCover(a: Sys, b: Sys, c: P.Cons<Flight>, fl: Flight)
    requires b.live == a.live[fl.id := fl.key]
    requires forall id :: id in a.live ==> exists x :: (x in c.ring || x in c.records) && x.id == id
    ensures forall id :: id in b.live ==>
              exists x :: (x in P.Begun(c, fl).ring || x in P.Begun(c, fl).records) && x.id == id
  {
    var c' := P.Begun(c, fl);
    forall id | id in b.live ensures exists x :: (x in c'.ring || x in c'.records) && x.id == id {
      if id == fl.id {
        assert fl in c'.ring;
      } else {
        var x :| (x in c.ring || x in c.records) && x.id == id;
        assert x in c'.ring || x in c'.records;
      }
    }
  }

  lemma BegunHeld(o: Opts, a: Sys, b: Sys, c: P.Cons<Flight>, fl: Flight)
    requires Held(o, a, c) && fl.key !in Keys(c.records + c.ring)
    requires |c.ring| < P.LimitsFor(o.destGuard).ring && |c.records| < P.LimitsFor(o.destGuard).flush
    requires b.db == a.db && b.bodies == a.bodies && b.live == a.live[fl.id := fl.key] && b.confirmed == a.confirmed
    requires fl.id !in a.live && fl.id !in a.confirmed
    requires fl.folder == DestFor(o, a.db, fl.key) && fl.key !in a.db.copied && fl.key in a.bodies
    ensures Held(o, b, P.Begun(c, fl)) && |b.live| <= Window(o)
    ensures Handled(P.Begun(c, fl)) == Handled(c) + [fl.key]
  {
    BegunKeys(c, fl);
    BegunCover(a, b, c, fl);
    BegunRing(o, a, b, c, fl);
    Fits(o, a, c);
    assert b.live.Keys == a.live.Keys + {fl.id};
  }

  lemma BegunRing(o: Opts, a: Sys, b: Sys, c: P.Cons<Flight>, fl: Flight)
    requires Held(o, a, c) && b.db == a.db && b.bodies == a.bodies && b.confirmed == a.confirmed
    requires b.live == a.live[fl.id := fl.key] && fl.id !in a.live && fl.id !in a.confirmed
    requires fl.folder == DestFor(o, a.db, fl.key) && fl.key !in a.db.copied && fl.key in a.bodies
    ensures forall x :: x in P.Begun(c, fl).ring ==>
              && x.id in b.live && b.live[x.id] == x.key && x.id !in b.confirmed
              && x.folder == DestFor(o, b.db, x.key) && x.key !in b.db.copied && x.key in b.bodies
  {
  }

  /** One turn of the consumer's loop. */
  method Handle(w: World, p: Pend, ghost base: Sys)
    requires w.Valid() && w.sys.busy && Steady(w, base)
    requires p.folder == DestFor(w.o, w.sys.db, p.key) && p.key !in w.sys.db.copied && p.key in w.sys.bodies
    requires w.o.destGuard && K.IsRealMessageID(p.key) ==> p.key in w.sys.cleared
    requires p.key !in Keys(w.cons.records + w.cons.ring)
    modifies w`run, w`sys, w`cons, w`sum, w.src`main, w.src`folders, w.dst, w.store
    ensures w.Valid() && Copying(old(w.sys), w.sys) && w.sys.busy
    ensures Buffered(w.sys, w.cons) && Booked(w.o, base, w.sys, w.cons) && Distinct(Keys(w.cons.records))
    ensures Sure(w.cons) <= Handled(old(w.cons)) + [p.key]
    ensures !w.cons.failed ==> Steady(w, base) && Handled(w.cons) == Handled(old(w.cons)) + [p.key]
    ensures !w.cons.failed ==>
              forall k :: k in old(w.sys).cleared && k !in Handled(w.cons) ==> k in w.sys.cleared
    ensures Counted(old(w.sum), old(w.cons), w.sum, w.cons)
    ensures w.healthy && !old(w.cons.failed) ==> !w.cons.failed
  {
    ghost var a := w.sys;
    Begin(w, p, base);
    if w.cons.failed { return; }
    ghost var b, c := w.sys, w.cons;
    InHandled(c);
    assert p.key in Handled(c);
    SettleIfFull(w, base);
    CopyingTwice(a, b, w.sys);
  }

  /** Keeps the ring below its limit. */
  method SettleIfFull(w: World, ghost base: Sys)
    requires w.Valid() && w.sys.busy && |w.sys.live| <= Window(w.o)
    requires !w.cons.failed && |w.cons.ring| <= Limit(w).ring && |w.cons.records| < Limit(w).flush
    requires Held(w.o, w.sys, w.cons) && Buffered(w.sys, w.cons) && Booked(w.o, base, w.sys, w.cons)
    requires Distinct(Keys(w.cons.records))
    modifies w`run, w`sys, w`cons, w`sum, w.src`main, w.src`folders, w.dst, w.store
    ensures w.Valid() && Copying(old(w.sys), w.sys) && w.sys.busy
    ensures Buffered(w.sys, w.cons) && Booked(w.o, base, w.sys, w.cons) && Distinct(Keys(w.cons.records))
    ensures Sure(w.cons) <= Handled(old(w.cons))
    ensures !w.cons.failed ==> Steady(w, base) && Handled(w.cons) == Handled(old(w.cons))
    ensures !w.cons.failed ==>
              forall k :: k in old(w.sys).cleared && k !in Handled(w.cons) ==> k in w.sys.cleared
    ensures Counted(old(w.sum), old(w.cons), w.sum, w.cons)
    ensures w.healthy ==> !w.cons.failed
  {
    ghost var c := w.cons;
    if |w.cons.ring| >= P.LimitsFor(w.o.destGuard).ring {
      InHandled(c);
      SettleOldest(w, base);
      if !w.cons.failed {
        assert |Handled(w.cons)| == |Handled(c)|;
      }
    }
  }

  lemma InHandled(c: P.Cons<Flight>)
    ensures forall fl :: fl in c.ring ==> fl.key in Handled(c)
  {
    forall fl | fl in c.ring ensures fl.key in Handled(c) {
      var i :| 0 <= i < |c.ring| && c.ring[i] == fl;
      assert Handled(c)[|c.recorded + c.records| + i] == fl.key;
    }
  }

  /** The summary counts exactly the confirmed appends. */
  ghost predicate Counted(sum: Summary, c: P.Cons<Flight>, sum': Summary, c': P.Cons<Flight>) {
    !c'.failed ==>
      && sum'.copied + |c.recorded + c.records| == sum.copied + |c'.recorded + c'.records|
      && sum' == sum.(copied := sum'.copied, keywordsSet := sum'.keywordsSet)
  }

  function ItemKeys(items: seq<Pend>): seq<Key> {
    seq(|items|, i requires 0 <= i < |items| => items[i].key)
  }

  /** Distinct, unrecorded, routed, and cleared where the guard can. */
  ghost predicate Fit(o: Opts, s: Sys, items: seq<Pend>) {
    && Distinct(ItemKeys(items))
    && forall p :: p in items ==>
         && p.folder == DestFor(o, s.db, p.key) && p.key !in s.db.copied
         && (o.destGuard && K.IsRealMessageID(p.key) ==> p.key in s.cleared)
  }

  predicate Ascending(pend: seq<Pend>) {
    forall i, j :: 0 <= i < |pend| && 0 <= j < |pend| && i < j ==> pend[i].uid < pend[j].uid
  }

  /** Candidates whose bodies may be asked for. */
  ghost predicate Screened(o: Opts, s: Sys, pend: seq<Pend>) {
    && Fit(o, s, pend)
    && Ascending(pend)
    && (forall p :: p in pend ==> MessageIs(s, p.uid, p.key))
  }

  /** Candidates whose bodies the stream delivers. */
  ghost predicate Ready(o: Opts, s: Sys, items: seq<Pend>) {
    Fit(o, s, items) && forall p :: p in items ==> p.key in s.bodies
  }

  /** The keys handled so far are those of the first items, so the next one is new. */
  lemma NextIsNew(items: seq<Pend>, i: nat, c: P.Cons<Flight>)
    requires i < |items| && Distinct(ItemKeys(items)) && Handled(c) == ItemKeys(items[..i])
    ensures forall j :: i <= j < |items| ==> items[j].key !in Handled(c)
    ensures forall j :: i <= j < |items| ==> items[j].key !in Keys(c.records + c.ring)
    ensures forall j, fl :: i <= j < |items| && fl in c.recorded ==> fl.key != items[j].key
  {
    forall j | i <= j < |items| ensures items[j].key !in Handled(c) {
      forall n | 0 <= n < |Handled(c)| ensures Handled(c)[n] != items[j].key {
        assert ItemKeys(items)[n] == ItemKeys(items[..i])[n] && ItemKeys(items)[j] == items[j].key;
      }
    }
    forall n | 0 <= n < |Keys(c.records + c.ring)| ensures Keys(c.records + c.ring)[n] in Handled(c) {
      assert Handled(c)[|c.recorded| + n] == Keys(c.records + c.ring)[n];
    }
    forall fl | fl in c.recorded ensures fl.key in Handled(c) {
      var n :| 0 <= n < |c.recorded| && c.recorded[n] == fl;
      assert Handled(c)[n] == fl.key;
    }
  }

  /** What the consumer has achieved after i items, unless it has failed. */
  ghost predicate Reached(w: World, base: Sys, items: seq<Pend>, i: nat, sum: Summary)
    requires i <= |items|
    reads w
  {
    && Steady(w, base) && Handled(w.cons) == ItemKeys(items[..i])
    && Counted(sum, P.Idle(), w.sum, w.cons)
    && forall j :: i <= j < |items| && w.o.destGuard && K.IsRealMessageID(items[j].key) ==>
         items[j].key in w.sys.cleared
  }

  lemma NextIsFree(o: Opts, base: Sys, s: Sys, c: P.Cons<Flight>, items: seq<Pend>, i: nat)
    requires i < |items| && Distinct(ItemKeys(items)) && Handled(c) == ItemKeys(items[..i]) && Booked(o, base, s, c)
    requires items[i].key !in base.db.copied
    ensures items[i].key !in s.db.copied
  {
    NextIsNew(items, i, c);
    BookedIs(o, base, s, c);
  }

  lemma FirstItems(items: seq<Pend>, i: nat, keys: seq<Key>)
    requires i < |items| && keys <= ItemKeys(items[..i]) + [items[i].key]
    ensures ItemKeys(items[..i]) + [items[i].key] == ItemKeys(items[..i + 1])
    ensures keys <= ItemKeys(items)
  {
    assert ItemKeys(items)[..i + 1] == ItemKeys(items[..i + 1]);
  }

  method HandleItem(w: World, items: seq<Pend>, i: nat, ghost base: Sys, ghost sum: Summary)
    requires w.Valid() && w.sys.busy && i < |items| && Copying(base, w.sys)
    requires Ready(w.o, base, items)
    requires Reached(w, base, items, i, sum)
    modifies w`run, w`sys, w`cons, w`sum, w.src`main, w.src`folders, w.dst, w.store
    ensures w.Valid() && Copying(base, w.sys) && w.sys.busy
    ensures Buffered(w.sys, w.cons) && Booked(w.o, base, w.sys, w.cons) && Distinct(Keys(w.cons.records))
    ensures Sure(w.cons) <= ItemKeys(items)
    ensures !w.cons.failed ==> Reached(w, base, items, i + 1, sum)
    ensures w.healthy && !old(w.cons.failed) ==> !w.cons.failed
  {
    ghost var a, c := w.sys, w.cons;
    var p := items[i];
    NextIsNew(items, i, w.cons);
    assert p in items && p.folder == DestFor(w.o, base.db, p.key);
    NextIsFree(w.o, base, w.sys, w.cons, items, i);
    Handle(w, p, base);
    CopyingTwice(base, a, w.sys);
    FirstItems(items, i, Sure(w.cons));
    if !w.cons.failed && i + 1 < |items| { NextIsNew(items, i + 1, w.cons); }
  }

  /** The consumer goroutine over the bodies that were sent: appends, records, and flushes
      what was confirmed whatever happens. */
  method Consume(w: World, items: seq<Pend>)
    requires w.Valid() && w.sys.busy && w.sys.live == map[] && w.cons == P.Idle()
    requires Ready(w.o, w.sys, items)
    modifies w`run, w`sys, w`cons, w`sum, w.src`main, w.src`folders, w.dst, w.store
    ensures w.Valid() && Copying(old(w.sys), w.sys) && w.sys.busy
    ensures Booked(w.o, old(w.sys), w.sys, w.cons)
    ensures Keys(w.cons.recorded) <= ItemKeys(items)
    ensures !w.cons.failed ==>
              && w.sys.live == map[]
              && Keys(w.cons.recorded) == ItemKeys(items)
              && w.sum == old(w.sum).(copied := old(w.sum).copied + |items|, keywordsSet := w.sum.keywordsSet)
    ensures w.healthy && !old(w.cons.failed) ==> !w.cons.failed
  {
    ghost var base, sum := w.sys, w.sum;
    for i := 0 to |items|
      invariant w.Valid() && Copying(base, w.sys) && w.sys.busy
      invariant Buffered(w.sys, w.cons) && Booked(w.o, base, w.sys, w.cons) && Distinct(Keys(w.cons.records))
      invariant Sure(w.cons) <= ItemKeys(items)
      invariant !w.cons.failed ==> Reached(w, base, items, i, sum)
      invariant w.healthy ==> !w.cons.failed
    {
      if w.cons.failed { continue; }
      HandleItem(w, items, i, base, sum);
    }
    assert items[..|items|] == items;
    Drain(w, items, base, sum);
    FinalFlush(w, items, base, sum);
  }

  /** Settles what is left in the ring once the channel is closed. */
  method Drain(w: World, items: seq<Pend>, ghost base: Sys, ghost sum: Summary)
    requires w.Valid() && w.sys.busy && Copying(base, w.sys)
    requires Buffered(w.sys, w.cons) && Booked(w.o, base, w.sys, w.cons) && Distinct(Keys(w.cons.records))
    requires Sure(w.cons) <= ItemKeys(items)
    requires !w.cons.failed ==> Reached(w, base, items, |items|, sum) && items[..|items|] == items
    modifies w`run, w`sys, w`cons, w`sum, w.src`main, w.src`folders, w.dst, w.store
    ensures w.Valid() && Copying(base, w.sys) && w.sys.busy
    ensures Buffered(w.sys, w.cons) && Booked(w.o, base, w.sys, w.cons) && Distinct(Keys(w.cons.records))
    ensures Sure(w.cons) <= ItemKeys(items)
    ensures !w.cons.failed ==> Reached(w, base, items, |items|, sum) && w.cons.ring == []
    ensures w.healthy && !old(w.cons.failed) ==> !w.cons.failed
  {
    while !w.cons.failed && |w.cons.ring| > 0
      invariant w.Valid() && Copying(base, w.sys) && w.sys.busy
      invariant Buffered(w.sys, w.cons) && Booked(w.o, base, w.sys, w.cons) && Distinct(Keys(w.cons.records))
      invariant Sure(w.cons) <= ItemKeys(items)
      invariant !w.cons.failed ==> Reached(w, base, items, |items|, sum)
      invariant w.healthy && !old(w.cons.failed) ==> !w.cons.failed
      decreases |w.cons.ring|, !w.cons.failed
    {
      ghost var a, c := w.sys, w.cons;
      Fits(w.o, w.sys, w.cons);
      SettleOldest(w, base);
      CopyingTwice(base, a, w.sys);
      if w.cons.failed { return; }
      assert |Handled(w.cons)| == |Handled(c)|;
    }
  }

  method FinalFlush(w: World, items: seq<Pend>, ghost base: Sys, ghost sum: Summary)
    requires w.Valid() && w.sys.busy && Copying(base, w.sys)
    requires Buffered(w.sys, w.cons) && Booked(w.o, base, w.sys, w.cons) && Distinct(Keys(w.cons.records))
    requires items[..|items|] == items && Sure(w.cons) <= ItemKeys(items)
    requires !w.cons.failed ==> Reached(w, base, items, |items|, sum) && w.cons.ring == []
    modifies w`run, w`sys, w`cons, w.dst`open, w.store
    ensures w.Valid() && Copying(base, w.sys) && w.sys.busy && Booked(w.o, base, w.sys, w.cons)
    ensures Keys(w.cons.recorded) <= ItemKeys(items)
    ensures !w.cons.failed ==>
              && w.sys.live == map[]
              && Keys(w.cons.recorded) == ItemKeys(items)
              && w.sum == sum.(copied := sum.copied + |items|, keywordsSet := w.sum.keywordsSet)
    ensures w.healthy && !old(w.cons.failed) ==> !w.cons.failed
  {
    ghost var a, c := w.sys, w.cons;
    FlushRecords(w, base);
    CopyingTwice(base, a, w.sys);
    RecordedFirst(c, w.cons, items);
    if !w.cons.failed {
      FlushedHeld(w.o, a, w.sys, c);
      FlushedKeys(c);
      assert w.cons.recorded + w.cons.records + w.cons.ring == w.cons.recorded;
      assert w.sys.live.Keys == {};
      assert |Handled(w.cons)| == |items|;
    }
  }

  lemma RecordedFirst(c: P.Cons<Flight>, c': P.Cons<Flight>, items: seq<Pend>)
    requires Sure(c) <= ItemKeys(items) && (c' == P.Flushed(c) || c' == P.FlushFailed(c))
    ensures Keys(c'.recorded) <= ItemKeys(items)
  {
    assert Keys(c'.recorded) == Sure(c)[..|c'.recorded|];
  }

  // ----------------------------------------------------------- copy pipeline

  /** Those of the candidates whose bodies fetch n delivers. */
  function Sent(w: World, n: nat, pend: seq<Pend>): seq<Pend> {
    if pend == [] then []
    else
      var p := pend[|pend| - 1];
      Sent(w, n, pend[..|pend| - 1]) + if w.src.delivers(n, p.uid) then [p] else []
  }

  /** The keys of the others. */
  function Lost(w: World, n: nat, pend: seq<Pend>): set<Key> {
    set p | p in pend && !w.src.delivers(n, p.uid) :: p.key
  }

  function Asked(pend: seq<Pend>): map<nat, Key>
    requires Ascending(pend)
  {
    map i | 0 <= i < |pend| :: pend[i].uid := pend[i].key
  }

  lemma {:induction false} SentAre(w: World, n: nat, pend: seq<Pend>)
    requires Distinct(ItemKeys(pend))
    ensures forall p :: p in Sent(w, n, pend) <==> p in pend && w.src.delivers(n, p.uid)
    ensures Distinct(Sent(w, n, pend))
  {
    if pend != [] {
      var init, last := pend[..|pend| - 1], pend[|pend| - 1];
      assert pend == init + [last];
      assert forall i :: 0 <= i < |init| ==> ItemKeys(init)[i] == ItemKeys(pend)[i];
      SentAre(w, n, init);
      forall p | p in init ensures p != last {
        var i :| 0 <= i < |init| && init[i] == p;
        assert ItemKeys(pend)[i] != ItemKeys(pend)[|pend| - 1];
      }
    }
  }

  /** What is asked for, and how the answer reads in terms of candidates. */
  lemma AskedAre(w: World, n: nat, pend: seq<Pend>, came: set<nat>)
    requires Ascending(pend)
    ensures forall p :: p in pend ==> p.uid in Asked(pend) && Asked(pend)[p.uid] == p.key
    ensures forall u :: u in Asked(pend) ==> exists p :: p in pend && p.uid == u && p.key == Asked(pend)[u]
    ensures KeysAt(Asked(pend), Asked(pend).Keys - w.Delivered(n, Asked(pend).Keys)) == Lost(w, n, pend)
    ensures forall p :: p in pend && p.uid in came ==> p.key in KeysAt(Asked(pend), came)
  {
    var asked := Asked(pend);
    forall p | p in pend ensures p.uid in asked && asked[p.uid] == p.key {
      var i :| 0 <= i < |pend| && pend[i] == p;
      assert pend[i].uid in asked;
    }
    forall u | u in asked ensures exists p :: p in pend && p.uid == u && p.key == asked[u] {
      AskedOne(pend, u);
    }
  }

  lemma MayAsk(o: Opts, s: Sys, pend: seq<Pend>)
    requires s.busy && s.live == map[] && Screened(o, s, pend)
    ensures StreamOk(o, s, Asked(pend), {})
  {
    AskedApart(pend);
    forall u | u in Asked(pend)
      ensures MessageIs(s, u, Asked(pend)[u]) && Asked(pend)[u] !in s.db.copied
      ensures o.destGuard && K.IsRealMessageID(Asked(pend)[u]) ==> Asked(pend)[u] in s.cleared
    {
      AskedOne(pend, u);
    }
  }

  lemma AskedOne(pend: seq<Pend>, u: nat)
    requires Ascending(pend) && u in Asked(pend)
    ensures exists p :: p in pend && p.uid == u && p.key == Asked(pend)[u]
  {
    var i :| 0 <= i < |pend| && pend[i].uid == u;
    assert pend[i] in pend;
  }

  lemma AskedApart(pend: seq<Pend>)
    requires Distinct(ItemKeys(pend)) && Ascending(pend)
    ensures forall u, v :: u in Asked(pend) && v in Asked(pend) && Asked(pend)[u] == Asked(pend)[v] ==> u == v
  {
    var asked := Asked(pend);
    forall u, v | u in asked && v in asked && asked[u] == asked[v] ensures u == v {
      var i :| 0 <= i < |pend| && pend[i].uid == u;
      var j :| 0 <= j < |pend| && pend[j].uid == v;
      assert ItemKeys(pend)[i] == asked[u] && ItemKeys(pend)[j] == asked[v];
    }
  }

  /** Streams the bodies of the candidates, in whatever order the server sends them. */
  method StreamBodies(w: World, pend: seq<Pend>) returns (complete: bool, items: seq<Pend>)
    requires w.Valid() && w.sys.busy && w.sys.live == map[] && Screened(w.o, w.sys, pend)
    modifies w`run, w`sys, w.src`main, w.src`folders, w.src`asked, w.dst`apps
    ensures w.Valid() && w.src.asked == old(w.src.asked) + [Asked(pend)]
    ensures Fetched(old(w.sys), w.sys) && w.sys.live == map[] && w.sys.db == old(w.sys).db
    ensures Ready(w.o, w.sys, items) && Distinct(items)
    ensures forall p :: p in items ==> p in Sent(w, |old(w.src.asked)|, pend)
    ensures complete ==> forall p :: p in Sent(w, |old(w.src.asked)|, pend) ==> p in items
    ensures w.sys.blank == old(w.sys).blank + if complete then Lost(w, |old(w.src.asked)|, pend) else {}
    ensures w.healthy ==> complete
  {
    ghost var n := |w.src.asked|;
    MayAsk(w.o, w.sys, pend);
    var came;
    complete, came := w.FetchBodies(Asked(pend));
    AskedAre(w, n, pend, came);
    SentAre(w, n, pend);
    items := *;
    if !(Shuffled(items, pend, came)) {
      items := Picked(pend, came);
      PickedShuffled(pend, came);
    }
    SomeFit(w.o, w.sys, pend, items);
  }

  /** items are the candidates with these UIDs, in some order. */
  predicate Shuffled(items: seq<Pend>, pend: seq<Pend>, came: set<nat>) {
    && (forall i, j :: 0 <= i < |items| && 0 <= j < |items| && i < j ==> items[i] != items[j])
    && (forall p :: p in items ==> p in pend && p.uid in came)
    && (forall p :: p in pend ==> p.uid in came ==> p in items)
  }

  function Picked(pend: seq<Pend>, came: set<nat>): seq<Pend> {
    if pend == [] then []
    else Picked(pend[..|pend| - 1], came) + if pend[|pend| - 1].uid in came then [pend[|pend| - 1]] else []
  }

  lemma {:induction false} PickedShuffled(pend: seq<Pend>, came: set<nat>)
    requires Ascending(pend)
    ensures Shuffled(Picked(pend, came), pend, came)
  {
    if pend != [] {
      var init, last := pend[..|pend| - 1], pend[|pend| - 1];
      assert pend == init + [last];
      PickedShuffled(init, came);
      forall p | p in init ensures p != last {
        var i :| 0 <= i < |init| && init[i] == p;
        assert pend[i].uid < pend[|pend| - 1].uid;
      }
    }
  }

  lemma SomeFit(o: Opts, s: Sys, pend: seq<Pend>, items: seq<Pend>)
    requires Fit(o, s, pend) && (forall p :: p in items ==> p in pend) && Distinct(items)
    ensures Fit(o, s, items)
  {
    forall i, j | 0 <= i < j < |items| ensures ItemKeys(items)[i] != ItemKeys(items)[j] {
      assert items[i] in items && items[j] in items;
      var m :| 0 <= m < |pend| && pend[m] == items[i];
      var n :| 0 <= n < |pend| && pend[n] == items[j];
      assert ItemKeys(pend)[m] == items[i].key && ItemKeys(pend)[n] == items[j].key;
      assert m < n || n < m;
    }
  }

  lemma {:induction false} SameElements<T>(a: seq<T>, b: seq<T>)
    requires Distinct(a) && Distinct(b) && (forall x :: x in a ==> x in b) && (forall x :: x in b ==> x in a)
    ensures |a| == |b|
  {
    SetSize(a);
    SetSize(b);
    assert (set x | x in a) == (set x | x in b);
  }

  lemma {:induction false} SetSize<T>(s: seq<T>)
    requires Distinct(s)
    ensures |set x | x in s| == |s|
  {
    if s != [] {
      var init, last := s[..|s| - 1], s[|s| - 1];
      SetSize(init);
      assert s == init + [last];
      assert (set x | x in s) == (set x | x in init) + {last};
      assert last !in init;
    }
  }

  /** What a copied window leaves: the candidates whose bodies were delivered are recorded and
      tracked, the others are blank. */
  ghost predicate Copied(w: World, n: nat, a: Sys, s: Sys, kept: seq<Pend>) {
    && s.blank == a.blank + Lost(w, n, kept)
    && (forall p :: p in kept ==> (p.key in s.db.copied <==> w.src.delivers(n, p.uid)))
    && s.db.copied.Keys <= a.db.copied.Keys + KeysIn(kept)
    && (forall p :: p in kept && p.key in s.db.copied ==> p.key in AppKeys(a.apps) || Noted(w.o, s, p.key))
  }

  /** Copies one window's candidates. On success those whose bodies the stream delivered are
      recorded, counted and tracked, and no other one. */
  method CopyPipeline(w: World, pend: seq<Pend>) returns (ok: bool)
    requires w.Valid() && w.sys.busy && w.sys.live == map[] && Screened(w.o, w.sys, pend)
    modifies w`run, w`sys, w`cons, w`sum, w.src`main, w.src`folders, w.src`asked, w.dst, w.store
    ensures w.Valid() && Fetched(old(w.sys), w.sys) && w.sys.busy && w.src.asked == old(w.src.asked) + [Asked(pend)]
    ensures w.sys.blank <= old(w.sys).blank + Lost(w, |old(w.src.asked)|, pend)
    ensures ok ==> w.sys.live == map[] && Copied(w, |old(w.src.asked)|, old(w.sys), w.sys, pend)
    ensures ok ==>
              w.sum == old(w.sum).(copied := old(w.sum).copied + |Sent(w, |old(w.src.asked)|, pend)|,
                                   keywordsSet := w.sum.keywordsSet)
    ensures w.healthy ==> ok
  {
    ghost var n, a := |w.src.asked|, w.sys;
    w.cons := P.Idle();
    var streamed, items := StreamBodies(w, pend);
    ok := CopyBodies(w, items, streamed, pend, n, a);
  }

  /** Appends and records the bodies that came; w.cons has been reset. */
  method CopyBodies(w: World, items: seq<Pend>, streamed: bool, ghost pend: seq<Pend>, ghost n: nat, ghost a: Sys)
    returns (ok: bool)
    requires w.Valid() && w.sys.busy && w.sys.live == map[] && w.cons == P.Idle() && Screened(w.o, a, pend)
    requires Fetched(a, w.sys) && w.sys.db == a.db && Ready(w.o, w.sys, items) && Distinct(items)
    requires forall p :: p in items ==> p in Sent(w, n, pend)
    requires streamed ==> forall p :: p in Sent(w, n, pend) ==> p in items
    requires w.sys.blank == a.blank + if streamed then Lost(w, n, pend) else {}
    modifies w`run, w`sys, w`cons, w`sum, w.src`main, w.src`folders, w.dst, w.store
    ensures w.Valid() && Fetched(a, w.sys) && w.sys.busy && w.sys.blank == old(w.sys).blank
    ensures ok ==> w.sys.live == map[] && Copied(w, n, a, w.sys, pend)
    ensures ok ==>
              w.sum == old(w.sum).(copied := old(w.sum).copied + |Sent(w, n, pend)|, keywordsSet := w.sum.keywordsSet)
    ensures w.healthy && streamed ==> ok
  {
    ghost var b := w.sys;
    Consume(w, items);
    CopyingFetches(a, b, w.sys);
    ok :| w.healthy ==> ok;
    ok := ok && streamed && !w.cons.failed;
    if ok { AllSent(w, a, b, pend, items, n); }
  }

  /** The items that came are the candidates delivered, and all of them have been recorded. */
  lemma AllSent(w: World, a: Sys, b: Sys, pend: seq<Pend>, items: seq<Pend>, n: nat)
    requires Screened(w.o, a, pend) && Distinct(items) && Keys(w.cons.recorded) == ItemKeys(items)
    requires (forall p :: p in items ==> p in Sent(w, n, pend)) && (forall p :: p in Sent(w, n, pend) ==> p in items)
    requires Booked(w.o, b, w.sys, w.cons) && w.sys.blank == a.blank + Lost(w, n, pend)
    requires Fetched(a, b) && b.live == map[] && b.db == a.db
    ensures Copied(w, n, a, w.sys, pend) && |items| == |Sent(w, n, pend)|
  {
    SentAre(w, n, pend);
    SameElements(items, Sent(w, n, pend));
    NoMoreKeys(a, b);
    BookedIs(w.o, b, w.sys, w.cons);
    RecordedItems(w, a, b, pend, items, n);
  }

  /** While no append is open, no new copies appear. */
  lemma NoMoreKeys(a: Sys, b: Sys)
    requires Fetched(a, b) && b.live == map[] && b.db == a.db
    ensures AppKeys(b.apps) <= AppKeys(a.apps)
  {
    forall i | i in b.apps ensures b.apps[i].key in AppKeys(a.apps) {
      assert i in a.apps && a.apps[i].key == b.apps[i].key;
    }
  }

  function KeysIn(pend: seq<Pend>): set<Key> { set p | p in pend :: p.key }

  lemma CopyingFetches(a: Sys, b: Sys, c: Sys)
    requires Fetched(a, b) && Copying(b, c)
    ensures Fetched(a, c)
  {
  }

  /** The keys recorded are those of the items, which are the candidates delivered. */
  lemma RecordedItems(w: World, a: Sys, b: Sys, pend: seq<Pend>, items: seq<Pend>, n: nat)
    requires Screened(w.o, a, pend) && Keys(w.cons.recorded) == ItemKeys(items)
    requires forall p :: p in items <==> p in pend && w.src.delivers(n, p.uid)
    requires Account(w.o, b, w.sys, w.cons) && b.db == a.db && AppKeys(b.apps) <= AppKeys(a.apps)
    ensures forall p :: p in pend ==> (p.key in w.sys.db.copied <==> w.src.delivers(n, p.uid))
    ensures forall p :: p in pend && p.key in w.sys.db.copied ==> p.key in AppKeys(a.apps) || Noted(w.o, w.sys, p.key)
    ensures w.sys.db.copied.Keys <= a.db.copied.Keys + KeysIn(pend)
  {
    var recorded := w.cons.recorded;
    forall p | p in items ensures exists fl :: fl in recorded && fl.key == p.key {
      RecordedItem(recorded, items, p);
    }
    forall fl | fl in recorded ensures exists p :: p in items && p.key == fl.key {
      var i :| 0 <= i < |recorded| && recorded[i] == fl;
      assert Keys(recorded)[i] == ItemKeys(items)[i];
      assert items[i] in items;
    }
    forall p, q | p in pend && q in pend && p.key == q.key ensures p == q {
      var i :| 0 <= i < |pend| && pend[i] == p;
      var j :| 0 <= j < |pend| && pend[j] == q;
      assert ItemKeys(pend)[i] == ItemKeys(pend)[j];
    }
  }

  lemma RecordedItem(recorded: seq<Flight>, items: seq<Pend>, p: Pend)
    requires Keys(recorded) == ItemKeys(items) && p in items
    ensures exists fl :: fl in recorded && fl.key == p.key
  {
    var i :| 0 <= i < |items| && items[i] == p;
    assert Keys(recorded)[i] == ItemKeys(items)[i];
    assert recorded[i] in recorded;
  }
}
