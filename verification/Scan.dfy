/** The windows of the mirror: classification, destination guard, copy, committed mark
    (mirrorWindow, guard and scanWindows in internal/reconcile/reconcile.go). */
module Scan {
  import opened Wrappers
  import opened State
  import opened Placement
  import opened Protocol
  import opened Safety
  import opened Convergence
  import opened World
  import opened Mirror
  import K = Key
  import Windows

  // ------------------------------------------------------------- compaction

  /** The candidates whose keys were not found, in order. */
  function Kept(s: seq<Pend>, found: set<string>): seq<Pend> {
    if s == [] then []
    else Kept(s[..|s| - 1], found) + if s[|s| - 1].key in found then [] else [s[|s| - 1]]
  }

  /** The records of the others. */
  function Hits(s: seq<Pend>, found: set<string>): seq<KeyRecord> {
    if s == [] then []
    else
      var p := s[|s| - 1];
      Hits(s[..|s| - 1], found) + if p.key in found then [KeyRecord(p.key, p.uid)] else []
  }

  /** Every candidate is kept or recorded, and never both. */
  lemma {:induction false} KeptOrHit(s: seq<Pend>, found: set<string>)
    ensures |Kept(s, found)| + |Hits(s, found)| == |s|
    ensures forall p :: p in Kept(s, found) <==> p in s && p.key !in found
    ensures RecordedKeys(Hits(s, found)) == set p | p in s && p.key in found :: p.key
  {
    if s != [] {
      KeptOrHit(s[..|s| - 1], found);
      HitKeys(s[..|s| - 1], s[|s| - 1], found);
      assert s == s[..|s| - 1] + [s[|s| - 1]];
    }
  }

  lemma HitKeys(init: seq<Pend>, last: Pend, found: set<string>)
    requires RecordedKeys(Hits(init, found)) == set p | p in init && p.key in found :: p.key
    ensures RecordedKeys(Hits(init + [last], found)) == set p | p in init + [last] && p.key in found :: p.key
  {
    var s := init + [last];
    assert s[..|init|] == init;
    var more := if last.key in found then [KeyRecord(last.key, last.uid)] else [];
    assert Hits(s, found) == Hits(init, found) + more;
    assert forall p :: p in s <==> p in init || p == last;
    assert RecordedKeys(Hits(init, found) + more) == RecordedKeys(Hits(init, found)) + RecordedKeys(more);
  }

  lemma {:induction false} KeptDistinct(s: seq<Pend>, found: set<string>)
    requires Distinct(ItemKeys(s))
    ensures Distinct(ItemKeys(Kept(s, found)))
  {
    if s != [] {
      var init, last := s[..|s| - 1], s[|s| - 1];
      var kept := Kept(init, found);
      assert forall i :: 0 <= i < |init| ==> ItemKeys(init)[i] == ItemKeys(s)[i];
      KeptDistinct(init, found);
      KeptOrHit(init, found);
      assert forall i :: 0 <= i < |kept| ==> ItemKeys(Kept(s, found))[i] == ItemKeys(kept)[i];
      forall i | 0 <= i < |kept| ensures ItemKeys(kept)[i] != last.key {
        assert kept[i] in init;
        var j :| 0 <= j < |init| && init[j] == kept[i];
        assert ItemKeys(s)[j] != ItemKeys(s)[|s| - 1];
      }
    }
  }

  lemma {:induction false} KeptAscending(s: seq<Pend>, found: set<string>)
    requires Ascending(s)
    ensures Ascending(Kept(s, found))
  {
    if s != [] {
      var init, last := s[..|s| - 1], s[|s| - 1];
      var kept := Kept(init, found);
      KeptAscending(init, found);
      KeptOrHit(init, found);
      forall i | 0 <= i < |kept| ensures kept[i].uid < last.uid {
        assert kept[i] in init;
      }
    }
  }

  /** Drops the found candidates from the array in place, and collects their records. */
  method Compact(a: array<Pend>, found: set<string>) returns (n: nat, records: seq<KeyRecord>)
    modifies a
    ensures n <= a.Length && a[..n] == Kept(old(a[..]), found)
    ensures records == Hits(old(a[..]), found)
  {
    ghost var was := a[..];
    n, records := 0, [];
    for i := 0 to a.Length
      invariant n <= i && a[..n] == Kept(was[..i], found)
      invariant a[i..] == was[i..]
      invariant records == Hits(was[..i], found)
    {
      assert was[..i + 1][..i] == was[..i];
      var p := a[i];
      assert p == was[i..][0];
      if p.key in found {
        records := records + [KeyRecord(p.key, p.uid)];
      } else {
        a[n] := p;
        n := n + 1;
      }
      assert a[i + 1..] == was[i..][1..];
    }
    assert was[..a.Length] == was;
  }

  // ------------------------------------------------------------------ guard

  /** Classified: distinct, unrecorded and routed messages, ascending, with proper keys. */
  ghost predicate Candidates(o: Opts, s: Sys, pend: seq<Pend>) {
    && Distinct(ItemKeys(pend)) && Ascending(pend)
    && forall p :: p in pend ==>
         && p.folder == DestFor(o, s.db, p.key) && p.key !in s.db.copied && p.key != ""
         && MessageIs(s, p.uid, p.key)
  }

  /** Messages keep their keys. */
  lemma MessageStays(s: Sys, s': Sys, u: nat, k: Key)
    requires MessageIs(s, u, k) && s.names <= s'.names
    ensures MessageIs(s', u, k)
  {
  }

  lemma CandidatesStay(o: Opts, s: Sys, s': Sys, pend: seq<Pend>)
    requires Candidates(o, s, pend) && s.names <= s'.names && s'.db == s.db
    ensures Candidates(o, s', pend)
  {
    forall p | p in pend ensures MessageIs(s', p.uid, p.key) {
      MessageStays(s, s', p.uid, p.key);
    }
  }

  function RealIds(pend: seq<Pend>): (ids: seq<string>)
    ensures forall id :: id in ids <==> K.IsRealMessageID(id) && exists p :: p in pend && p.key == id
  {
    if pend == [] then []
    else
      var p := pend[|pend| - 1];
      assert pend == pend[..|pend| - 1] + [p];
      RealIds(pend[..|pend| - 1]) + if K.IsRealMessageID(p.key) then [p.key] else []
  }

  /** The copies in the given buckets whose keys are asked for have been found. */
  ghost predicate FoundIn(s: Sys, ids: seq<string>, folders: seq<Folder>, found: set<string>) {
    forall i :: i in s.apps && s.apps[i].key in ids && s.apps[i].folder in folders ==> s.apps[i].key in found
  }

  /** Found ids are searchable, their copies have been seen and existed in a. */
  ghost predicate Sound(a: Sys, s: Sys, found: set<string>) {
    && found <= s.observed && found <= AppKeys(a.apps)
    && forall id :: id in found ==> K.IsRealMessageID(id)
  }

  ghost predicate AllLanded(s: Sys) { forall i :: i in s.apps ==> s.apps[i].landed }

  /** What may go on while the guard searches. */
  ghost predicate Searching(a: Sys, b: Sys) {
    Drift(a, b) && InPlace(a.apps, b.apps) && (AllLanded(a) ==> AllLanded(b))
  }

  method SearchBucket(w: World, folder: Folder, ids: seq<string>) returns (ok: bool, found: set<string>)
    requires w.Valid() && AllLanded(w.sys) && forall id :: id in ids ==> id != "" && K.IsRealMessageID(id)
    modifies w`run, w`sys, w.src`main, w.src`folders, w.dst`apps, w.client
    ensures w.Valid() && Searching(old(w.sys), w.sys)
    ensures ok ==> FoundIn(w.sys, ids, [folder], found) && Sound(old(w.sys), w.sys, found)
    ensures w.healthy ==> ok
  {
    ok, found := w.SearchMessageIDsIn(folder, ids);
    w.HeldWasSeen(folder);
    forall i | ok && i in w.sys.apps && w.sys.apps[i].key in ids && w.sys.apps[i].folder == folder
      ensures w.sys.apps[i].key in found
    {
      assert w.Holds(folder, w.sys.apps[i].key);
    }
  }

  lemma SearchOn(a: Sys, b: Sys, c: Sys, ids: seq<string>, folders: seq<Folder>, found: set<string>)
    requires Searching(a, b) && Searching(b, c) && FoundIn(b, ids, folders, found) && Sound(a, b, found)
    ensures Searching(a, c) && FoundIn(c, ids, folders, found) && Sound(a, c, found)
    ensures AppKeys(b.apps) <= AppKeys(a.apps)
  {
    DriftTwice(a, b, c);
  }

  /** Searches every bucket: every copy with a queried id is found, and a copy of each id found
      existed when the search began. */
  method SearchBuckets(w: World, ids: seq<string>) returns (ok: bool, found: set<string>)
    requires w.Valid() && AllLanded(w.sys) && forall id :: id in ids ==> id != "" && K.IsRealMessageID(id)
    modifies w`run, w`sys, w.src`main, w.src`folders, w.dst`apps, w.client
    ensures w.Valid() && Searching(old(w.sys), w.sys)
    ensures ok ==> forall i :: i in w.sys.apps && w.sys.apps[i].key in ids ==> w.sys.apps[i].key in found
    ensures ok ==> Sound(old(w.sys), w.sys, found)
    ensures w.healthy ==> ok
  {
    ghost var a := w.sys;
    found := {};
    ok := true;
    var folders := Buckets(w.o);
    for n := 0 to |folders|
      invariant w.Valid() && Searching(a, w.sys) && ok
      invariant FoundIn(w.sys, ids, folders[..n], found) && Sound(a, w.sys, found)
    {
      ok, found := SearchNext(w, ids, n, found, a);
      if !ok { return; }
    }
    AllFound(w, ids, found);
  }

  method SearchNext(w: World, ids: seq<string>, n: nat, known: set<string>, ghost a: Sys)
    returns (ok: bool, found: set<string>)
    requires w.Valid() && AllLanded(w.sys) && n < |Buckets(w.o)| && Searching(a, w.sys)
    requires forall id :: id in ids ==> id != "" && K.IsRealMessageID(id)
    requires FoundIn(w.sys, ids, Buckets(w.o)[..n], known) && Sound(a, w.sys, known)
    modifies w`run, w`sys, w.src`main, w.src`folders, w.dst`apps, w.client
    ensures w.Valid() && Searching(a, w.sys) && AllLanded(w.sys)
    ensures ok ==> FoundIn(w.sys, ids, Buckets(w.o)[..n + 1], found) && Sound(a, w.sys, found)
    ensures w.healthy ==> ok
  {
    ghost var b := w.sys;
    ok, found := SearchBucket(w, Buckets(w.o)[n], ids);
    SearchOn(a, b, w.sys, ids, Buckets(w.o)[..n], known);
    if ok { FoundMore(a, b, w.sys, ids, Buckets(w.o), n, known, found); }
    found := known + found;
  }

  lemma FoundMore(a: Sys, b: Sys, c: Sys, ids: seq<string>, folders: seq<Folder>, n: nat, known: set<string>,
                  found: set<string>)
    requires n < |folders| && FoundIn(c, ids, folders[..n], known) && FoundIn(c, ids, [folders[n]], found)
    requires Sound(a, c, known) && Sound(b, c, found) && AppKeys(b.apps) <= AppKeys(a.apps)
    ensures FoundIn(c, ids, folders[..n + 1], known + found) && Sound(a, c, known + found)
  {
    assert folders[..n + 1] == folders[..n] + [folders[n]];
  }

  /** All copies lie in buckets. */
  lemma AllFound(w: World, ids: seq<string>, found: set<string>)
    requires w.Valid() && FoundIn(w.sys, ids, Buckets(w.o)[..|Buckets(w.o)|], found)
    ensures forall i :: i in w.sys.apps && w.sys.apps[i].key in ids ==> w.sys.apps[i].key in found
  {
    w.Safe();
    assert Buckets(w.o)[..|Buckets(w.o)|] == Buckets(w.o);
  }

  /** What the guard makes of the candidates, a being the state in which it began: it drops
      and records those a copy of which existed, and keeps and clears those without a copy. */
  ghost predicate Guarded(o: Opts, a: Sys, s: Sys, pend: seq<Pend>, kept: seq<Pend>) {
    && Screened(o, s, kept)
    && (forall p :: p in kept ==> p in pend && (K.IsRealMessageID(p.key) ==> p.key !in AppKeys(s.apps)))
    && (forall p :: p in pend ==> p in kept || (p.key in s.db.copied && p.key in AppKeys(a.apps)))
    && s.db.copied.Keys <= a.db.copied.Keys + KeysIn(pend)
  }

  /** Drops candidates some bucket already holds and records them; those kept are cleared. */
  method Guard(w: World, a: array<Pend>) returns (ok: bool, n: nat)
    requires w.Valid() && w.sys.busy && w.sys.live == map[] && Candidates(w.o, w.sys, a[..])
    modifies a, w`run, w`sys, w`sum, w.src`main, w.src`folders, w.dst`apps, w.client, w.store
    ensures w.Valid() && Copying(old(w.sys), w.sys) && w.sys.live == map[]
    ensures ok ==> n <= a.Length && Guarded(w.o, old(w.sys), w.sys, old(a[..]), a[..n])
    ensures ok ==> w.sum == old(w.sum).(skipped := old(w.sum).skipped + (a.Length - n))
    ensures w.healthy ==> ok
  {
    var ids := RealIds(a[..]);
    if ids == [] {
      NothingReal(w.o, w.sys, a[..]);
      assert a[..a.Length] == a[..];
      return true, a.Length;
    }
    ok, n := SearchAndDrop(w, a, ids);
  }

  method SearchAndDrop(w: World, a: array<Pend>, ids: seq<string>) returns (ok: bool, n: nat)
    requires w.Valid() && w.sys.busy && w.sys.live == map[] && Candidates(w.o, w.sys, a[..])
    requires ids == RealIds(a[..])
    modifies a, w`run, w`sys, w`sum, w.src`main, w.src`folders, w.dst`apps, w.client, w.store
    ensures w.Valid() && Copying(old(w.sys), w.sys) && w.sys.live == map[]
    ensures ok ==> n <= a.Length && Guarded(w.o, old(w.sys), w.sys, old(a[..]), a[..n])
    ensures ok ==> w.sum == old(w.sum).(skipped := old(w.sum).skipped + (a.Length - n))
    ensures w.healthy ==> ok
  {
    ghost var start := w.sys;
    var found;
    ok, found := SettleAndSearch(w, ids);
    n := a.Length;
    if !ok { return; }
    ghost var b := w.sys;
    CandidatesStay(w.o, start, b, a[..]);
    ok, n := DropFound(w, a, ids, found, start);
    CopyingTwice(start, b, w.sys);
  }

  /** Compacts the candidates and records those found. */
  method DropFound(w: World, a: array<Pend>, ghost ids: seq<string>, found: set<string>, ghost start: Sys)
    returns (ok: bool, n: nat)
    requires w.Valid() && w.sys.busy && w.sys.live == map[] && Candidates(w.o, w.sys, a[..]) && AllLanded(w.sys)
    requires ids == RealIds(a[..]) && start.db == w.sys.db && Sound(start, w.sys, found)
    requires forall i :: i in w.sys.apps && w.sys.apps[i].key in ids ==> w.sys.apps[i].key in found
    modifies a, w`run, w`sys, w`sum, w.store
    ensures w.Valid() && Copying(old(w.sys), w.sys) && w.sys.live == map[]
    ensures ok ==> n <= a.Length && Guarded(w.o, start, w.sys, old(a[..]), a[..n])
    ensures ok ==> w.sum == old(w.sum).(skipped := old(w.sum).skipped + (a.Length - n))
    ensures w.healthy ==> ok
  {
    ghost var pend := a[..];
    var records;
    n, records := Compact(a, found);
    KeptOrHit(pend, found);
    w.sum := w.sum.(skipped := w.sum.skipped + |records|);
    ok := RecordHits(w, pend, ids, found, records, start);
  }

  /** Waits for what earlier sessions left under way, and searches. */
  method SettleAndSearch(w: World, ids: seq<string>) returns (ok: bool, found: set<string>)
    requires w.Valid() && w.sys.live == map[] && forall id :: id in ids ==> id != "" && K.IsRealMessageID(id)
    modifies w`run, w`sys, w.src`main, w.src`folders, w.dst`apps, w.client
    ensures w.Valid() && Drift(old(w.sys), w.sys) && Copying(old(w.sys), w.sys) && AllLanded(w.sys)
    ensures ok ==> forall i :: i in w.sys.apps && w.sys.apps[i].key in ids ==> w.sys.apps[i].key in found
    ensures ok ==> Sound(old(w.sys), w.sys, found)
    ensures w.healthy ==> ok
  {
    ghost var a := w.sys;
    w.SettleStragglers();
    ghost var b := w.sys;
    ok, found := SearchBuckets(w, ids);
    DriftTwice(a, b, w.sys);
    FewerKeys(a, b);
  }

  lemma FewerKeys(a: Sys, b: Sys)
    requires Drift(a, b)
    ensures AppKeys(b.apps) <= AppKeys(a.apps)
  {
  }

  lemma NothingReal(o: Opts, s: Sys, pend: seq<Pend>)
    requires Candidates(o, s, pend) && RealIds(pend) == []
    ensures Guarded(o, s, s, pend, pend)
  {
    forall p | p in pend ensures !K.IsRealMessageID(p.key) {
      assert p.key !in RealIds(pend);
    }
  }

  /** Records what the search found and clears the rest. */
  method RecordHits(w: World, ghost pend: seq<Pend>, ghost ids: seq<string>, found: set<string>,
                    records: seq<KeyRecord>, ghost a: Sys)
    returns (ok: bool)
    requires w.Valid() && w.sys.busy && w.sys.live == map[] && Candidates(w.o, w.sys, pend) && AllLanded(w.sys)
    requires ids == RealIds(pend) && records == Hits(pend, found) && a.db == w.sys.db
    requires forall i :: i in w.sys.apps && w.sys.apps[i].key in ids ==> w.sys.apps[i].key in found
    requires Sound(a, w.sys, found)
    modifies w`run, w`sys, w.store
    ensures w.Valid() && Copying(old(w.sys), w.sys) && w.sys.live == map[]
    ensures ok ==> Guarded(w.o, a, w.sys, pend, Kept(pend, found))
    ensures w.healthy ==> ok
  {
    HitsSeen(a, w.sys, pend, found);
    ClearRest(w, pend, found);
    ghost var b := w.sys;
    ok := w.StoreSeen(records);
    if ok { HitsGuarded(w.o, a, b, w.sys, pend, found); }
  }

  lemma HitsGuarded(o: Opts, a: Sys, b: Sys, s: Sys, pend: seq<Pend>, found: set<string>)
    requires Candidates(o, b, pend) && b.db == a.db && b.cleared == (set id | id in RealIds(pend)) - found
    requires forall i :: i in b.apps && b.apps[i].key in RealIds(pend) ==> b.apps[i].key in found
    requires s == b.(db := s.db, hist := s.hist) && s.db == b.db.(copied := s.db.copied)
    requires s.db.copied.Keys == b.db.copied.Keys + set p | p in pend && p.key in found :: p.key
    requires found <= AppKeys(a.apps)
    ensures Guarded(o, a, s, pend, Kept(pend, found))
  {
    KeptGuarded(o, a, s, pend, found);
  }

  /** The searchable candidates that were not found may be appended. */
  ghost method ClearRest(w: World, pend: seq<Pend>, found: set<string>)
    requires w.Valid() && w.sys.busy && w.sys.live == map[] && AllLanded(w.sys)
    requires forall i :: i in w.sys.apps && w.sys.apps[i].key in RealIds(pend) ==> w.sys.apps[i].key in found
    modifies w`run, w`sys
    ensures w.Valid() && w.sys == old(w.sys).(cleared := (set id | id in RealIds(pend)) - found)
  {
    MayClear(w.o, w.sys, pend, found);
    w.Act(Clear((set id | id in RealIds(pend)) - found));
  }

  lemma HitsSeen(a: Sys, s: Sys, pend: seq<Pend>, found: set<string>)
    requires Sound(a, s, found)
    ensures RecordedKeys(Hits(pend, found)) <= s.observed
    ensures RecordedKeys(Hits(pend, found)) == set p | p in pend && p.key in found :: p.key
  {
    KeptOrHit(pend, found);
  }

  lemma MayClear(o: Opts, s: Sys, pend: seq<Pend>, found: set<string>)
    requires s.busy && s.live == map[] && AllLanded(s)
    requires forall i :: i in s.apps && s.apps[i].key in RealIds(pend) ==> s.apps[i].key in found
    ensures Enabled(o, s, Clear((set id | id in RealIds(pend)) - found))
  {
  }

  lemma KeptGuarded(o: Opts, a: Sys, s: Sys, pend: seq<Pend>, found: set<string>)
    requires Distinct(ItemKeys(pend)) && Ascending(pend) && s.cleared == (set id | id in RealIds(pend)) - found
    requires forall p :: p in pend ==> p.folder == DestFor(o, s.db, p.key) && MessageIs(s, p.uid, p.key)
    requires forall p :: p in pend ==> p.key !in a.db.copied
    requires s.db.copied.Keys == a.db.copied.Keys + set p | p in pend && p.key in found :: p.key
    requires forall i :: i in s.apps && s.apps[i].key in RealIds(pend) ==> s.apps[i].key in found
    requires found <= AppKeys(a.apps)
    ensures Guarded(o, a, s, pend, Kept(pend, found))
  {
    KeptOrHit(pend, found);
    KeptDistinct(pend, found);
    KeptAscending(pend, found);
    KeptCleared(s, pend, found);
    HitsHeld(a, s, pend, found);
  }

  /** A searchable candidate that is kept has no copy and is cleared. */
  lemma KeptCleared(s: Sys, pend: seq<Pend>, found: set<string>)
    requires s.cleared == (set id | id in RealIds(pend)) - found
    requires forall i :: i in s.apps && s.apps[i].key in RealIds(pend) ==> s.apps[i].key in found
    ensures forall p :: p in Kept(pend, found) && K.IsRealMessageID(p.key) ==>
              p.key in s.cleared && p.key !in AppKeys(s.apps)
  {
    KeptOrHit(pend, found);
    forall p | p in Kept(pend, found) && K.IsRealMessageID(p.key)
      ensures p.key in s.cleared && p.key !in AppKeys(s.apps)
    {
      assert p.key in RealIds(pend);
    }
  }

  /** A candidate that is dropped is recorded, and a copy of it existed. */
  lemma HitsHeld(a: Sys, s: Sys, pend: seq<Pend>, found: set<string>)
    requires s.db.copied.Keys == a.db.copied.Keys + set p | p in pend && p.key in found :: p.key
    requires found <= AppKeys(a.apps)
    ensures forall p :: p in pend ==> p in Kept(pend, found) || (p.key in s.db.copied && p.key in AppKeys(a.apps))
    ensures s.db.copied.Keys <= a.db.copied.Keys + KeysIn(pend)
  {
    KeptOrHit(pend, found);
  }

  // -------------------------------------------------------------- one window

  /** The UID of the first message of a window with key k. */
  function FirstUid(metas: seq<KeyRecord>, k: Key): nat
    requires k in RecordedKeys(metas)
  {
    if |metas| == 1 || k !in RecordedKeys(metas[..|metas| - 1]) then LastOf(metas, k)
    else FirstUid(metas[..|metas| - 1], k)
  }

  /** The last message of the window, where no earlier one has the key. */
  function LastOf(metas: seq<KeyRecord>, k: Key): nat
    requires metas != []
  {
    metas[|metas| - 1].uid
  }

  lemma {:induction false} FirstUidOf(metas: seq<KeyRecord>, k: Key)
    requires k in RecordedKeys(metas)
    ensures KeyRecord(k, FirstUid(metas, k)) in metas
  {
    var init, last := metas[..|metas| - 1], metas[|metas| - 1];
    assert metas == init + [last];
    if k in RecordedKeys(init) { FirstUidOf(init, k); } else { assert last.key == k; }
  }

  /** No other message of the window with key k has a lower UID. */
  lemma {:induction false} FirstIsLeast(metas: seq<KeyRecord>, k: Key, i: nat)
    requires i < |metas| && metas[i].key == k && k in RecordedKeys(metas)
    requires forall i, j :: 0 <= i < j < |metas| ==> metas[i].uid < metas[j].uid
    ensures FirstUid(metas, k) <= metas[i].uid
  {
    var init := metas[..|metas| - 1];
    assert i < |init| ==> metas[i] in init;
    if k in RecordedKeys(init) {
      FirstUidOf(init, k);
      var j :| 0 <= j < |init| && init[j] == KeyRecord(k, FirstUid(init, k));
      assert metas[j] == init[j];
      if i < |init| { FirstIsLeast(init, k, i); }
    }
  }

  /** The candidates of a window: the first message of each key not recorded. */
  ghost predicate Firsts(metas: seq<KeyRecord>, pend: seq<Pend>) {
    forall p :: p in pend ==> p.key in RecordedKeys(metas) && p.uid == FirstUid(metas, p.key)
  }

  /** Metadata of messages, ascending. */
  ghost predicate Messages(s: Sys, metas: seq<KeyRecord>) {
    && (forall m :: m in metas ==> m.key != "" && MessageIs(s, m.uid, m.key))
    && (forall i, j :: 0 <= i < j < |metas| ==> metas[i].uid < metas[j].uid)
  }

  /** Sorts the metadata of a window into candidates and known duplicates. */
  method Classify(w: World, metas: seq<KeyRecord>) returns (ok: bool, pend: seq<Pend>)
    requires w.Valid() && Messages(w.sys, metas)
    modifies w`sum
    ensures w.Valid()
    ensures ok ==> Candidates(w.o, w.sys, pend) && Firsts(metas, pend) && |pend| <= |metas|
    ensures ok ==> KeysIn(pend) <= RecordedKeys(metas) <= w.sys.db.copied.Keys + KeysIn(pend)
    ensures ok ==> w.sum == old(w.sum).(skipped := old(w.sum).skipped + (|metas| - |pend|))
    ensures w.healthy ==> ok
  {
    var skipped;
    ok, pend, skipped := ClassifyMetas(w.o, w.store.db, metas, w.healthy, w.sys);
    w.sum := w.sum.(skipped := w.sum.skipped + skipped);
  }

  /** One message after the other, until an error. */
  method ClassifyMetas(o: Opts, db: Db, metas: seq<KeyRecord>, healthy: bool, ghost s: Sys)
    returns (ok: bool, pend: seq<Pend>, skipped: nat)
    requires db == s.db && Messages(s, metas)
    ensures ok ==> Candidates(o, s, pend) && Firsts(metas, pend)
    ensures ok ==> KeysIn(pend) <= RecordedKeys(metas) <= s.db.copied.Keys + KeysIn(pend)
    ensures ok ==> |pend| + skipped == |metas|
    ensures healthy ==> ok
  {
    pend, skipped := [], 0;
    var pendKeys := {};
    for i := 0 to |metas|
      invariant pend == Classified(o, db, metas[..i]) && pendKeys == KeysIn(pend) && |pend| + skipped == i
    {
      ClassifiedNext(o, db, metas, i);
      var failed: bool :| healthy ==> !failed;
      if failed { return false, pend, skipped; }
      var key := metas[i].key;
      if key in db.copied || key in pendKeys {
        skipped := skipped + 1;
        continue;
      }
      pendKeys := pendKeys + {key};
      pend := pend + [Pend(metas[i].uid, key, DestFor(o, db, key))];
    }
    ClassifiedSorted(o, s, metas, |metas|);
    SortedAll(o, s, metas, pend);
    ok := true;
  }

  /** The first message of each key that is not recorded. */
  function Classified(o: Opts, db: Db, metas: seq<KeyRecord>): seq<Pend> {
    if metas == [] then []
    else
      NextPend(o, db, Classified(o, db, metas[..|metas| - 1]), metas[|metas| - 1])
  }

  /** The candidates after one more message. */
  function NextPend(o: Opts, db: Db, before: seq<Pend>, m: KeyRecord): seq<Pend> {
    if m.key in db.copied || m.key in KeysIn(before) then before
    else before + [Pend(m.uid, m.key, DestFor(o, db, m.key))]
  }

  lemma {:induction false} ClassifiedSorted(o: Opts, s: Sys, metas: seq<KeyRecord>, i: nat)
    requires Messages(s, metas) && i <= |metas|
    ensures Sorted(o, s, metas, i, Classified(o, s.db, metas[..i]))
  {
    if i == 0 {
      SortedNone(o, s, metas);
    } else {
      ClassifiedSorted(o, s, metas, i - 1);
      SortedNext(o, s, metas, i - 1, Classified(o, s.db, metas[..i - 1]));
      ClassifiedNext(o, s.db, metas, i - 1);
    }
  }

  lemma ClassifiedNext(o: Opts, db: Db, metas: seq<KeyRecord>, i: nat)
    requires i < |metas|
    ensures Classified(o, db, metas[..i + 1]) == NextPend(o, db, Classified(o, db, metas[..i]), metas[i])
  {
    assert metas[..i + 1][..i] == metas[..i];
  }

  lemma SortedNone(o: Opts, s: Sys, metas: seq<KeyRecord>)
    ensures Sorted(o, s, metas, 0, [])
  {
  }

  lemma SortedNext(o: Opts, s: Sys, metas: seq<KeyRecord>, i: nat, pend: seq<Pend>)
    requires Messages(s, metas) && i < |metas| && Sorted(o, s, metas, i, pend)
    ensures Sorted(o, s, metas, i + 1, NextPend(o, s.db, pend, metas[i]))
  {
    if metas[i].key in s.db.copied || metas[i].key in KeysIn(pend) {
      SortedKnown(o, s, metas, i, pend);
    } else {
      SortedNew(o, s, metas, i, pend);
    }
  }

  lemma SortedAll(o: Opts, s: Sys, metas: seq<KeyRecord>, pend: seq<Pend>)
    requires Sorted(o, s, metas, |metas|, pend)
    ensures Candidates(o, s, pend) && Firsts(metas, pend)
    ensures KeysIn(pend) <= RecordedKeys(metas) <= s.db.copied.Keys + KeysIn(pend)
  {
    assert metas[..|metas|] == metas;
  }

  /** The first i messages are sorted into candidates and known ones. */
  ghost predicate Sorted(o: Opts, s: Sys, metas: seq<KeyRecord>, i: nat, pend: seq<Pend>)
    requires i <= |metas|
  {
    && Candidates(o, s, pend) && Firsts(metas[..i], pend)
    && (forall p :: p in pend && i < |metas| ==> p.uid < metas[i].uid)
    && KeysIn(pend) <= RecordedKeys(metas[..i]) <= s.db.copied.Keys + KeysIn(pend)
  }

  lemma LaterUids(s: Sys, metas: seq<KeyRecord>, i: nat, pend: seq<Pend>)
    requires Messages(s, metas) && i < |metas| && forall p :: p in pend ==> p.uid <= metas[i].uid
    ensures forall p :: p in pend && i + 1 < |metas| ==> p.uid < metas[i + 1].uid
  {
  }

  lemma SortedKnown(o: Opts, s: Sys, metas: seq<KeyRecord>, i: nat, pend: seq<Pend>)
    requires Messages(s, metas) && i < |metas| && Sorted(o, s, metas, i, pend)
    requires metas[i].key in s.db.copied || metas[i].key in KeysIn(pend)
    ensures Sorted(o, s, metas, i + 1, pend)
  {
    MoreFirsts(metas, i, pend);
    LaterUids(s, metas, i, pend);
  }

  lemma SortedNew(o: Opts, s: Sys, metas: seq<KeyRecord>, i: nat, pend: seq<Pend>)
    requires Messages(s, metas) && i < |metas| && Sorted(o, s, metas, i, pend)
    requires metas[i].key !in s.db.copied && metas[i].key !in KeysIn(pend)
    ensures Sorted(o, s, metas, i + 1, pend + [Pend(metas[i].uid, metas[i].key, DestFor(o, s.db, metas[i].key))])
  {
    var p := Pend(metas[i].uid, metas[i].key, DestFor(o, s.db, metas[i].key));
    assert metas[i] in metas;
    MoreFirsts(metas, i, pend);
    Appended(o, s, pend, p);
    LaterUids(s, metas, i, pend + [p]);
  }

  lemma MoreFirsts(metas: seq<KeyRecord>, i: nat, pend: seq<Pend>)
    requires i < |metas| && Firsts(metas[..i], pend)
    ensures Firsts(metas[..i + 1], pend)
    ensures RecordedKeys(metas[..i + 1]) == RecordedKeys(metas[..i]) + {metas[i].key}
    ensures metas[i].key !in RecordedKeys(metas[..i]) ==> FirstUid(metas[..i + 1], metas[i].key) == metas[i].uid
  {
    assert metas[..i + 1][..i] == metas[..i];
    assert metas[..i + 1] == metas[..i] + [metas[i]];
    forall p | p in pend ensures p.uid == FirstUid(metas[..i + 1], p.key) {
      assert p.key in RecordedKeys(metas[..i]);
    }
  }

  lemma Appended(o: Opts, s: Sys, pend: seq<Pend>, p: Pend)
    requires Candidates(o, s, pend) && p.key !in KeysIn(pend) && forall q :: q in pend ==> q.uid < p.uid
    requires p.folder == DestFor(o, s.db, p.key) && p.key !in s.db.copied && p.key != "" && MessageIs(s, p.uid, p.key)
    ensures Candidates(o, s, pend + [p]) && KeysIn(pend + [p]) == KeysIn(pend) + {p.key}
  {
    forall i | 0 <= i < |pend|
      ensures ItemKeys(pend + [p])[i] == ItemKeys(pend)[i] && ItemKeys(pend)[i] != p.key && pend[i].uid < p.uid
    {
      assert pend[i] in pend;
    }
  }

  /** The summary accounts for n candidates: each is copied or skipped unless the body of
      some candidate never came. */
  ghost predicate Accounted(sum: Summary, sum': Summary, n: nat, complete: bool) {
    && sum' == sum.(copied := sum'.copied, skipped := sum'.skipped, keywordsSet := sum'.keywordsSet)
    && sum.copied <= sum'.copied && sum.skipped <= sum'.skipped
    && sum'.copied + sum'.skipped <= sum.copied + sum.skipped + n
    && (complete ==> sum'.copied + sum'.skipped == sum.copied + sum.skipped + n)
  }

  /** Classified and guarded as configured. */
  method Screen(w: World, pend: seq<Pend>) returns (ok: bool, kept: seq<Pend>)
    requires w.Valid() && w.sys.busy && w.sys.live == map[] && Candidates(w.o, w.sys, pend)
    modifies w`run, w`sys, w`sum, w.src`main, w.src`folders, w.dst`apps, w.client, w.store
    ensures w.Valid() && Copying(old(w.sys), w.sys) && w.sys.live == map[]
    ensures ok ==> Screened(w.o, w.sys, kept) && |kept| <= |pend|
    ensures ok ==>
              if w.o.destGuard then Guarded(w.o, old(w.sys), w.sys, pend, kept)
              else kept == pend && w.sys.db == old(w.sys).db
    ensures ok ==> w.sum == old(w.sum).(skipped := old(w.sum).skipped + (|pend| - |kept|))
    ensures w.healthy ==> ok
  {
    if !w.o.destGuard || pend == [] { return true, pend; }
    var a := new Pend[|pend|](i requires 0 <= i < |pend| => pend[i]);
    assert a[..] == pend;
    var n;
    ok, n := Guard(w, a);
    kept := if ok then a[..n] else [];
  }

  /** Copies what is left of a window, if anything. */
  method CopyKept(w: World, kept: seq<Pend>) returns (ok: bool)
    requires w.Valid() && w.sys.busy && w.sys.live == map[] && Screened(w.o, w.sys, kept)
    modifies w`run, w`sys, w`cons, w`sum, w.src`main, w.src`folders, w.src`asked, w.dst, w.store
    ensures w.Valid() && Fetched(old(w.sys), w.sys) && w.sys.busy
    ensures w.src.asked == old(w.src.asked) + if kept == [] then [] else [Asked(kept)]
    ensures w.sys.blank <= old(w.sys).blank + Lost(w, |old(w.src.asked)|, kept)
    ensures ok ==> w.sys.live == map[] && Copied(w, |old(w.src.asked)|, old(w.sys), w.sys, kept)
    ensures ok ==> Accounted(old(w.sum), w.sum, |kept|, KeysIn(kept) <= w.sys.db.copied.Keys)
                   && w.sum.skipped == old(w.sum).skipped
    ensures w.healthy ==> ok
  {
    if kept == [] {
      assert Lost(w, |w.src.asked|, kept) == {};
      return true;
    }
    ghost var n := |w.src.asked|;
    ok := CopyPipeline(w, kept);
    SentCount(w, n, kept);
  }

  lemma {:induction false} SentCount(w: World, n: nat, pend: seq<Pend>)
    ensures |Sent(w, n, pend)| <= |pend|
    ensures (forall p :: p in pend ==> w.src.delivers(n, p.uid)) ==> |Sent(w, n, pend)| == |pend|
  {
    if pend != [] {
      assert pend == pend[..|pend| - 1] + [pend[|pend| - 1]];
      SentCount(w, n, pend[..|pend| - 1]);
    }
  }

  /** A searchable key recorded since a had a copy then, or it is tracked. */
  ghost predicate NewNoted(o: Opts, a: Sys, s: Sys) {
    forall k :: k in s.db.copied && k !in a.db.copied ==> k in AppKeys(a.apps) || Noted(o, s, k)
  }

  /** What becomes of a window, exactly: a key is recorded if and only if it was before, or the
      guard found it, or the body of its first message in the window was delivered. What the
      guard found had a copy when the window began; the other searchable keys had none when the
      search was over, in state mid. */
  ghost predicate WindowResult(w: World, n: nat, a: Sys, mid: Sys, s: Sys, metas: seq<KeyRecord>, found: set<Key>) {
    && Copying(a, mid) && found <= AppKeys(a.apps) && (found != {} ==> w.o.destGuard)
    && (w.o.destGuard ==>
          forall k :: k in RecordedKeys(metas) && K.IsRealMessageID(k) && k !in a.db.copied && k !in found ==>
            k !in AppKeys(mid.apps))
    && (forall k :: k in RecordedKeys(metas) ==>
          (k in s.db.copied <==> k in a.db.copied || k in found || w.src.delivers(n, FirstUid(metas, k))))
    && a.db.copied.Keys <= s.db.copied.Keys <= a.db.copied.Keys + RecordedKeys(metas)
    && NewNoted(w.o, a, s)
    && RecordedKeys(metas) <= s.db.copied.Keys + s.blank
  }

  /** The keys that a window may leave blank. */
  ghost predicate BlankOnly(w: World, n: nat, asked: seq<map<nat, Key>>, a: Sys, s: Sys, metas: seq<KeyRecord>) {
    forall k :: k in s.blank && k !in a.blank ==>
      && k in RecordedKeys(metas) && AskedFor(asked, n, FirstUid(metas, k), k)
      && !w.src.delivers(n, FirstUid(metas, k))
  }

  /** Fetch n was for the body of message u, of key k. */
  predicate AskedFor(asked: seq<map<nat, Key>>, n: nat, u: nat, k: Key) {
    n < |asked| && u in asked[n] && asked[n][u] == k
  }

  lemma WindowAdds(w: World, n: nat, a: Sys, b: Sys, s: Sys, metas: seq<KeyRecord>, pend: seq<Pend>, kept: seq<Pend>)
    requires Firsts(metas, pend) && KeysIn(pend) <= RecordedKeys(metas) <= a.db.copied.Keys + KeysIn(pend)
    requires Candidates(w.o, a, pend) && Copying(a, b) && Fetched(b, s) && b.live == map[]
    requires if w.o.destGuard then Guarded(w.o, a, b, pend, kept) else kept == pend && b.db == a.db
    requires Screened(w.o, b, kept) && Copied(w, n, b, s, kept)
    ensures WindowResult(w, n, a, b, s, metas, KeysIn(pend) - KeysIn(kept))
  {
    KeptKeys(pend, kept, a);
    WindowFound(w.o, a, b, metas, pend, kept);
    WindowRecords(w, n, a, b, s, metas, pend, kept);
    WindowNoted(w, n, a, b, s, pend, kept);
  }

  /** What the guard dropped had copies, what it kept has none. */
  lemma WindowFound(o: Opts, a: Sys, b: Sys, metas: seq<KeyRecord>, pend: seq<Pend>, kept: seq<Pend>)
    requires if o.destGuard then Guarded(o, a, b, pend, kept) else kept == pend
    requires RecordedKeys(metas) <= a.db.copied.Keys + KeysIn(pend)
    ensures KeysIn(pend) - KeysIn(kept) <= AppKeys(a.apps) && KeysIn(kept) <= KeysIn(pend)
    ensures KeysIn(pend) != KeysIn(kept) ==> o.destGuard
    ensures o.destGuard ==> forall k :: k in KeysIn(kept) && K.IsRealMessageID(k) ==> k !in AppKeys(b.apps)
  {
  }

  /** What is recorded of a window. */
  lemma WindowRecords(w: World, n: nat, a: Sys, b: Sys, s: Sys, metas: seq<KeyRecord>, pend: seq<Pend>, kept: seq<Pend>)
    requires Firsts(metas, pend) && KeysIn(pend) <= RecordedKeys(metas) <= a.db.copied.Keys + KeysIn(pend)
    requires KeysIn(pend) !! a.db.copied.Keys && Copying(a, b) && Fetched(b, s)
    requires if w.o.destGuard then Guarded(w.o, a, b, pend, kept) else kept == pend && b.db == a.db
    requires Screened(w.o, b, kept) && Copied(w, n, b, s, kept)
    ensures forall k :: k in RecordedKeys(metas) ==>
              (k in s.db.copied <==>
                 k in a.db.copied || k in KeysIn(pend) - KeysIn(kept) || w.src.delivers(n, FirstUid(metas, k)))
    ensures a.db.copied.Keys <= s.db.copied.Keys <= a.db.copied.Keys + RecordedKeys(metas)
    ensures RecordedKeys(metas) <= s.db.copied.Keys + s.blank
  {
    forall k | k in RecordedKeys(metas) && k !in a.db.copied
      ensures k in s.db.copied <==> k in KeysIn(pend) - KeysIn(kept) || w.src.delivers(n, FirstUid(metas, k))
    {
      var p :| p in pend && p.key == k;
      if k in KeysIn(kept) {
        var q :| q in kept && q.key == k;
        assert q in pend;
      }
    }
  }

  /** What is newly recorded had a copy before or is tracked. */
  lemma WindowNoted(w: World, n: nat, a: Sys, b: Sys, s: Sys, pend: seq<Pend>, kept: seq<Pend>)
    requires Copying(a, b) && b.live == map[] && Copied(w, n, b, s, kept)
    requires if w.o.destGuard then Guarded(w.o, a, b, pend, kept) else kept == pend && b.db == a.db
    ensures NewNoted(w.o, a, s)
  {
    forall k | k in s.db.copied && k !in a.db.copied ensures k in AppKeys(a.apps) || Noted(w.o, s, k) {
      if k in KeysIn(kept) && k in AppKeys(b.apps) {
        var i :| i in b.apps && b.apps[i].key == k;
      }
    }
  }

  lemma KeptKeys(pend: seq<Pend>, kept: seq<Pend>, a: Sys)
    requires forall p :: p in pend ==> p.key !in a.db.copied
    ensures KeysIn(pend) !! a.db.copied.Keys
  {
  }

  lemma WindowBlank(w: World, n: nat, a: Sys, s: Sys, metas: seq<KeyRecord>, pend: seq<Pend>, kept: seq<Pend>)
    requires Firsts(metas, pend) && (forall p :: p in kept ==> p in pend)
    requires s.blank <= a.blank + Lost(w, n, kept) && Ascending(kept)
    requires kept != [] ==> n < |w.src.asked| && w.src.asked[n] == Asked(kept)
    ensures BlankOnly(w, n, w.src.asked, a, s, metas)
  {
    AskedAre(w, n, kept, {});
  }

  /** Mirrors one window of candidates. */
  method MirrorWindow(w: World, metas: seq<KeyRecord>) returns (ok: bool, ghost found: set<Key>, ghost mid: Sys)
    requires w.Valid() && w.sys.busy && w.sys.live == map[] && Messages(w.sys, metas)
    modifies w`run, w`sys, w`cons, w`sum, w.src`main, w.src`folders, w.src`asked, w.dst, w.client, w.store
    ensures w.Valid() && Fetched(old(w.sys), w.sys) && w.sys.busy
    ensures old(w.src.asked) <= w.src.asked
    ensures BlankOnly(w, |old(w.src.asked)|, w.src.asked, old(w.sys), w.sys, metas)
    ensures ok ==> w.sys.live == map[] && WindowResult(w, |old(w.src.asked)|, old(w.sys), mid, w.sys, metas, found)
    ensures ok ==> Accounted(old(w.sum), w.sum, |metas|, RecordedKeys(metas) <= w.sys.db.copied.Keys)
    ensures w.healthy ==> ok
  {
    ghost var n, a := |w.src.asked|, w.sys;
    found, mid := {}, a;
    var pend, kept;
    ok, pend := Classify(w, metas);
    if !ok { return; }
    ok, kept := Screen(w, pend);
    mid := w.sys;
    CopyingIsFetched(a, mid);
    if !ok { return; }
    found := KeysIn(pend) - KeysIn(kept);
    ok := CopyScreened(w, kept, metas, pend, n, a);
  }

  /** The rest of a window that has been screened. */
  method CopyScreened(w: World, kept: seq<Pend>, ghost metas: seq<KeyRecord>, ghost pend: seq<Pend>, ghost n: nat,
                      ghost a: Sys)
    returns (ok: bool)
    requires w.Valid() && w.sys.busy && w.sys.live == map[] && n == |w.src.asked| && Screened(w.o, w.sys, kept)
    requires Firsts(metas, pend) && KeysIn(pend) <= RecordedKeys(metas) <= a.db.copied.Keys + KeysIn(pend)
    requires Candidates(w.o, a, pend) && Copying(a, w.sys)
    requires if w.o.destGuard then Guarded(w.o, a, w.sys, pend, kept) else kept == pend && w.sys.db == a.db
    modifies w`run, w`sys, w`cons, w`sum, w.src`main, w.src`folders, w.src`asked, w.dst, w.store
    ensures w.Valid() && Fetched(a, w.sys) && w.sys.busy && old(w.src.asked) <= w.src.asked
    ensures BlankOnly(w, n, w.src.asked, a, w.sys, metas)
    ensures ok ==> w.sys.live == map[]
    ensures ok ==> WindowResult(w, n, a, old(w.sys), w.sys, metas, KeysIn(pend) - KeysIn(kept))
    ensures ok ==> Accounted(old(w.sum), w.sum, |kept|, KeysIn(kept) <= w.sys.db.copied.Keys)
                   && w.sum.skipped == old(w.sum).skipped
    ensures w.healthy ==> ok
  {
    ghost var mid := w.sys;
    CopyingIsFetched(a, mid);
    ok := CopyKept(w, kept);
    FetchedTwice(a, mid, w.sys);
    WindowBlank(w, n, a, w.sys, metas, pend, kept);
    if ok { WindowAdds(w, n, a, mid, w.sys, metas, pend, kept); }
  }

  lemma CopyingIsFetched(a: Sys, b: Sys)
    requires Copying(a, b)
    ensures Fetched(a, b)
  {
  }

  // ------------------------------------------------------------ whole scans

  /** What the scan of the source folder may change: keys are recorded, the mark moves. */
  ghost predicate Mirrored(a: Sys, b: Sys) {
    && MailLater(a.src, b.src) && MailsLater(a.watched, b.watched)
    && b.db == a.db.(copied := b.db.copied, lastUid := b.db.lastUid) && a.db.copied.Keys <= b.db.copied.Keys
    && b.busy == a.busy && b.virgin == a.virgin && b.labels == a.labels
    && a.blank <= b.blank && a.observed <= b.observed && b.distinct <= a.distinct && a.names <= b.names
    && StillTracked(a, b) && Traced(a, b)
  }

  lemma MirroredTwice(a: Sys, b: Sys, c: Sys)
    requires Mirrored(a, b) && Mirrored(b, c)
    ensures Mirrored(a, c)
  {
  }

  lemma NotedTwice(o: Opts, a: Sys, b: Sys, c: Sys)
    requires Mirrored(a, b) && Mirrored(b, c) && b.live == map[] && NewNoted(o, a, b) && NewNoted(o, b, c)
    requires SoleInv(o, c) && LiveInv(o, c)
    ensures NewNoted(o, a, c)
  {
    forall k | k in c.db.copied && k !in a.db.copied ensures k in AppKeys(a.apps) || Noted(o, c, k) {
      if k in b.db.copied {
        if k !in AppKeys(a.apps) { NotedStays(o, b, c, k); }
      } else if k in AppKeys(b.apps) {
        var i :| i in b.apps && b.apps[i].key == k;
        assert i in a.apps && a.apps[i].key == k;
      }
    }
  }

  lemma StillNoted(w: World, a: Sys, b: Sys)
    requires w.Valid() && Mirrored(a, b) && Mirrored(b, w.sys) && b.live == map[]
    requires NewNoted(w.o, a, b) && NewNoted(w.o, b, w.sys)
    ensures NewNoted(w.o, a, w.sys)
  {
    OpenKnown(w);
    NotedTwice(w.o, a, b, w.sys);
  }

  /** The mark may follow a window that is done. */
  lemma MarkReady(o: Opts, s: Sys, s': Sys, metas: seq<KeyRecord>, start: nat, stop: nat)
    requires s'.busy && Fetched(s, s') && Listed(metas, s.src, start, stop)
    requires RecordedKeys(metas) <= s'.db.copied.Keys + s'.blank
    requires stop < s.src.uidNext && s.db.lastUid + 1 == start
    requires s.db.uidValidity == s.src.validity ==> Covered(s.src, s.db.copied, s.blank, s.db.lastUid)
    ensures Enabled(o, s', Mark(stop))
  {
    forall u | u in s'.src.msgs && u <= stop && s.db.uidValidity == s.src.validity
      ensures s'.src.msgs[u] in s'.db.copied || s'.src.msgs[u] in s'.blank
    {
      if start <= u {
        assert KeyRecord(s.src.msgs[u], u) in metas;
        assert s.src.msgs[u] in RecordedKeys(metas);
      }
    }
  }

  /** Every candidate counted is copied or skipped, unless some body never came. */
  ghost predicate Tally(x: Summary, y: Summary, complete: bool) {
    && y == x.(candidates := y.candidates, copied := y.copied, skipped := y.skipped, keywordsSet := y.keywordsSet)
    && x.copied <= y.copied && x.skipped <= y.skipped
    && y.copied + y.skipped + x.candidates <= x.copied + x.skipped + y.candidates
    && (complete ==> y.copied + y.skipped + x.candidates == x.copied + x.skipped + y.candidates)
  }

  /** Some body fetch from number lo on was for a message with key k and did not deliver it. */
  ghost predicate LeftOut(w: World, s: Sys, lo: nat, asked: seq<map<nat, Key>>, k: Key) {
    exists n: nat, u: nat :: lo <= n && AskedFor(asked, n, u, k) && !w.src.delivers(n, u) && MessageIs(s, u, k)
  }

  /** The keys blank since a were all left out by fetches from number lo on. */
  ghost predicate Excused(w: World, a: Sys, s: Sys, lo: nat, asked: seq<map<nat, Key>>) {
    forall k :: k in s.blank && k !in a.blank ==> LeftOut(w, s, lo, asked, k)
  }

  lemma StillLeftOut(w: World, s: Sys, s': Sys, lo: nat, lo': nat, asked: seq<map<nat, Key>>,
                     asked': seq<map<nat, Key>>, k: Key)
    requires LeftOut(w, s, lo, asked, k) && s.names <= s'.names && lo' <= lo && asked <= asked'
    ensures LeftOut(w, s', lo', asked', k)
  {
    var n: nat, u: nat :| lo <= n && AskedFor(asked, n, u, k) && !w.src.delivers(n, u) && MessageIs(s, u, k);
    MessageStays(s, s', u, k);
    assert AskedFor(asked', n, u, k);
  }

  lemma ExcusedOn(w: World, a: Sys, b: Sys, c: Sys, lo: nat, mid: seq<map<nat, Key>>, asked: seq<map<nat, Key>>)
    requires Excused(w, a, b, lo, mid) && Excused(w, b, c, |mid|, asked) && b.names <= c.names
    requires lo <= |mid| && mid <= asked
    ensures Excused(w, a, c, lo, asked)
  {
    forall k | k in c.blank && k !in a.blank ensures LeftOut(w, c, lo, asked, k) {
      if k in b.blank {
        StillLeftOut(w, b, c, lo, lo, mid, asked, k);
      } else {
        StillLeftOut(w, c, c, |mid|, lo, asked, asked, k);
      }
    }
  }

  lemma WindowExcused(w: World, b: Sys, s: Sys, n: nat, metas: seq<KeyRecord>)
    requires BlankOnly(w, n, w.src.asked, b, s, metas) && Messages(b, metas) && b.names <= s.names
    ensures Excused(w, b, s, n, w.src.asked)
  {
    forall k | k in s.blank && k !in b.blank ensures LeftOut(w, s, n, w.src.asked, k) {
      FirstUidOf(metas, k);
      MessageStays(b, s, FirstUid(metas, k), k);
    }
  }

  /** One window of the mirror: fetch, mirror, commit the mark. */
  method ScanWindow(w: World, start: nat, stop: nat) returns (ok: bool)
    requires w.Valid() && w.sys.busy && w.sys.live == map[] && w.src.selected == Main
    requires w.sys.db.lastUid + 1 == start <= stop < w.sys.src.uidNext
    modifies w`run, w`sys, w`cons, w`sum, w.src`main, w.src`folders, w.src`asked, w.dst, w.client, w.store
    ensures w.Valid() && Mirrored(old(w.sys), w.sys)
    ensures old(w.src.asked) <= w.src.asked && Excused(w, old(w.sys), w.sys, |old(w.src.asked)|, w.src.asked)
    ensures ok ==> w.sys.live == map[] && w.sys.db.lastUid == stop && NewNoted(w.o, old(w.sys), w.sys)
    ensures ok ==> Tally(old(w.sum), w.sum, w.sys.blank == {})
    ensures w.healthy ==> ok
  {
    ghost var a, n, before := w.sys, |w.src.asked|, w.src.asked;
    var metas;
    ok, metas := w.FetchMetaRange(start, stop);
    ghost var b := w.sys;
    DriftMirrors(w.o, a, b);
    if !ok { return; }
    ok := MirrorListed(w, start, stop, metas);
    MirroredTwice(a, b, w.sys);
    ExcusedOn(w, a, b, w.sys, n, before, w.src.asked);
    if ok { StillNoted(w, a, b); }
  }

  /** The messages of a window are mirrored, and the mark is committed. */
  method MirrorListed(w: World, start: nat, stop: nat, metas: seq<KeyRecord>) returns (ok: bool)
    requires w.Valid() && w.sys.busy && w.sys.live == map[] && Listed(metas, w.sys.src, start, stop)
    requires w.sys.db.lastUid + 1 == start <= stop < w.sys.src.uidNext
    modifies w`run, w`sys, w`cons, w`sum, w.src`main, w.src`folders, w.src`asked, w.dst, w.client, w.store
    ensures w.Valid() && Mirrored(old(w.sys), w.sys)
    ensures old(w.src.asked) <= w.src.asked && Excused(w, old(w.sys), w.sys, |old(w.src.asked)|, w.src.asked)
    ensures ok ==> w.sys.live == map[] && w.sys.db.lastUid == stop && NewNoted(w.o, old(w.sys), w.sys)
    ensures ok ==> Tally(old(w.sum), w.sum, w.sys.blank == {})
    ensures w.healthy ==> ok
  {
    ghost var b, n := w.sys, |w.src.asked|;
    ListedMessages(w, metas, start, stop);
    w.sum := w.sum.(candidates := w.sum.candidates + |metas|);
    ghost var found, mid;
    ok, found, mid := MirrorWindow(w, metas);
    ghost var c := w.sys;
    WindowMirrors(w, b, c, n, metas);
    if ok { ok := CommitListed(w, b, n, metas, start, stop); }
  }

  /** The mark follows the window. */
  method CommitListed(w: World, ghost b: Sys, ghost n: nat, ghost metas: seq<KeyRecord>, start: nat, stop: nat)
    returns (ok: bool)
    requires w.Valid() && w.sys.busy && Listed(metas, b.src, start, stop)
    requires RecordedKeys(metas) <= w.sys.db.copied.Keys + w.sys.blank
    requires stop < b.src.uidNext && b.db.lastUid + 1 == start
    requires b.db.uidValidity == b.src.validity ==> Covered(b.src, b.db.copied, b.blank, b.db.lastUid)
    requires Fetched(b, w.sys) && Mirrored(b, w.sys) && Excused(w, b, w.sys, n, w.src.asked) && NewNoted(w.o, b, w.sys)
    modifies w`run, w`sys, w.store
    ensures w.Valid() && Mirrored(b, w.sys) && Excused(w, b, w.sys, n, w.src.asked)
    ensures w.sys == old(w.sys).(db := w.sys.db, hist := w.sys.hist)
    ensures ok ==> w.sys.db.lastUid == stop && NewNoted(w.o, b, w.sys)
    ensures w.healthy ==> ok
  {
    ghost var c := w.sys;
    MarkReady(w.o, b, c, metas, start, stop);
    ok := CommitMark(w, stop);
    MarkMirrors(w, b, c, n);
  }

  lemma DriftMirrors(o: Opts, a: Sys, b: Sys)
    requires Drift(a, b)
    ensures Mirrored(a, b) && NewNoted(o, a, b)
  {
  }

  lemma WindowMirrors(w: World, b: Sys, c: Sys, n: nat, metas: seq<KeyRecord>)
    requires Fetched(b, c) && BlankOnly(w, n, w.src.asked, b, c, metas) && Messages(b, metas)
    ensures Mirrored(b, c) && Excused(w, b, c, n, w.src.asked)
  {
    WindowExcused(w, b, c, n, metas);
  }

  /** Committing a mark changes nothing else. */
  lemma MarkMirrors(w: World, a: Sys, c: Sys, n: nat)
    requires w.sys == c.(db := w.sys.db, hist := w.sys.hist) && w.sys.db == c.db.(lastUid := w.sys.db.lastUid)
    requires Mirrored(a, c) && Excused(w, a, c, n, w.src.asked) && NewNoted(w.o, a, c)
    ensures Mirrored(a, w.sys) && Excused(w, a, w.sys, n, w.src.asked) && NewNoted(w.o, a, w.sys)
  {
    forall k | k in w.sys.blank && k !in a.blank ensures LeftOut(w, w.sys, n, w.src.asked, k) {
      StillLeftOut(w, c, w.sys, n, n, w.src.asked, w.src.asked, k);
    }
  }

  lemma ListedMessages(w: World, metas: seq<KeyRecord>, start: nat, stop: nat)
    requires w.Valid() && Listed(metas, w.sys.src, start, stop)
    ensures Messages(w.sys, metas)
    ensures w.sys.db.uidValidity == w.sys.src.validity ==>
              Covered(w.sys.src, w.sys.db.copied, w.sys.blank, w.sys.db.lastUid)
  {
    w.Safe();
    assert CommittedOk(w.sys, w.sys.db);
  }

  method CommitMark(w: World, stop: nat) returns (ok: bool)
    requires w.Valid() && Enabled(w.o, w.sys, Mark(stop))
    modifies w`run, w`sys, w.store
    ensures w.Valid() && w.sys == old(w.sys).(db := w.sys.db, hist := w.sys.hist)
    ensures w.sys.db == if ok then old(w.sys).db.(lastUid := stop) else old(w.sys).db
    ensures w.healthy ==> ok
  {
    ok := w.store.SetLastUid(stop);
    if ok { w.Act(Mark(stop)); }
  }

  /** Windows that follow one another from first up to uidNext. */
  ghost predicate Chain(spans: seq<Windows.Span>, first: nat, uidNext: nat) {
    && (forall i :: 0 <= i < |spans| ==> first <= spans[i].start <= spans[i].stop < uidNext)
    && (forall i :: 0 <= i < |spans| - 1 ==> spans[i + 1].start == spans[i].stop + 1)
    && (if spans == [] then first == uidNext else spans[0].start == first && spans[|spans| - 1].stop + 1 == uidNext)
  }

  /** Where window i starts, or the scan ends. */
  function From(spans: seq<Windows.Span>, i: nat, uidNext: nat): nat {
    if i < |spans| then spans[i].start else uidNext
  }

  lemma ChainAt(spans: seq<Windows.Span>, first: nat, uidNext: nat, i: nat)
    requires Chain(spans, first, uidNext) && i < |spans|
    ensures first <= From(spans, i, uidNext) == spans[i].start <= spans[i].stop < uidNext
    ensures From(spans, i + 1, uidNext) == spans[i].stop + 1
  {
  }

  /** The windows scanWindows runs through; there is room for one more above UIDNEXT. */
  method SpansOf(o: Opts, first: nat, uidNext: nat) returns (spans: seq<Windows.Span>)
    requires ConfigOk(o) && first <= uidNext && uidNext + o.uidBatch <= UID_LIMIT
    ensures Chain(spans, first, uidNext)
  {
    Windows.RoomIsEnough(first, uidNext, o.uidBatch);
    Windows.SpansCover(first, uidNext, o.uidBatch);
    spans := Windows.ScanWindows(first, uidNext, o.uidBatch);
  }

  /** Mirrors all windows above the mark: on success the mark has reached UIDNEXT - 1. */
  method ScanMain(w: World, uidNext: nat) returns (ok: bool)
    requires w.Valid() && w.sys.busy && w.sys.live == map[] && w.src.selected == Main
    requires uidNext <= w.sys.src.uidNext
    modifies w`run, w`sys, w`cons, w`sum, w.src`main, w.src`folders, w.src`asked, w.dst, w.client, w.store
    ensures w.Valid() && Mirrored(old(w.sys), w.sys)
    ensures old(w.src.asked) <= w.src.asked && Excused(w, old(w.sys), w.sys, |old(w.src.asked)|, w.src.asked)
    ensures ok ==> w.sys.live == map[] && uidNext <= w.sys.db.lastUid + 1 && NewNoted(w.o, old(w.sys), w.sys)
    ensures ok ==> Tally(old(w.sum), w.sum, w.sys.blank == {})
    ensures old(w.sys).db.lastUid + 1 >= uidNext ==> ok && w.sys == old(w.sys) && w.sum == old(w.sum)
    ensures w.healthy ==> ok
  {
    var first := w.store.db.lastUid + 1;
    if first >= uidNext { return true; }
    w.Safe();
    var spans := SpansOf(w.o, first, uidNext);
    ok := ScanSpans(w, spans, first, uidNext);
  }

  method ScanSpans(w: World, spans: seq<Windows.Span>, first: nat, uidNext: nat) returns (ok: bool)
    requires w.Valid() && w.sys.busy && w.sys.live == map[] && w.src.selected == Main
    requires uidNext <= w.sys.src.uidNext && Chain(spans, first, uidNext) && w.sys.db.lastUid + 1 == first
    modifies w`run, w`sys, w`cons, w`sum, w.src`main, w.src`folders, w.src`asked, w.dst, w.client, w.store
    ensures w.Valid() && Mirrored(old(w.sys), w.sys)
    ensures old(w.src.asked) <= w.src.asked && Excused(w, old(w.sys), w.sys, |old(w.src.asked)|, w.src.asked)
    ensures ok ==> w.sys.live == map[] && uidNext <= w.sys.db.lastUid + 1 && NewNoted(w.o, old(w.sys), w.sys)
    ensures ok ==> Tally(old(w.sum), w.sum, w.sys.blank == {})
    ensures w.healthy ==> ok
  {
    ghost var a, was := w.sys, w.src.asked;
    ok := true;
    for i := 0 to |spans|
      invariant w.Valid() && Scanned(w, a, was) && w.sys.live == map[]
      invariant w.sys.db.lastUid + 1 == From(spans, i, uidNext) && Tally(old(w.sum), w.sum, w.sys.blank == {})
    {
      var cancelled: bool :| w.healthy ==> !cancelled;
      if cancelled { return false; }
      ChainAt(spans, first, uidNext, i);
      ok := ScanNext(w, spans[i].start, spans[i].stop, a, was);
      if !ok { return; }
    }
  }

  /** Scanning since a, by when these bodies had been asked for. */
  ghost predicate Scanned(w: World, a: Sys, was: seq<map<nat, Key>>)
    reads w, w.src
  {
    && Mirrored(a, w.sys) && NewNoted(w.o, a, w.sys)
    && was <= w.src.asked && Excused(w, a, w.sys, |was|, w.src.asked)
  }

  method ScanNext(w: World, start: nat, stop: nat, ghost a: Sys, ghost was: seq<map<nat, Key>>)
    returns (ok: bool)
    requires w.Valid() && w.sys.busy && w.sys.live == map[] && w.src.selected == Main
    requires w.sys.db.lastUid + 1 == start <= stop < w.sys.src.uidNext && Scanned(w, a, was)
    modifies w`run, w`sys, w`cons, w`sum, w.src`main, w.src`folders, w.src`asked, w.dst, w.client, w.store
    ensures w.Valid() && Mirrored(a, w.sys) && was <= w.src.asked
    ensures Excused(w, a, w.sys, |was|, w.src.asked)
    ensures ok ==> w.sys.live == map[] && w.sys.db.lastUid == stop && Scanned(w, a, was)
    ensures ok ==> Tally(old(w.sum), w.sum, w.sys.blank == {})
    ensures old(w.sys).blank <= w.sys.blank
    ensures w.healthy ==> ok
  {
    ghost var b, m := w.sys, w.src.asked;
    ok := ScanWindow(w, start, stop);
    MirroredTwice(a, b, w.sys);
    ExcusedOn(w, a, b, w.sys, |was|, m, w.src.asked);
    if ok { StillNoted(w, a, b); }
  }

  // ---------------------------------------------------------------- seeding

  function SeedRecords(apps: map<nat, App>, copies: seq<nat>): (records: seq<KeyRecord>)
    requires forall i :: i in copies ==> i in apps
    ensures RecordedKeys(records) == set i | i in copies :: apps[i].key
  {
    if copies == [] then []
    else
      var n := |copies| - 1;
      assert copies == copies[..n] + [copies[n]];
      var init, last := SeedRecords(apps, copies[..n]), KeyRecord(apps[copies[n]].key, 0);
      assert forall r :: r in init + [last] <==> r in init || r == last;
      assert forall i :: i in copies <==> i in copies[..n] || i == copies[n];
      assert RecordedKeys(init + [last]) == RecordedKeys(init) + {last.key};
      init + [last]
  }

  /** Records the keys of some copies of a bucket. */
  method SeedBatch(w: World, copies: seq<nat>) returns (ok: bool)
    requires w.Valid() && w.sys.busy && w.sys.live == map[]
    requires forall i :: i in copies ==> i in w.sys.apps && w.sys.apps[i].landed
    modifies w`run, w`sys, w.store
    ensures w.Valid() && Copying(old(w.sys), w.sys) && w.sys.live == map[]
    ensures ok ==> forall i :: i in copies ==> w.sys.apps[i].key in w.sys.db.copied
    ensures w.healthy ==> ok
  {
    w.Safe();
    var records := SeedRecords(w.dst.apps, copies);
    ok := w.StoreSeen(records);
    forall i | ok && i in copies ensures w.sys.apps[i].key in w.sys.db.copied {
      assert w.sys.apps[i].key in RecordedKeys(records);
    }
  }

  /** The keys of those copies that still exist are recorded. */
  ghost predicate Seeded(s: Sys, ids: set<nat>) {
    forall i :: i in ids && i in s.apps ==> s.apps[i].key in s.db.copied
  }

  /** Those of ids with UIDs from start to before end. */
  function Between(ids: set<nat>, start: nat, end: nat): set<nat> {
    set i | i in ids && start <= i + 1 < end
  }

  lemma SeededMore(s: Sys, s': Sys, ids: set<nat>, a: nat, b: nat, c: nat)
    requires Seeded(s, Between(ids, a, b)) && Seeded(s', Between(ids, b, c))
    requires s.db.copied.Keys <= s'.db.copied.Keys
    requires forall i :: i in ids ==> i in s.apps && i in s'.apps && s.apps[i].key == s'.apps[i].key
    ensures Seeded(s', Between(ids, a, c))
  {
  }

  method SeedWindow(w: World, folder: Folder, start: nat, stop: nat) returns (ok: bool)
    requires w.Valid() && w.sys.busy && w.sys.live == map[] && w.dst.selected == Some(folder) && 1 <= start
    modifies w`run, w`sys, w.src`main, w.src`folders, w.dst`apps, w.store
    ensures w.Valid() && Copying(old(w.sys), w.sys) && w.sys.live == map[]
    ensures w.calm ==> Calm(old(w.dst.apps), w.dst.apps)
    ensures ok && w.calm && w.dst.shown <= old(w.InBucket(folder)) ==>
                  Seeded(w.sys, Between(w.dst.shown, start, stop + 1))
    ensures w.healthy ==> ok
  {
    ghost var a := w.sys;
    var copies;
    ok, copies := w.FetchCopies(folder, start, stop);
    if !ok { return; }
    ghost var b := w.sys;
    ok := SeedBatch(w, copies);
    CopyingTwice(a, b, w.sys);
  }

  /** Records the keys of everything a bucket holds. */
  method SeedFolder(w: World, folder: Folder) returns (ok: bool)
    requires w.Valid() && w.sys.busy && w.sys.live == map[]
    modifies w`run, w`sys, w.src`main, w.src`folders, w.dst`apps, w.dst`selected, w.dst`shown, w.store
    ensures w.Valid() && Copying(old(w.sys), w.sys) && w.sys.live == map[]
    ensures w.calm ==> Calm(old(w.dst.apps), w.dst.apps)
    ensures ok && w.calm ==> Seeded(w.sys, old(w.InBucket(folder)))
    ensures w.healthy && old(w.Room()) ==> ok
  {
    ghost var a := w.sys;
    var uidNext, messages;
    ok, uidNext, messages := w.SelectBucket(folder);
    ghost var shown := w.dst.shown;
    assert ok && w.calm ==> old(w.InBucket(folder)) <= shown;
    if !ok || messages == 0 {
      assert ok ==> shown == {};
      return;
    }
    ghost var b := w.sys;
    ok := SeedShown(w, folder, uidNext);
    CopyingTwice(a, b, w.sys);
  }

  /** What the bucket held when it was selected, window by window. */
  method SeedShown(w: World, folder: Folder, uidNext: nat) returns (ok: bool)
    requires w.Valid() && w.sys.busy && w.sys.live == map[]
    requires w.dst.selected == Some(folder) && w.dst.shown <= w.InBucket(folder)
    requires uidNext == w.dst.nextId + 1 && uidNext + w.o.uidBatch <= UID_LIMIT
    modifies w`run, w`sys, w.src`main, w.src`folders, w.dst`apps, w.store
    ensures w.Valid() && Copying(old(w.sys), w.sys) && w.sys.live == map[]
    ensures w.calm ==> Calm(old(w.dst.apps), w.dst.apps)
    ensures ok && w.calm ==> Seeded(w.sys, w.dst.shown)
    ensures w.healthy ==> ok
  {
    BelowNext(w, w.dst.shown, uidNext);
    var spans := SpansOf(w.o, 1, uidNext);
    ok := SeedSpans(w, folder, spans, uidNext);
  }

  lemma BelowNext(w: World, shown: set<nat>, uidNext: nat)
    requires w.Valid() && uidNext == w.dst.nextId + 1 && forall i :: i in shown ==> i in w.sys.apps
    ensures Between(shown, 1, uidNext) == shown && ConfigOk(w.o)
  {
    w.Safe();
  }

  method SeedSpans(w: World, folder: Folder, spans: seq<Windows.Span>, uidNext: nat) returns (ok: bool)
    requires w.Valid() && w.sys.busy && w.sys.live == map[]
    requires w.dst.selected == Some(folder) && w.dst.shown <= w.InBucket(folder) && Chain(spans, 1, uidNext)
    modifies w`run, w`sys, w.src`main, w.src`folders, w.dst`apps, w.store
    ensures w.Valid() && Copying(old(w.sys), w.sys) && w.sys.live == map[]
    ensures w.calm ==> Calm(old(w.dst.apps), w.dst.apps)
    ensures ok && w.calm ==> Seeded(w.sys, Between(w.dst.shown, 1, uidNext))
    ensures w.healthy ==> ok
  {
    ghost var a := w.sys;
    ok := true;
    for n := 0 to |spans|
      invariant w.Valid() && SeededTo(w, folder, a, From(spans, n, uidNext)) && w.sys.live == map[]
    {
      ChainAt(spans, 1, uidNext, n);
      ok := SeedNext(w, folder, spans[n].start, spans[n].stop, a);
      if !ok { return; }
    }
  }

  /** Seeding of a bucket since a has reached the copies with UIDs below end. */
  ghost predicate SeededTo(w: World, folder: Folder, a: Sys, end: nat)
    reads w, w.dst
  {
    && Copying(a, w.sys)
    && (w.calm ==> Calm(a.apps, w.dst.apps) && w.dst.shown <= w.InBucket(folder))
    && (w.calm ==> Seeded(w.sys, Between(w.dst.shown, 1, end)))
  }

  method SeedNext(w: World, folder: Folder, start: nat, stop: nat, ghost a: Sys) returns (ok: bool)
    requires w.Valid() && w.sys.live == map[] && w.sys.busy && w.dst.selected == Some(folder)
    requires 1 <= start <= stop && SeededTo(w, folder, a, start)
    modifies w`run, w`sys, w.src`main, w.src`folders, w.dst`apps, w.store
    ensures w.Valid() && Copying(a, w.sys) && w.sys.live == map[]
    ensures w.calm ==> Calm(a.apps, w.dst.apps)
    ensures ok ==> SeededTo(w, folder, a, stop + 1)
    ensures w.healthy ==> ok
  {
    ghost var b := w.sys;
    ok := SeedWindow(w, folder, start, stop);
    CopyingTwice(a, b, w.sys);
    if ok && w.calm { SeededMore(b, w.sys, w.dst.shown, 1, start, stop + 1); }
  }

  function LandedIn(s: Sys, folders: seq<Folder>): set<nat> {
    set i | i in s.apps && s.apps[i].landed && s.apps[i].folder in folders
  }

  /** Seeds from every bucket: where users keep still, each copy there is recorded. */
  method SeedFromDest(w: World) returns (ok: bool)
    requires w.Valid() && w.sys.busy && w.sys.live == map[]
    modifies w`run, w`sys, w.src`main, w.src`folders, w.dst`apps, w.dst`selected, w.dst`shown, w.store
    ensures w.Valid() && Copying(old(w.sys), w.sys)
    ensures ok && w.calm ==>
              forall i :: i in old(w.sys).apps && old(w.sys).apps[i].landed ==>
                old(w.sys).apps[i].key in w.sys.db.copied
    ensures w.healthy && old(w.Room()) ==> ok
  {
    ghost var a := w.sys;
    var folders := Buckets(w.o);
    ok := true;
    for n := 0 to |folders|
      invariant w.Valid() && w.sys.busy && w.sys.live == map[] && SeedsUpTo(w, a, folders[..n])
    {
      assert folders[..n + 1] == folders[..n] + [folders[n]];
      ok := SeedBucket(w, folders[..n], folders[n], a);
      if !ok { return; }
    }
    assert folders[..|folders|] == folders;
    w.Safe();
  }

  /** Since a the copies of these buckets have been recorded. */
  ghost predicate SeedsUpTo(w: World, a: Sys, folders: seq<Folder>)
    reads w, w.dst
  {
    && Copying(a, w.sys)
    && (w.calm ==> Calm(a.apps, w.dst.apps))
    && (w.calm ==> Seeded(w.sys, LandedIn(a, folders)))
  }

  method SeedBucket(w: World, ghost done: seq<Folder>, folder: Folder, ghost a: Sys) returns (ok: bool)
    requires w.Valid() && w.sys.busy && w.sys.live == map[] && SeedsUpTo(w, a, done)
    modifies w`run, w`sys, w.src`main, w.src`folders, w.dst`apps, w.dst`selected, w.dst`shown, w.store
    ensures w.Valid() && Copying(a, w.sys) && w.sys.live == map[] && w.sys.busy
    ensures ok ==> SeedsUpTo(w, a, done + [folder])
    ensures w.healthy && old(w.Room()) ==> ok
  {
    ghost var b := w.sys;
    ok := SeedFolder(w, folder);
    CopyingTwice(a, b, w.sys);
    if ok && w.calm { SeededBucket(a, b, w.sys, done, folder); }
  }

  lemma SeededBucket(a: Sys, b: Sys, c: Sys, done: seq<Folder>, folder: Folder)
    requires Seeded(b, LandedIn(a, done)) && Seeded(c, LandedIn(b, [folder]))
    requires Calm(a.apps, b.apps) && Calm(b.apps, c.apps) && b.db.copied.Keys <= c.db.copied.Keys
    ensures Seeded(c, LandedIn(a, done + [folder]))
  {
  }
}
