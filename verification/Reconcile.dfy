/** One full reconcile pass (Run in internal/reconcile/reconcile.go): membership, UIDVALIDITY
    reset, backfill, windowed mirror, propagation; and what may happen between passes. */
module Reconcile {
  import opened Wrappers
  import opened State
  import opened Placement
  import opened Protocol
  import opened Safety
  import opened Convergence
  import opened World
  import Sync
  import Mirror
  import Scan
  import Queue
  import Backfill
  import Pipeline
  import Promises

  // ------------------------------------------------------- between the passes

  method Begin(w: World)
    requires w.Valid() && !w.sys.busy
    modifies w`run, w`sys, w`sum
    ensures w.Valid() && w.sys == old(w.sys).(busy := true) && w.sum == NOTHING_DONE && w.sys.live == map[]
  {
    w.Safe();
    w.sum := NOTHING_DONE;
    w.Act(Protocol.Begin);
  }

  /** The session is over, by itself or by a crash: only the stores and the appends that are
      still under way remain. */
  method End(w: World)
    requires w.Valid()
    modifies w`run, w`sys, w`cons, w.src`selected, w.dst`open, w.dst`selected
    ensures w.Valid() && w.sys == SessionOver(old(w.sys))
  {
    w.Act(Protocol.End);
    w.cons := Pipeline.Idle();
    w.src.selected, w.dst.selected := Nothing, None;
    w.dst.open := {};
  }

  /** The state file is replaced by an earlier one, or by an empty one. */
  method Restore(w: World, db: Db)
    requires w.Valid() && !w.sys.busy && db in w.sys.hist
    modifies w`run, w`sys, w.store
    ensures w.Valid() && w.sys == Do(w.o, old(w.sys), Rollback(db))
  {
    w.Act(Rollback(db));
    w.store.db := db;
  }

  /** Source folders change while the mirror is down; some may start a new epoch. */
  method Reopen(w: World, main: Mailbox, folders: map<Folder, Mailbox>)
    requires w.Valid() && Enabled(w.o, w.sys, NewEpoch(main, folders))
    modifies w`run, w`sys, w.src
    ensures w.Valid() && w.sys == Do(w.o, old(w.sys), NewEpoch(main, folders))
  {
    w.Act(NewEpoch(main, folders));
    w.src.main, w.src.folders, w.src.selected := main, folders, Nothing;
  }

  // ------------------------------------------------------------------- reset

  /** Adopts a new UIDVALIDITY: the mark is reset first. */
  method AdoptEpoch(w: World, validity: nat) returns (ok: bool)
    requires w.Valid() && w.sys.busy && validity == w.sys.src.validity
    modifies w`run, w`sys, w`sum, w.store
    ensures w.Valid() && w.sys == old(w.sys).(db := w.sys.db, hist := w.sys.hist)
    ensures w.sys.db == old(w.sys).db.(lastUid := w.sys.db.lastUid, uidValidity := w.sys.db.uidValidity)
    ensures ok ==> w.sys.db.uidValidity == validity
    ensures old(w.sys).db.uidValidity == validity ==> w.sys == old(w.sys) && w.sum == old(w.sum)
    ensures old(w.sys).db.uidValidity != validity && ok ==> w.sys.db.lastUid == 0
    ensures w.sum == old(w.sum).(validityChanged := w.sum.validityChanged)
    ensures w.healthy ==> ok
  {
    ok :| w.healthy ==> ok;
    if !ok || w.store.db.uidValidity == validity { return; }
    if w.store.db.uidValidity != 0 { w.sum := w.sum.(validityChanged := true); }
    ok := ResetAndAdopt(w, validity);
  }

  method ResetAndAdopt(w: World, validity: nat) returns (ok: bool)
    requires w.Valid() && w.sys.busy && validity == w.sys.src.validity
    modifies w`run, w`sys, w.store
    ensures w.Valid() && w.sys == old(w.sys).(db := w.sys.db, hist := w.sys.hist)
    ensures w.sys.db == old(w.sys).db.(lastUid := w.sys.db.lastUid, uidValidity := w.sys.db.uidValidity)
    ensures ok ==> w.sys.db.lastUid == 0 && w.sys.db.uidValidity == validity
    ensures w.healthy ==> ok
  {
    ok := ClearMark(w);
    if ok { ok := StoreValidity(w, validity); }
  }

  method ClearMark(w: World) returns (ok: bool)
    requires w.Valid() && w.sys.busy
    modifies w`run, w`sys, w.store
    ensures w.Valid() && w.sys == old(w.sys).(db := w.sys.db, hist := w.sys.hist)
    ensures w.sys.db == if ok then old(w.sys).db.(lastUid := 0) else old(w.sys).db
    ensures w.healthy ==> ok
  {
    ok := w.store.SetLastUid(0);
    if ok { LogMark(w, ResetMark); }
  }

  ghost method LogMark(w: World, st: Step)
    requires st == ResetMark || st == Adopt
    requires Legal(w.o, w.run) && w.sys == Last(w.run) && w.sys.busy && (st == Adopt ==> w.sys.db.lastUid == 0)
    modifies w`run, w`sys
    ensures Legal(w.o, w.run) && w.sys == Last(w.run)
    ensures w.sys == old(w.sys).(db := w.sys.db, hist := w.sys.hist)
    ensures w.sys.db == if st == Adopt then old(w.sys).db.(uidValidity := old(w.sys).src.validity)
                        else old(w.sys).db.(lastUid := 0)
  {
    w.Act(st);
  }

  method StoreValidity(w: World, validity: nat) returns (ok: bool)
    requires w.Valid() && w.sys.busy && w.sys.db.lastUid == 0 && validity == w.sys.src.validity
    modifies w`run, w`sys, w.store
    ensures w.Valid() && w.sys == old(w.sys).(db := w.sys.db, hist := w.sys.hist)
    ensures w.sys.db == if ok then old(w.sys).db.(uidValidity := validity) else old(w.sys).db
    ensures w.healthy ==> ok
  {
    ok := w.store.SetUidValidity(validity);
    if ok { LogMark(w, Adopt); }
  }

  // ------------------------------------------------------------------ frames

  /** What the part of a pass after the membership scan may change: not the members. */
  ghost predicate Working(a: Sys, b: Sys) {
    && MailLater(a.src, b.src) && MailsLater(a.watched, b.watched)
    && b.db.members == a.db.members && b.db.folders == a.db.folders && b.distinct <= a.distinct
    && b.busy == a.busy && a.blank <= b.blank && a.names <= b.names
  }

  lemma WorkingTwice(a: Sys, b: Sys, c: Sys)
    requires Working(a, b) && Working(b, c)
    ensures Working(a, c)
  {
  }

  lemma Works(o: Opts, a: Sys, b: Sys)
    requires Drift(a, b) || Backfill.Backfilling(o, a, b) || Scan.Mirrored(a, b) || Queue.Draining(a, b)
    ensures Working(a, b)
  {
  }

  /** Nothing has been copied or recorded yet. */
  ghost predicate Before(a: Sys, b: Sys) {
    b.live == map[] && b.blank == a.blank && b.db.copied == a.db.copied && Traced(a, b)
  }

  lemma DriftBefore(a: Sys, b: Sys)
    requires Drift(a, b) && a.live == map[]
    ensures Before(a, b)
  {
  }

  /** What holds of copying since b holds since a. */
  lemma CopiedSince(w: World, a: Sys, b: Sys, c: Sys, lo: nat, asked: seq<map<nat, Key>>)
    requires Before(a, b) && Scan.Excused(w, b, c, lo, asked)
    ensures Scan.Excused(w, a, c, lo, asked)
    ensures Scan.NewNoted(w.o, b, c) ==> Scan.NewNoted(w.o, a, c)
  {
    if Scan.NewNoted(w.o, b, c) {
      forall k | k in c.db.copied && k !in a.db.copied ensures k in AppKeys(a.apps) || Noted(w.o, c, k) {
        if k in AppKeys(b.apps) {
          var i :| i in b.apps && b.apps[i].key == k;
          assert i in a.apps && a.apps[i].key == k;
        }
      }
    }
  }

  /** What holds of copying up to b still holds after the queue was drained. */
  lemma CopiedStays(w: World, a: Sys, b: Sys, c: Sys, lo: nat, asked: seq<map<nat, Key>>)
    requires Scan.Excused(w, a, b, lo, asked) && Scan.NewNoted(w.o, a, b) && Queue.Draining(b, c) && lo <= |asked|
    requires w.Valid() && w.sys == c
    ensures Scan.Excused(w, a, c, lo, asked) && Scan.NewNoted(w.o, a, c)
  {
    Scan.ExcusedOn(w, a, b, c, lo, asked, asked);
    Mirror.OpenKnown(w);
    NotedAll(w.o, a, b, c);
  }

  lemma NotedAll(o: Opts, a: Sys, b: Sys, c: Sys)
    requires Scan.NewNoted(o, a, b) && Queue.Draining(b, c) && SoleInv(o, c) && LiveInv(o, c)
    ensures Scan.NewNoted(o, a, c)
  {
    forall k | k in c.db.copied && k !in a.db.copied ensures k in AppKeys(a.apps) || Noted(o, c, k) {
      if k !in AppKeys(a.apps) { Mirror.NotedStays(o, b, c, k); }
    }
  }

  ghost predicate SameSource(a: Sys, b: Sys) { b.src == a.src && b.watched == a.watched }

  /** The mailboxes are well formed, and the mark skips nothing. */
  lemma Sound(w: World)
    requires w.Valid()
    ensures MailOk(w.o, w.sys.src) && MailsOk(w.o, w.sys.watched)
    ensures w.sys.db.uidValidity == w.sys.src.validity ==>
              Covered(w.sys.src, w.sys.db.copied, w.sys.blank, w.sys.db.lastUid)
  {
    w.Safe();
    assert CommittedOk(w.sys, w.sys.db);
  }

  /** Sources that end as they began were never different. */
  lemma NeverOther(w: World, a: Sys, b: Sys)
    requires w.Valid() && SameSource(a, w.sys) && MailOk(w.o, a.src) && MailOk(w.o, b.src)
    requires MailLater(a.src, b.src) && MailLater(b.src, w.sys.src)
    requires MailsLater(a.watched, b.watched) && MailsLater(b.watched, w.sys.watched)
    requires MailsOk(w.o, a.watched) && MailsOk(w.o, b.watched)
    ensures SameSource(a, b)
  {
    Sync.NeverDifferent(w.o, a.src, b.src, w.sys.src);
    Sync.WatchedSame(w, a, b);
  }

  // ------------------------------------------------------------------- passes

  predicate Propagates(o: Opts) { Routing(o) || o.labelPropagate }

  /** Nothing to do. */
  ghost predicate Quiet(w: World, s: Sys) {
    && Sync.MembershipQuiet(w, s)
    && s.db.uidValidity == s.src.validity && s.src.uidNext <= s.db.lastUid + 1
    && !Stale(w.o, s.db)
    && (Propagates(w.o) ==> s.db.pending == [])
  }

  /** What a completed pass leaves, a being the state it began with: everything that was in
      the source folder then and still is has been recorded, or its body never came; the
      watched folders are followed; no backfill is due and no operation is left. */
  ghost predicate Complete(w: World, a: Sys, s: Sys) {
    && s.db.uidValidity == s.src.validity && a.src.uidNext <= s.db.lastUid + 1
    && Covered(s.src, s.db.copied, s.blank, s.db.lastUid)
    && (forall f :: Watched(w.o, w.src.special, a.watched.Keys, f) ==>
          f in a.watched && Sync.FolderDone(s, f, a.watched[f]))
    && !Stale(w.o, s.db)
    && (Propagates(w.o) ==> s.db.pending == [])
  }

  /** Mirror and propagation, once membership, epoch and placement are settled. */
  method CopyAndPropagate(w: World, uidNext: nat) returns (ok: bool)
    requires w.Valid() && w.sys.busy && w.sys.live == map[] && w.src.selected == Main && uidNext <= w.sys.src.uidNext
    modifies w`run, w`sys, w`cons, w`sum, w.src`main, w.src`folders, w.src`asked, w.dst, w.client, w.store
    ensures w.Valid() && Working(old(w.sys), w.sys)
    ensures old(w.src.asked) <= w.src.asked
    ensures Scan.Excused(w, old(w.sys), w.sys, |old(w.src.asked)|, w.src.asked)
    ensures ok ==> Scan.NewNoted(w.o, old(w.sys), w.sys)
    ensures w.sys.db.uidValidity == old(w.sys).db.uidValidity && w.sys.db.fingerprint == old(w.sys).db.fingerprint
    ensures ok ==> uidNext <= w.sys.db.lastUid + 1 && (Propagates(w.o) ==> w.sys.db.pending == [])
    ensures uidNext <= old(w.sys).db.lastUid + 1 && (Propagates(w.o) ==> old(w.sys).db.pending == []) ==>
              w.sys == old(w.sys) && w.sum == old(w.sum)
    ensures w.healthy ==> ok
  {
    ghost var a, n := w.sys, |w.src.asked|;
    ok := Scan.ScanMain(w, uidNext);
    Works(w.o, a, w.sys);
    if !ok || !Propagates(w.o) { return; }
    ghost var b := w.sys;
    ok := Queue.Propagate(w);
    Works(w.o, b, w.sys);
    WorkingTwice(a, b, w.sys);
    CopiedStays(w, a, b, w.sys, n, w.src.asked);
  }

  /** Nothing to do for the source folder, the placement or the queue. */
  ghost predicate MainQuiet(o: Opts, s: Sys, uidNext: nat) {
    && s.db.uidValidity == s.src.validity && uidNext <= s.db.lastUid + 1
    && !Stale(o, s.db)
    && (Propagates(o) ==> s.db.pending == [])
  }

  /** Everything after the source folder was selected. */
  method MirrorSelected(w: World, validity: nat, uidNext: nat) returns (ok: bool)
    requires w.Valid() && w.sys.busy && w.sys.live == map[] && w.src.selected == Main
    requires validity == w.sys.src.validity && uidNext <= w.sys.src.uidNext
    modifies w`run, w`sys, w`cons, w`sum, w.src`main, w.src`folders, w.src`asked, w.dst, w.client, w.store
    ensures w.Valid() && Working(old(w.sys), w.sys)
    ensures old(w.src.asked) <= w.src.asked
    ensures Scan.Excused(w, old(w.sys), w.sys, |old(w.src.asked)|, w.src.asked)
    ensures ok ==> Scan.NewNoted(w.o, old(w.sys), w.sys)
    ensures ok ==> w.sys.db.uidValidity == validity && uidNext <= w.sys.db.lastUid + 1
    ensures ok ==> !Stale(w.o, w.sys.db) && (Propagates(w.o) ==> w.sys.db.pending == [])
    ensures MainQuiet(w.o, old(w.sys), uidNext) ==> w.sys == old(w.sys) && w.sum == old(w.sum)
    ensures w.healthy && old(w.Room()) ==> ok
  {
    ghost var a := w.sys;
    ok := Settle(w, validity);
    if !ok { return; }
    ghost var b, n := w.sys, |w.src.asked|;
    ok := CopyAndPropagate(w, uidNext);
    WorkingTwice(a, b, w.sys);
    CopiedSince(w, a, b, w.sys, n, w.src.asked);
  }

  /** Epoch and placement. */
  method Settle(w: World, validity: nat) returns (ok: bool)
    requires w.Valid() && w.sys.busy && w.sys.live == map[] && validity == w.sys.src.validity
    modifies w`run, w`sys, w`sum, w.src`main, w.src`folders, w.dst`apps, w.dst`selected, w.dst`shown, w.store
    ensures w.Valid() && Working(old(w.sys), w.sys) && Before(old(w.sys), w.sys)
    ensures ok ==> w.sys.db.uidValidity == validity && !Stale(w.o, w.sys.db)
    ensures old(w.sys).db.uidValidity == validity && !Stale(w.o, old(w.sys).db) ==>
              w.sys == old(w.sys) && w.sum == old(w.sum)
    ensures w.healthy && old(w.Room()) ==> ok
  {
    ghost var a := w.sys;
    ok := AdoptEpoch(w, validity);
    if !ok { return; }
    ghost var b := w.sys;
    ok := Backfill.MaybeBackfill(w);
    Works(w.o, b, w.sys);
    BackfillBefore(w.o, a, b, w.sys);
  }

  lemma BackfillBefore(o: Opts, a: Sys, b: Sys, c: Sys)
    requires b == a.(db := b.db, hist := b.hist) && b.db.copied == a.db.copied && Backfill.Backfilling(o, b, c)
    requires a.live == map[]
    ensures Before(a, c)
  {
  }

  /** Everything after the membership scan. */
  method MirrorMain(w: World) returns (ok: bool)
    requires w.Valid() && w.sys.busy && w.sys.live == map[]
    modifies w`run, w`sys, w`cons, w`sum, w.src`main, w.src`folders, w.src`asked, w.src`selected
    modifies w.dst, w.client, w.store
    ensures w.Valid() && Working(old(w.sys), w.sys)
    ensures old(w.src.asked) <= w.src.asked
    ensures Scan.Excused(w, old(w.sys), w.sys, |old(w.src.asked)|, w.src.asked)
    ensures ok ==> Scan.NewNoted(w.o, old(w.sys), w.sys)
    ensures ok ==>
              && w.sys.db.uidValidity == w.sys.src.validity && old(w.sys).src.uidNext <= w.sys.db.lastUid + 1
              && !Stale(w.o, w.sys.db) && (Propagates(w.o) ==> w.sys.db.pending == [])
    ensures MainQuiet(w.o, old(w.sys), old(w.sys).src.uidNext) && SameSource(old(w.sys), w.sys) ==>
              Drift(old(w.sys), w.sys) && w.sum == old(w.sum)
    ensures w.healthy && old(w.Room()) ==> ok
  {
    ghost var a := w.sys;
    Sound(w);
    var validity, uidNext;
    ok, validity, uidNext := w.Select(Main);
    ghost var b := w.sys;
    Works(w.o, a, b);
    Sound(w);
    if !ok { return; }
    ghost var n := |w.src.asked|;
    ok := MirrorSelected(w, validity, uidNext);
    WorkingTwice(a, b, w.sys);
    DriftBefore(a, b);
    CopiedSince(w, a, b, w.sys, n, w.src.asked);
    if SameSource(a, w.sys) { SelectedSame(w, a, b); }
  }

  lemma SelectedSame(w: World, a: Sys, b: Sys)
    requires w.Valid() && SameSource(a, w.sys) && Drift(a, b) && Working(b, w.sys) && MailOk(w.o, a.src)
    requires MailsOk(w.o, a.watched)
    requires MailOk(w.o, b.src) && MailsOk(w.o, b.watched)
    ensures SameSource(a, b)
  {
    NeverOther(w, a, b);
  }

  /** The sources have gone on within their epochs. */
  ghost predicate Onward(a: Sys, b: Sys) {
    MailLater(a.src, b.src) && MailsLater(a.watched, b.watched) && b.distinct <= a.distinct
  }

  /** One full pass within an open session. */
  method Pass(w: World) returns (ok: bool)
    requires w.Valid() && w.sys.busy && w.sys.live == map[]
    modifies w`run, w`sys, w`cons, w`sum, w.src`main, w.src`folders, w.src`asked, w.src`selected
    modifies w.dst, w.client, w.store
    ensures w.Valid() && Onward(old(w.sys), w.sys)
    ensures old(w.src.asked) <= w.src.asked
    ensures Scan.Excused(w, old(w.sys), w.sys, |old(w.src.asked)|, w.src.asked)
    ensures ok ==> Scan.NewNoted(w.o, old(w.sys), w.sys)
    ensures ok ==> Complete(w, old(w.sys), w.sys)
    ensures Quiet(w, old(w.sys)) && SameSource(old(w.sys), w.sys) ==> Drift(old(w.sys), w.sys) && w.sum == old(w.sum)
    ensures old(w.Able()) ==> ok
  {
    ghost var a := w.sys;
    Sound(w);
    ok := Sync.SyncMembership(w);
    ghost var b := w.sys;
    MemberedSo(w, a, b, |w.src.asked|);
    if !ok { return; }
    ok := MirrorMembered(w, a);
    QuietPass(w, a, b, w.sys);
  }

  lemma MemberedSo(w: World, a: Sys, b: Sys, n: nat)
    requires Sync.Membered(a, b)
    ensures Onward(a, b) && Scan.Excused(w, a, b, n, w.src.asked)
  {
  }

  /** A pass with nothing to do is up to the environment, membership and mirror alike. */
  lemma QuietPass(w: World, a: Sys, b: Sys, c: Sys)
    requires Sync.MembershipQuiet(w, a) && b.watched == a.watched ==> Drift(a, b)
    requires SameSource(a, c) ==> SameSource(a, b)
    ensures Quiet(w, a) && SameSource(a, c) ==> Drift(a, b) && SameSource(b, c) && MainQuiet(w.o, b, b.src.uidNext)
    ensures Drift(a, b) && Drift(b, c) ==> Drift(a, c)
  {
    if Drift(a, b) && Drift(b, c) { DriftTwice(a, b, c); }
  }

  /** The pass after the membership scan; a is the state at its start. */
  method MirrorMembered(w: World, ghost a: Sys) returns (ok: bool)
    requires w.Valid() && w.sys.busy && w.sys.live == map[] && Sync.Membered(a, w.sys) && a.live == map[]
    requires MailOk(w.o, a.src) && MailsOk(w.o, a.watched) && Sync.MembershipDone(w, a)
    modifies w`run, w`sys, w`cons, w`sum, w.src`main, w.src`folders, w.src`asked, w.src`selected
    modifies w.dst, w.client, w.store
    ensures w.Valid() && Onward(a, w.sys) && old(w.src.asked) <= w.src.asked
    ensures Scan.Excused(w, a, w.sys, |old(w.src.asked)|, w.src.asked)
    ensures ok ==> Scan.NewNoted(w.o, a, w.sys) && Complete(w, a, w.sys)
    ensures SameSource(a, w.sys) ==> SameSource(a, old(w.sys))
    ensures MainQuiet(w.o, old(w.sys), old(w.sys).src.uidNext) && SameSource(old(w.sys), w.sys) ==>
              Drift(old(w.sys), w.sys) && w.sum == old(w.sum)
    ensures w.healthy && old(w.Room()) ==> ok
  {
    ghost var b, n := w.sys, |w.src.asked|;
    Sound(w);
    ok := MirrorMain(w);
    Later(a, b, w.sys);
    CopiedSince(w, a, b, w.sys, n, w.src.asked);
    if ok { PassComplete(w, a, b); }
    if SameSource(a, w.sys) { PassQuiet(w, a, b); }
  }

  lemma Later(a: Sys, b: Sys, c: Sys)
    requires Sync.Membered(a, b) && Working(b, c)
    ensures Onward(a, c)
  {
  }

  lemma PassComplete(w: World, a: Sys, b: Sys)
    requires w.Valid() && Sync.Membered(a, b) && Working(b, w.sys)
    requires MailsOk(w.o, a.watched) && MailsOk(w.o, b.watched)
    requires forall f :: Watched(w.o, w.src.special, a.watched.Keys, f) ==>
               f in a.watched && Sync.FolderDone(b, f, a.watched[f])
    requires w.sys.db.uidValidity == w.sys.src.validity && b.src.uidNext <= w.sys.db.lastUid + 1
    requires !Stale(w.o, w.sys.db) && (Propagates(w.o) ==> w.sys.db.pending == [])
    ensures Complete(w, a, w.sys)
  {
    Sound(w);
    forall f | Watched(w.o, w.src.special, a.watched.Keys, f)
      ensures f in a.watched && Sync.FolderDone(w.sys, f, a.watched[f])
    {
      StaysDone(w.o, a, b, w.sys, f);
    }
  }

  /** A folder done stays done while its rows are left alone. */
  lemma StaysDone(o: Opts, a: Sys, b: Sys, c: Sys, f: Folder)
    requires f in a.watched && Sync.FolderDone(b, f, a.watched[f])
    requires MailsLater(a.watched, b.watched) && Working(b, c)
    requires MailsOk(o, a.watched) && MailsOk(o, b.watched) && MailsOk(o, c.watched)
    ensures Sync.FolderDone(c, f, a.watched[f])
  {
    assert MailLater(a.watched[f], b.watched[f]) && MailLater(b.watched[f], c.watched[f]);
    if c.watched[f] == a.watched[f] {
      Sync.NeverDifferent(o, a.watched[f], b.watched[f], c.watched[f]);
    }
  }

  lemma PassQuiet(w: World, a: Sys, b: Sys)
    requires w.Valid() && SameSource(a, w.sys) && Sync.Membered(a, b) && Working(b, w.sys)
    requires MailOk(w.o, a.src) && MailsOk(w.o, a.watched) && MailOk(w.o, b.src) && MailsOk(w.o, b.watched)
    ensures SameSource(a, b)
  {
    NeverOther(w, a, b);
  }

  /** One reconcile run, from opening to closing the session; last is its state just before
      the close. Whatever it left out, some body stream left out; what it newly recorded had a
      copy at the start, or is tracked. */
  method Run(w: World) returns (ok: bool, ghost last: Sys)
    requires w.Valid() && !w.sys.busy
    modifies w`run, w`sys, w`cons, w`sum, w.src`main, w.src`folders, w.src`asked, w.src`selected
    modifies w.dst, w.client, w.store
    ensures w.Valid() && w.sys == SessionOver(last) && Onward(old(w.sys), w.sys)
    ensures old(w.src.asked) <= w.src.asked
    ensures Scan.Excused(w, old(w.sys), last, |old(w.src.asked)|, w.src.asked)
    ensures ok ==> Complete(w, old(w.sys), w.sys) && Scan.NewNoted(w.o, old(w.sys), last)
    ensures Quiet(w, old(w.sys)) && SameSource(old(w.sys), w.sys) ==>
              Drift(old(w.sys).(busy := true), last) && w.sum == NOTHING_DONE
    ensures old(w.Able()) ==> ok
  {
    ghost var a := w.sys;
    Begin(w);
    ok, last := Session(w);
    StillComplete(w, a, last);
  }

  method Session(w: World) returns (ok: bool, ghost last: Sys)
    requires w.Valid() && w.sys.busy && w.sys.live == map[]
    modifies w`run, w`sys, w`cons, w`sum, w.src`main, w.src`folders, w.src`asked, w.src`selected
    modifies w.dst, w.client, w.store
    ensures w.Valid() && w.sys == SessionOver(last) && Onward(old(w.sys), last)
    ensures old(w.src.asked) <= w.src.asked
    ensures Scan.Excused(w, old(w.sys), last, |old(w.src.asked)|, w.src.asked)
    ensures ok ==> Complete(w, old(w.sys), last) && Scan.NewNoted(w.o, old(w.sys), last)
    ensures Quiet(w, old(w.sys)) && SameSource(old(w.sys), last) ==> Drift(old(w.sys), last) && w.sum == old(w.sum)
    ensures old(w.Able()) ==> ok
  {
    ok := Pass(w);
    last := w.sys;
    End(w);
  }

  /** What a pass has achieved outlasts its session. */
  lemma StillComplete(w: World, a: Sys, s: Sys)
    ensures Onward(a.(busy := true), s) ==> Onward(a, SessionOver(s))
    ensures Complete(w, a.(busy := true), s) ==> Complete(w, a, SessionOver(s))
    ensures Scan.NewNoted(w.o, a.(busy := true), s) ==> Scan.NewNoted(w.o, a, s)
  {
  }

  /** On unchanged sources a completed run leaves nothing to do. */
  lemma CompleteIsQuiet(w: World, a: Sys, s: Sys)
    requires Complete(w, a, s) && SameSource(a, s)
    ensures Quiet(w, s)
  {
    forall f | Watched(w.o, w.src.special, s.watched.Keys, f) ensures Sync.FolderQuiet(s, f) {
      assert Sync.FolderDone(s, f, a.watched[f]);
    }
  }

  /** Two runs in a row, with mid the state between them and last the one at the end of the
      second: after a successful first one, where the sources do not change, the second one
      leaves everything to the environment. It writes nothing to the store, issues no append,
      moves and retags no copy, and its summary counts nothing. In a healthy world it succeeds,
      too, if there is room left after the first one. */
  method RunTwice(w: World) returns (ok: bool, again: bool, ghost room: bool, ghost mid: Sys, ghost last: Sys)
    requires w.Valid() && !w.sys.busy
    modifies w`run, w`sys, w`cons, w`sum, w.src`main, w.src`folders, w.src`asked, w.src`selected
    modifies w.dst, w.client, w.store
    ensures w.Valid() && w.sys == SessionOver(last) && (ok ==> Complete(w, old(w.sys), mid))
    ensures ok && SameSource(old(w.sys), w.sys) ==>
              Drift(mid.(busy := true), last) && w.sys.db == mid.db && w.sum == NOTHING_DONE
    ensures old(w.Able()) ==> ok && (room ==> again)
  {
    ghost var a := w.sys;
    Sound(w);
    ghost var first;
    ok, first := Run(w);
    mid, room := w.sys, w.Room();
    Sound(w);
    again, last := Run(w);
    if SameSource(a, w.sys) {
      NeverOther(w, a, mid);
      if ok { CompleteIsQuiet(w, a, mid); }
    }
  }

  // ------------------------------------------------------------------- seeding

  datatype SeedPolicy = SeedNever | SeedEmpty | SeedAlways

  /** Seeds the store from the destination when the policy says so. */
  method MaybeSeed(w: World, policy: SeedPolicy) returns (ok: bool)
    requires w.Valid() && !w.sys.busy
    modifies w`run, w`sys, w`cons, w`sum, w.src, w.dst, w.store
    ensures w.Valid() && !w.sys.busy
    ensures w.sys.db.members == old(w.sys).db.members && w.sys.db.lastUid == old(w.sys).db.lastUid
    ensures ok && w.calm && (policy == SeedAlways || (policy == SeedEmpty && old(w.sys).db.copied == map[])) ==>
              forall i :: i in old(w.sys).apps && old(w.sys).apps[i].landed ==>
                old(w.sys).apps[i].key in w.sys.db.copied
    ensures policy == SeedNever || (policy == SeedEmpty && old(w.sys).db.copied != map[]) ==> w.sys.db == old(w.sys).db
    ensures w.healthy && old(w.Room()) ==> ok
  {
    ok := true;
    if policy == SeedNever || (policy == SeedEmpty && w.store.db.copied != map[]) { return; }
    Begin(w);
    ok := Scan.SeedFromDest(w);
    End(w);
  }

  /** Where a completed run leaves the copies: each whose placement is tracked in the bucket its
      membership asks for, and with the tracked keyword of a label of its own exactly if it is a
      member. */
  lemma CompleteConverges(w: World, a: Sys, i: nat)
    requires w.Valid() && Complete(w, a, w.sys) && Propagates(w.o) && i in w.sys.apps
    ensures i in w.sys.placed ==> w.sys.apps[i].folder == DestFor(w.o, w.sys.db, w.sys.apps[i].key)
    ensures w.o.labelPropagate ==>
              forall f :: OwnKeyword(w.o, w.sys, f) && TracksKeyword(w.sys, i, Kw(w.o, f)) ==>
                (Kw(w.o, f) in w.sys.apps[i].flags <==> (f, w.sys.apps[i].key) in w.sys.db.members)
  {
    Promises.Converged(w.o, w.run, |w.run.states| - 1, i);
  }
}
