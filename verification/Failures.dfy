/** Where the promises of the mirror end: runs that fail, and exactly when they do. */
module Failures {
  import opened Wrappers
  import opened State
  import opened Placement
  import opened Protocol
  import opened Safety
  import opened Convergence
  import opened Tracking
  import opened Guarantees
  import opened OpLog
  import opened Promises
  import Sync
  import K = Key

  // -------------------------------------------------------------- the guard

  /** Some run of a mirror whose store was not empty at its start, nor held the destination more
      than one copy of k then, ends with two landed copies of k. */
  ghost predicate Doubles(o: Opts, k: Key) {
    exists r :: Legal(o, r) && r.states[0].db.copied != map[] && Alone(r.states[0], k) && TwoCopies(Last(r), k)
  }

  ghost predicate TwoCopies(s: Sys, k: Key) {
    exists i, j :: i != j && i in s.apps && j in s.apps && s.apps[i].landed && s.apps[j].landed
                   && s.apps[i].key == k && s.apps[j].key == k
  }

  /** The guard searches for this key before it is appended. */
  predicate GuardSees(o: Opts, k: Key) { o.destGuard && K.IsRealMessageID(k) }

  /** A key stays single over all runs if and only if the guard is on and can search for it: a
      message without a Message-ID is appended twice after a crash, guard or not. Seeding an empty
      store does not replace the guard: the store need not be empty when a crash leaves an append
      unrecorded. */
  lemma GuardIff(o: Opts, k: Key)
    requires ConfigOk(o) && k != "" && o.uidBatch + 2 <= UID_LIMIT
    ensures Doubles(o, k) <==> !GuardSees(o, k)
  {
    if GuardSees(o, k) {
      forall r | Legal(o, r) && Alone(r.states[0], k) && TwoCopies(Last(r), k) ensures false {
        OneAtMost(o, r, k);
      }
    } else {
      var r := UnrecordedRun(o, k);
      AppendAgain(o, r, k);
    }
  }

  lemma OneAtMost(o: Opts, r: Run, k: Key)
    requires o.destGuard && Legal(o, r) && K.IsRealMessageID(k) && Alone(r.states[0], k)
    ensures !TwoCopies(Last(r), k)
  {
    if TwoCopies(Last(r), k) {
      var s := Last(r);
      var i, j :| i != j && i in s.apps && j in s.apps && s.apps[i].key == k && s.apps[j].key == k;
      AtMostOnce(o, r, |r.states| - 1, i, j);
      OriginStays(o, r, |r.states| - 1);
      assert false;
    }
  }

  /** The source holds a message with key k, which is not recorded, no append is open, and no user
      has touched a copy. */
  ghost predicate Open(o: Opts, r: Run, k: Key) {
    && Legal(o, r) && HandsOff(r) && k !in Last(r).db.copied && Last(r).live == map[]
    && Last(r).src == Mailbox(1, 2, map[1 := k]) && Last(r).watched == map[] && MessageIs(Last(r), 1, k)
  }

  /** At first the store knows another key, and the destination is empty. */
  ghost predicate OtherKnown(r: Run) {
    |r.states| > 0 && r.states[0].db.copied != map[] && r.states[0].apps == map[]
  }

  /** The store holds another key already; the append of k lands, and the mirror crashes. */
  lemma UnrecordedRun(o: Opts, k: Key) returns (r: Run)
    requires ConfigOk(o) && !GuardSees(o, k) && k != "" && o.uidBatch + 2 <= UID_LIMIT
    ensures Open(o, r, k) && OtherKnown(r) && !Last(r).busy && Last(r).arrived == {1}
    ensures Last(r).apps.Keys == {1} && Last(r).apps[1].key == k && Last(r).apps[1].landed
  {
    var r0 := AdoptedOther(o, k);
    var r1 := SentRun(o, k, r0, 1);
    LegalThen(o, r1, End);
    HandsOffThen(o, r1, End);
    r := Then(o, r1, End);
  }

  lemma AdoptedOther(o: Opts, k: Key) returns (r: Run)
    requires ConfigOk(o) && k != "" && o.uidBatch + 2 <= UID_LIMIT
    ensures Open(o, r, k) && OtherKnown(r) && Last(r).busy && Last(r).apps == map[] && Last(r).arrived == {}
  {
    var other := k + "'";
    var db := EMPTY.(copied := map[other := 0]);
    var s0 := Start(o, Mailbox(1, 2, map[1 := k]), map[], db, map[], {other});
    assert other in s0.db.copied && |other| != |k|;
    assert (1, k) in NamesIn(s0.src) by { assert s0.src.msgs[1] == k; }
    var r0 := Run([s0], []);
    r := EpochRun(o, k, r0);
  }

  /** The first session adopts the epoch. */
  lemma EpochRun(o: Opts, k: Key, r: Run) returns (r': Run)
    requires Open(o, r, k) && !Last(r).busy && Last(r).db.lastUid == 0
    ensures Open(o, r', k) && r'.states[0] == r.states[0] && Last(r').busy
    ensures Last(r').apps == Last(r).apps && Last(r').arrived == Last(r).arrived
    ensures Last(r').db == Last(r).db.(uidValidity := 1) && Last(r').hist == Last(r).hist + {Last(r').db}
  {
    LegalThen(o, r, Begin);
    HandsOffThen(o, r, Begin);
    var r1 := Then(o, r, Begin);
    LegalThen(o, r1, Adopt);
    HandsOffThen(o, r1, Adopt);
    r' := Then(o, r1, Adopt);
  }

  /** The body of k is fetched and appended under a new id, and the append lands. */
  lemma SentRun(o: Opts, k: Key, r: Run, id: nat) returns (r': Run)
    requires Open(o, r, k) && Last(r).busy && id !in Last(r).apps && id !in Last(r).arrived
    requires ConfigOk(o) && (GuardSees(o, k) ==> k in Last(r).cleared) && k != "" && o.uidBatch + 2 <= UID_LIMIT
    requires Last(r).arrived == Last(r).apps.Keys == LandedIds(Last(r).apps)
    ensures Legal(o, r') && HandsOff(r') && r'.states[0] == r.states[0] && Last(r').busy && Last(r').db == Last(r).db
    ensures Last(r').src == Last(r).src && Last(r').watched == map[] && MessageIs(Last(r'), 1, k)
    ensures Last(r').live == map[id := k] && Last(r').arrived == Last(r).arrived + {id}
    ensures Last(r').confirmed == {} && Last(r').hist == Last(r).hist
    ensures Last(r').apps == Last(r).apps[id := App(k, DestFor(o, Last(r).db, k), KeywordsOf(o, Last(r).db, k), true)]
  {
    var r1 := IssuedRun(o, k, r, id);
    r' := LandRun(o, r1, id);
  }

  lemma LandRun(o: Opts, r: Run, id: nat) returns (r': Run)
    requires Legal(o, r) && HandsOff(r) && id in Last(r).apps && Last(r).watched == map[] && MailOk(o, Last(r).src)
    ensures Legal(o, r') && HandsOff(r') && r'.states[0] == r.states[0] && Last(r').busy == Last(r).busy
    ensures Last(r').db == Last(r).db && Last(r').hist == Last(r).hist
    ensures Last(r').src == Last(r).src && Last(r').watched == map[]
    ensures Last(r).names <= Last(r').names && Last(r').live == Last(r).live && Last(r').confirmed == Last(r).confirmed
    ensures Last(r').apps == Last(r).apps[id := Last(r).apps[id].(landed := true)]
    ensures Last(r').arrived == Last(r).arrived + LandedIds(Last(r).apps) + {id}
  {
    var landed := Env(Last(r).src, map[], Last(r).apps[id := Last(r).apps[id].(landed := true)]);
    LandsNow(o, Last(r), landed, id);
    LegalThen(o, r, landed);
    HandsOffThen(o, r, landed);
    r' := Then(o, r, landed);
  }

  /** An append may land at any time; nothing else happens. */
  lemma LandsNow(o: Opts, s: Sys, st: Step, id: nat)
    requires id in s.apps && s.watched == map[] && MailOk(o, s.src)
    requires st == Env(s.src, map[], s.apps[id := s.apps[id].(landed := true)])
    ensures Enabled(o, s, st) && NotEdited(s.apps, st.apps)
    ensures var s' := Do(o, s, st);
            && s' == s.(apps := st.apps, names := s'.names, arrived := s'.arrived, observed := s'.observed,
                        distinct := s'.distinct, refiled := s'.refiled, placed := s'.placed, retagged := s'.retagged,
                        loose := s'.loose)
            && s'.arrived == s.arrived + LandedIds(s.apps) + {id} && s.names <= s'.names
  {
    assert LandedIds(st.apps) == LandedIds(s.apps) + {id};
  }

  lemma NoneConfirmed(o: Opts, r: Run, k: Key)
    requires Open(o, r, k)
    ensures Last(r).confirmed == {}
  {
    RunKeeps(o, r, |r.states| - 1);
  }

  lemma IssuedRun(o: Opts, k: Key, r: Run, id: nat) returns (r': Run)
    requires Open(o, r, k) && Last(r).busy && id !in Last(r).apps && id !in Last(r).arrived
    requires ConfigOk(o) && (GuardSees(o, k) ==> k in Last(r).cleared) && k != "" && o.uidBatch + 2 <= UID_LIMIT
    ensures Legal(o, r') && HandsOff(r') && r'.states[0] == r.states[0] && Last(r').busy && Last(r').db == Last(r).db
    ensures Last(r').src == Last(r).src && Last(r').watched == map[] && Last(r').names == Last(r).names
    ensures Last(r').live == map[id := k] && Last(r').arrived == Last(r).arrived && Last(r').confirmed == {}
    ensures Last(r').hist == Last(r).hist
    ensures Last(r').apps == Last(r).apps[id := App(k, DestFor(o, Last(r).db, k), KeywordsOf(o, Last(r).db, k), false)]
    ensures DestFor(o, Last(r).db, k) in Buckets(o)
  {
    var db := Last(r).db;
    NoneConfirmed(o, r, k);
    DestIsBucket(o, db, k);
    var fetch := Stream(map[1 := k], {1}, true);
    LegalThen(o, r, fetch);
    HandsOffThen(o, r, fetch);
    var r1 := Then(o, r, fetch);
    assert fetch.asked[1] == k;
    assert k in Last(r1).bodies;
    var sent := Issue(id, k, DestFor(o, db, k), KeywordsOf(o, db, k));
    LegalThen(o, r1, sent);
    HandsOffThen(o, r1, sent);
    r' := Then(o, r1, sent);
  }

  /** The next session finds k unrecorded and appends it again. */
  lemma AppendAgain(o: Opts, r: Run, k: Key)
    requires ConfigOk(o) && !GuardSees(o, k) && k != "" && o.uidBatch + 2 <= UID_LIMIT
    requires Open(o, r, k) && OtherKnown(r) && !Last(r).busy && Last(r).arrived == {1}
    requires Last(r).apps.Keys == {1} && Last(r).apps[1].key == k && Last(r).apps[1].landed
    ensures Doubles(o, k)
  {
    LegalThen(o, r, Begin);
    HandsOffThen(o, r, Begin);
    var r1 := Then(o, r, Begin);
    var r2 := SentRun(o, k, r1, 2);
    assert Last(r2).apps[1].key == k && Last(r2).apps[2].key == k;
    assert TwoCopies(Last(r2), k);
    assert Alone(r2.states[0], k);
  }

  /** A run in which a message is skipped for good: two messages of one window share a key, so
      only the body of the first is asked for, and it is deleted before the body comes. The
      second stays behind the mark, unrecorded, although its body was never asked for. */
  lemma SkippedForever(o: Opts, k: Key)
    requires ConfigOk(o) && k != "" && o.uidBatch + 3 <= UID_LIMIT
    ensures exists r :: Legal(o, r) && Skipped(r, k, 2)
  {
    var r := AdoptedRun(o, k);
    var gone := Env(Mailbox(1, 3, map[2 := k]), map[], map[]);
    LegalThen(o, r, gone);
    BodyGone(o, Then(o, r, gone), k);
  }

  ghost predicate NeverAsked(r: Run, u: nat) {
    forall st :: st in r.steps && st.Stream? ==> u !in st.asked
  }

  /** Message u with key k lies at or below the mark, its key is not recorded, and no body fetch
      ever asked for it. */
  ghost predicate Skipped(r: Run, k: Key, u: nat) {
    && |r.states| > 0 && NeverAsked(r, u)
    && Last(r).db.uidValidity == Last(r).src.validity && u in Last(r).src.msgs && Last(r).src.msgs[u] == k
    && u <= Last(r).db.lastUid && k !in Last(r).db.copied
  }

  /** A new mirror of a folder with two messages of one key has adopted the folder's epoch and
      found no copy of the key. */
  lemma AdoptedRun(o: Opts, k: Key) returns (r: Run)
    requires ConfigOk(o) && k != "" && o.uidBatch + 3 <= UID_LIMIT
    ensures Legal(o, r) && Last(r).busy && Last(r).src == Mailbox(1, 3, map[1 := k, 2 := k]) && NeverAsked(r, 2)
    ensures Last(r).watched == map[] && Last(r).apps == map[] && Last(r).live == map[] && MessageIs(Last(r), 1, k)
    ensures Last(r).db == EMPTY.(uidValidity := 1) && (K.IsRealMessageID(k) ==> k in Last(r).cleared)
  {
    var r0 := OpenedRun(o, k);
    LegalThen(o, r0, Adopt);
    var r1 := Then(o, r0, Adopt);
    var clear := Clear(if K.IsRealMessageID(k) then {k} else {});
    LegalThen(o, r1, clear);
    r := Then(o, r1, clear);
  }

  lemma OpenedRun(o: Opts, k: Key) returns (r: Run)
    requires ConfigOk(o) && k != "" && o.uidBatch + 3 <= UID_LIMIT
    ensures Legal(o, r) && Last(r).busy && Last(r).src == Mailbox(1, 3, map[1 := k, 2 := k]) && NeverAsked(r, 2)
    ensures Last(r).watched == map[] && Last(r).apps == map[] && Last(r).live == map[] && MessageIs(Last(r), 1, k)
    ensures Last(r).db == EMPTY
  {
    var src := Mailbox(1, 3, map[1 := k, 2 := k]);
    var r0 := Run([Start(o, src, map[], EMPTY, map[], {})], []);
    assert (1, k) in NamesIn(src) by { assert src.msgs[1] == k; }
    LegalThen(o, r0, Begin);
    r := Then(o, r0, Begin);
  }

  /** The first body is missing from the stream, and the mark goes past both. */
  lemma BodyGone(o: Opts, r: Run, k: Key)
    requires Legal(o, r) && Last(r).busy && Last(r).src == Mailbox(1, 3, map[2 := k]) && NeverAsked(r, 2)
    requires Last(r).live == map[] && MessageIs(Last(r), 1, k)
    requires Last(r).db == EMPTY.(uidValidity := 1) && (K.IsRealMessageID(k) ==> k in Last(r).cleared)
    ensures exists r' :: Legal(o, r') && Skipped(r', k, 2)
  {
    var r1 := LeftOutRun(o, r, k);
    LegalThen(o, r1, Mark(2));
    assert Skipped(Then(o, r1, Mark(2)), k, 2);
  }

  /** The body of message 1 is asked for, and never comes. */
  lemma LeftOutRun(o: Opts, r: Run, k: Key) returns (r': Run)
    requires Legal(o, r) && Last(r).busy && NeverAsked(r, 2) && Last(r).live == map[] && MessageIs(Last(r), 1, k)
    requires k !in Last(r).db.copied && (K.IsRealMessageID(k) ==> k in Last(r).cleared)
    ensures Legal(o, r') && NeverAsked(r', 2) && Last(r') == Last(r).(bodies := {}, blank := Last(r).blank + {k})
  {
    var fetch := Stream(map[1 := k], {}, true);
    LegalThen(o, r, fetch);
    r' := Then(o, r, fetch);
    assert fetch.asked[1] == k;
  }

  // ------------------------------------------------- the order of the epoch

  /** What adopting the source's UIDVALIDITY commits skips nothing only if the mark already
      covered the new folder. */
  lemma Adopted(o: Opts, s: Sys)
    requires HistInv(s)
    ensures var s' := Do(o, s, Adopt);
            CommittedOk(s', s'.db) <==> Covered(s.src, s.db.copied, s.blank, s.db.lastUid)
  {
    assert CommittedOk(s, s.db);
  }

  /** Why the mark is reset first: in some run the epoch changes, and adopting it before
      the reset would commit a mark that skips a message. */
  lemma AdoptFirstSkips(o: Opts)
    requires ConfigOk(o) && o.uidBatch + 2 <= UID_LIMIT
    ensures exists r :: Legal(o, r) && SkipsIfAdopted(o, Last(r))
  {
    var r := RenewedRun(o);
    RunKeeps(o, r, |r.states| - 1);
    Adopted(o, Last(r));
    assert Last(r).src.msgs[1] == "a";
    assert SkipsIfAdopted(o, Last(r));
  }

  lemma RenewedRun(o: Opts) returns (r: Run)
    requires ConfigOk(o) && o.uidBatch + 2 <= UID_LIMIT
    ensures Legal(o, r) && Last(r).busy && Last(r).src == Mailbox(2, 2, map[1 := "a"]) && Last(r).blank == {}
    ensures Last(r).db == EMPTY.(uidValidity := 1, lastUid := 1)
  {
    var db := EMPTY.(uidValidity := 1, lastUid := 1);
    var r0 := Run([Start(o, Mailbox(1, 2, map[]), map[], db, map[], {})], []);
    var renewed := NewEpoch(Mailbox(2, 2, map[1 := "a"]), map[]);
    MayRenew(o, Last(r0), renewed);
    LegalThen(o, r0, renewed);
    var r1 := Then(o, r0, renewed);
    LegalThen(o, r1, Begin);
    r := Then(o, r1, Begin);
  }

  lemma MayRenew(o: Opts, s: Sys, st: Step)
    requires s == Start(o, Mailbox(1, 2, map[]), map[], EMPTY.(uidValidity := 1, lastUid := 1), map[], {})
    requires st == NewEpoch(Mailbox(2, 2, map[1 := "a"]), map[]) && o.uidBatch + 2 <= UID_LIMIT
    ensures Enabled(o, s, st)
    ensures var s' := Do(o, s, st);
            !s'.busy && s'.src == st.src && s'.blank == {} && s'.db == s.db
  {
  }

  ghost predicate SkipsIfAdopted(o: Opts, s: Sys) {
    var s' := Do(o, s, Adopt);
    s.busy && !CommittedOk(s', s'.db)
  }

  // ----------------------------------------------------- silent additions

  /** A folder of which nothing is stored is rebuilt: what the queue then makes of the keyword of
      a message in it. The last row that concerns the keyword decides; without one the keyword is
      on the copy exactly if it was on it before, although the message is a member. KnownLabels is
      what every run keeps of its queue (Guarantees.RunKeeps). */
  lemma SilentReAddIff(o: Opts, s: Sys, f: Folder, app: App, metas: seq<KeyRecord>)
    requires MemberKeys(s.db, f) == {} && app.key in RecordedKeys(metas)
    ensures var q, db' := s.db.pending, Rescanned(o, s.db, f, metas);
            && app.key in MemberKeys(db', f)
            && (Kw(o, f) in Replay(o, db', app, db'.pending).flags <==>
                  match LastSays(o, q, app.key, Kw(o, f))
                  case Some(add) => add
                  case None => Kw(o, f) in app.flags)
            && (o.labelPropagate && OwnKeyword(o, s, f) && KnownLabels(o, s, s.db) ==>
                  (Kw(o, f) in Replay(o, db', app, db'.pending).flags <==>
                     if HasKeyword(q, app.key, f) then LastAdds(q, app.key, f) else Kw(o, f) in app.flags))
  {
    var db' := Rescanned(o, s.db, f, metas);
    NothingQueued(o, s.db, f, metas);
    ReplayFlags(o, db', app, db'.pending, Kw(o, f));
    if o.labelPropagate && OwnKeyword(o, s, f) && KnownLabels(o, s, s.db) {
      LabelDecides(o, s, s.db.pending, app.key, f);
    }
  }

  /** The same for the bucket: after a silent re-add the queue brings the copy to where its
      membership puts it if and only if it holds a move of it, or the copy is there already. */
  lemma SilentRouteIff(o: Opts, db: Db, f: Folder, app: App, metas: seq<KeyRecord>)
    requires MemberKeys(db, f) == {} && app.key in RecordedKeys(metas)
    ensures var db' := Rescanned(o, db, f, metas);
            && app.key in MemberKeys(db', f)
            && (Replay(o, db', app, db'.pending).folder == DestFor(o, db', app.key) <==>
                  (Routing(o) && HasMove(db.pending, app.key)) || app.folder == DestFor(o, db', app.key))
  {
    NothingQueued(o, db, f, metas);
    ReplayMoves(o, Rescanned(o, db, f, metas), app, db.pending);
  }

  /** What a rebuild that finds nothing stored makes of the messages of f. */
  function Rescanned(o: Opts, db: Db, f: Folder, metas: seq<KeyRecord>): Db {
    var stored := MemberKeys(db, f);
    ApplyChanges(db, f, Sync.Additions(o, db, f, metas, stored, stored == {}))
  }

  lemma NothingQueued(o: Opts, db: Db, f: Folder, metas: seq<KeyRecord>)
    requires MemberKeys(db, f) == {}
    ensures var db' := Rescanned(o, db, f, metas);
            && db'.pending == db.pending && db' == db.(members := db'.members)
            && MemberKeys(db', f) == RecordedKeys(metas)
  {
    var cs := Sync.Additions(o, db, f, metas, {}, true);
    Sync.AdditionsAre(o, db, f, metas, {}, true);
    Sync.AdditionsJoin(o, db, f, metas, {}, true);
    ChangesFrame(db, f, cs);
    QueuedRowsStem(f, cs, db.nextId);
    var rows := QueuedRows(f, cs, db.nextId);
    assert |rows| > 0 ==> RowFrom(rows[0], cs);
  }

  // ------------------------------------------------------ scenes of a run

  predicate NotEdited(apps: map<nat, App>, apps': map<nat, App>) {
    forall i :: i in apps' && i in apps ==> !Edited(apps[i], apps'[i])
  }

  /** No user ever touches a copy. */
  ghost predicate HandsOff(r: Run) {
    forall n :: 0 <= n < |r.steps| && n < |r.states| && r.steps[n].Env? ==>
      NotEdited(r.states[n].apps, r.steps[n].apps)
  }

  lemma HandsOffThen(o: Opts, r: Run, st: Step)
    requires Legal(o, r) && HandsOff(r) && (st.Env? ==> NotEdited(Last(r).apps, st.apps))
    ensures HandsOff(Then(o, r, st)) && Then(o, r, st).states[0] == r.states[0]
  {
    FirstState(o, r);
    var r' := Then(o, r, st);
    forall n | 0 <= n < |r'.steps| && n < |r'.states| && r'.steps[n].Env?
      ensures NotEdited(r'.states[n].apps, r'.steps[n].apps)
    {
      if n < |r.steps| {
        assert r'.steps[n] == r.steps[n] && r'.states[n] == r.states[n];
      } else {
        assert r'.states[n] == Last(r);
      }
    }
  }

  /** A run of a mirror that found one copy, number 0, as first; it is now as app, these rows are
      queued, and no user has touched it. */
  ghost predicate Scene(o: Opts, r: Run, first: App, app: App, queue: seq<PendingOp>) {
    && Legal(o, r) && HandsOff(r) && r.states[0].apps == map[0 := first]
    && Last(r).apps == map[0 := app] && Last(r).live == map[] && Last(r).src == NO_MAIL
    && Last(r).db.pending == queue && Last(r).db.folders == map[] && !Stale(o, Last(r).db)
    && Last(r).tagged == {}
  }

  const NO_MAIL := Mailbox(1, 1, map[])

  /** What a step that leaves copies and queue alone makes of a scene. */
  lemma SceneThen(o: Opts, r: Run, st: Step, first: App, app: App, queue: seq<PendingOp>)
    requires Scene(o, r, first, app, queue) && Enabled(o, Last(r), st)
    requires st.Begin? || st.End? || st.FirstScan?
    ensures Scene(o, Then(o, r, st), first, app, queue) && Last(Then(o, r, st)) == Do(o, Last(r), st)
    ensures var s' := Do(o, Last(r), st); s'.db == Last(r).db && s'.watched == Last(r).watched
  {
    LegalThen(o, r, st);
    HandsOffThen(o, r, st);
  }

  /** A store carried over from an earlier version, with a current fingerprint, and a session. */
  lemma MigratedRun(o: Opts, members: map<(Folder, Key), nat>, watched: map<Folder, Mailbox>, app: App) returns (r: Run)
    requires ConfigOk(o) && o.uidBatch + 2 <= UID_LIMIT && MailsOk(o, watched)
    requires app.landed && app.folder in Buckets(o)
    ensures Scene(o, r, app, app, []) && Last(r).busy && Last(r).watched == watched
    ensures Last(r).db == EMPTY.(copied := map[app.key := 1], members := members, fingerprint := Fingerprint(o))
    ensures r.states[0].watched == watched && r.states[0].db == Last(r).db && Last(r).hist == {EMPTY, Last(r).db}
  {
    var db := EMPTY.(copied := map[app.key := 1], members := members, fingerprint := Fingerprint(o));
    var r0 := Run([Start(o, NO_MAIL, watched, db, map[0 := app], {app.key})], []);
    assert Scene(o, r0, app, app, []);
    SceneThen(o, r0, Begin, app, app, []);
    r := Then(o, r0, Begin);
  }

  /** The row that a removal of k from f queues. */
  function RemovalRow(kind: Kind, f: Folder, k: Key): PendingOp { PendingOp(0, kind, k, f, false) }

  lemma OneRemoval(o: Opts, db: Db, f: Folder, k: Key, kind: Kind)
    requires KindFor(o, f) == Some(kind) && K.IsRealMessageID(k) && k in db.copied
    requires db.pending == [] && db.nextId == 0
    ensures var db' := ApplyChanges(db, f, Sync.Removals(o, db, f, [k]));
            && db'.pending == [RemovalRow(kind, f, k)]
            && db' == db.(members := db.members - {(f, k)}, pending := db'.pending, nextId := db'.nextId)
  {
    var out := Sync.Removals(o, db, f, [k]);
    assert out == [Change(k, 0, false, Some(kind))] && out[..0] == [];
    assert ApplyChanges(db, f, out[..0]) == db;
  }

  /** The message turns out to have left f: its removal is queued. */
  lemma QueuedRun(o: Opts, r: Run, app: App, f: Folder, kind: Kind) returns (r': Run)
    requires Scene(o, r, app, app, []) && Last(r).busy && f in Last(r).watched
    requires KindFor(o, f) == Some(kind) && K.IsRealMessageID(app.key) && app.key in Last(r).db.copied
    requires Last(r).db.nextId == 0
    ensures Scene(o, r', app, app, [RemovalRow(kind, f, app.key)]) && Last(r').busy
    ensures Last(r').watched == Last(r).watched && Last(r').db.copied == Last(r).db.copied
    ensures Last(r').db.members == Last(r).db.members - {(f, app.key)}
  {
    var out := Sync.Removals(o, Last(r).db, f, [app.key]);
    Sync.RemovalsOk(o, Last(r), f, [app.key]);
    LegalThen(o, r, Members(f, out));
    HandsOffThen(o, r, Members(f, out));
    r' := Then(o, r, Members(f, out));
    OneRemoval(o, Last(r).db, f, app.key, kind);
  }

  /** A row that takes a keyword off is carried out. */
  lemma UntaggedRun(o: Opts, r: Run, first: App, app: App, f: Folder) returns (r': Run)
    requires Scene(o, r, first, app, [RemovalRow(Keyword, f, app.key)]) && Last(r).busy && Kw(o, f) != "" && app.landed
    ensures Scene(o, r', first, app.(flags := app.flags - {Kw(o, f)}), []) && Last(r').busy
    ensures Last(r').watched == Last(r).watched && Last(r').db == Last(r).db.(pending := [])
    ensures forall g, queue :: RebuiltAt(r, g, queue) ==> RebuiltAt(r', g, queue)
  {
    var row, off := RemovalRow(Keyword, f, app.key), app.(flags := app.flags - {Kw(o, f)});
    assert row in Last(r).db.pending;
    LegalThen(o, r, StoreKeyword({0}, row));
    HandsOffThen(o, r, StoreKeyword({0}, row));
    var r1 := Then(o, r, StoreKeyword({0}, row));
    assert Scene(o, r1, first, off, [row]);
    r' := DrainedRun(o, r1, first, off, row);
    RebuiltLater(o, r, StoreKeyword({0}, row), DeleteRows(1));
  }

  /** Two more steps do not undo a rebuild. */
  lemma RebuiltLater(o: Opts, r: Run, st: Step, st': Step)
    requires Legal(o, r) && Legal(o, Then(o, r, st))
    ensures forall g, queue :: RebuiltAt(r, g, queue) ==> RebuiltAt(Then(o, Then(o, r, st), st'), g, queue)
  {
    FirstState(o, r);
    FirstState(o, Then(o, r, st));
    forall g, queue | RebuiltAt(r, g, queue) ensures RebuiltAt(Then(o, Then(o, r, st), st'), g, queue) {
      RebuiltThen(o, r, st, g, queue);
      RebuiltThen(o, Then(o, r, st), st', g, queue);
    }
  }

  /** A row that moves the copy is carried out. */
  lemma MovedRun(o: Opts, r: Run, first: App, app: App, f: Folder) returns (r': Run)
    requires Scene(o, r, first, app, [RemovalRow(Move, f, app.key)]) && Last(r).busy && app.landed
    ensures Scene(o, r', first, app.(folder := DestFor(o, Last(r).db, app.key)), []) && Last(r').busy
    ensures Last(r').watched == Last(r).watched && Last(r').db == Last(r).db.(pending := [])
  {
    var to := DestFor(o, Last(r).db, app.key);
    LegalThen(o, r, MoveCopies({0}, to));
    HandsOffThen(o, r, MoveCopies({0}, to));
    var r1 := Then(o, r, MoveCopies({0}, to));
    assert Scene(o, r1, first, app.(folder := to), [RemovalRow(Move, f, app.key)]);
    r' := DrainedRun(o, r1, first, app.(folder := to), RemovalRow(Move, f, app.key));
  }

  lemma DrainedRun(o: Opts, r: Run, first: App, app: App, row: PendingOp) returns (r': Run)
    requires Scene(o, r, first, app, [row]) && Last(r).busy
    requires row.kind == Move ==> app.folder == DestFor(o, Last(r).db, app.key)
    ensures Scene(o, r', first, app, []) && Last(r').busy && r' == Then(o, r, DeleteRows(1))
    ensures Last(r').watched == Last(r).watched && Last(r').db == Last(r).db.(pending := [])
  {
    LegalThen(o, r, DeleteRows(1));
    HandsOffThen(o, r, DeleteRows(1));
    r' := Then(o, r, DeleteRows(1));
  }

  /** The folder is rebuilt from nothing while these rows are queued. */
  ghost predicate RebuiltAt(r: Run, f: Folder, queue: seq<PendingOp>) {
    exists n :: 0 <= n < |r.steps| && n < |r.states| && r.steps[n] == FirstScan(f) && r.states[n].db.pending == queue
  }

  lemma RebuiltThen(o: Opts, r: Run, st: Step, f: Folder, queue: seq<PendingOp>)
    requires |r.states| == |r.steps| + 1
    requires RebuiltAt(r, f, queue) || (st == FirstScan(f) && Last(r).db.pending == queue)
    ensures RebuiltAt(Then(o, r, st), f, queue)
  {
    var r' := Then(o, r, st);
    if RebuiltAt(r, f, queue) {
      var n :| 0 <= n < |r.steps| && n < |r.states| && r.steps[n] == FirstScan(f) && r.states[n].db.pending == queue;
      assert r'.steps[n] == FirstScan(f) && r'.states[n] == r.states[n];
    } else {
      assert r'.steps[|r.steps|] == FirstScan(f) && r'.states[|r.steps|] == Last(r);
    }
  }

  /** The mirror crashes before it stores the scan state of f, the message comes back, and the
      next session adds it again, silently. */
  lemma ReAddedRun(o: Opts, r: Run, first: App, app: App, queue: seq<PendingOp>, f: Folder) returns (r': Run)
    requires ConfigOk(o) && o.uidBatch + 2 <= UID_LIMIT && app.key != ""
    requires Scene(o, r, first, app, queue) && MemberKeys(Last(r).db, f) == {} && Last(r).watched == map[f := NO_MAIL]
    ensures Scene(o, r', first, app, queue) && Last(r').busy && (f, app.key) in Last(r').db.members
    ensures RebuiltAt(r', f, queue)
    ensures Last(r').db == Last(r).db.(members := Last(r').db.members)
  {
    var r1 := ReturnedInto(o, r, first, app, queue, f);
    r' := FirstScanRun(o, r1, first, app, queue, f);
  }

  /** A folder of which nothing is stored gets its first scan: the message becomes a member,
      silently. */
  lemma FirstScanRun(o: Opts, r: Run, first: App, app: App, queue: seq<PendingOp>, f: Folder) returns (r': Run)
    requires ConfigOk(o) && o.uidBatch + 2 <= UID_LIMIT && app.key != ""
    requires Scene(o, r, first, app, queue) && Last(r).busy && MemberKeys(Last(r).db, f) == {}
    requires Last(r).watched == map[f := Mailbox(1, 2, map[1 := app.key])]
    ensures Scene(o, r', first, app, queue) && Last(r').busy && (f, app.key) in Last(r').db.members
    ensures RebuiltAt(r', f, queue) && Last(r').watched == Last(r).watched && r'.states[0] == r.states[0]
    ensures Last(r').db == Last(r).db.(members := Last(r).db.members[(f, app.key) := 1])
  {
    var metas := [KeyRecord(app.key, 1)];
    SceneThen(o, r, FirstScan(f), first, app, queue);
    FirstState(o, r);
    RebuiltThen(o, r, FirstScan(f), f, queue);
    var r1 := Then(o, r, FirstScan(f));
    var s := Last(r1);
    var add := Sync.Additions(o, s.db, f, metas, {}, true);
    assert KeyRecord(s.watched[f].msgs[1], 1) in metas;
    Sync.AdditionsOk(o, s, f, metas, 1, 1, {}, true);
    r' := AddedRun(o, r1, first, app, queue, f, add);
    FirstState(o, r1);
    RebuiltThen(o, r1, Members(f, add), f, queue);
  }

  /** A silent batch makes the message a member and leaves everything else as it is. */
  lemma AddedRun(o: Opts, r: Run, first: App, app: App, queue: seq<PendingOp>, f: Folder, add: seq<Change>)
    returns (r': Run)
    requires Scene(o, r, first, app, queue) && Last(r).busy && MemberKeys(Last(r).db, f) == {}
    requires add == Sync.Additions(o, Last(r).db, f, [KeyRecord(app.key, 1)], {}, true)
    requires MembersOk(o, Last(r), f, add)
    ensures r' == Then(o, r, Members(f, add))
    ensures Scene(o, r', first, app, queue) && Last(r').busy && (f, app.key) in Last(r').db.members
    ensures Last(r').db == Last(r).db.(members := Last(r).db.members[(f, app.key) := 1])
    ensures Last(r').watched == Last(r).watched && r'.states[0] == r.states[0]
  {
    LegalThen(o, r, Members(f, add));
    HandsOffThen(o, r, Members(f, add));
    r' := Then(o, r, Members(f, add));
    NothingQueued(o, Last(r).db, f, [KeyRecord(app.key, 1)]);
    assert add == [Change(app.key, 1, true, None)] && ApplyChanges(Last(r).db, f, add[..0]) == Last(r).db;
    assert [KeyRecord(app.key, 1)][0] in [KeyRecord(app.key, 1)] && app.key in MemberKeys(Last(r').db, f);
  }

  lemma ReturnedInto(o: Opts, r: Run, first: App, app: App, queue: seq<PendingOp>, f: Folder) returns (r': Run)
    requires o.uidBatch + 2 <= UID_LIMIT && app.key != ""
    requires Scene(o, r, first, app, queue) && Last(r).watched == map[f := NO_MAIL]
    ensures Scene(o, r', first, app, queue) && Last(r').busy && Last(r').db == Last(r).db
    ensures Last(r').watched == map[f := Mailbox(1, 2, map[1 := app.key])]
  {
    SceneThen(o, r, End, first, app, queue);
    var r1 := Then(o, r, End);
    var r2 := ReturnedRun(o, r1, first, app, queue, f);
    SceneThen(o, r2, Begin, first, app, queue);
    r' := Then(o, r2, Begin);
  }

  lemma ReturnedRun(o: Opts, r: Run, first: App, app: App, queue: seq<PendingOp>, f: Folder) returns (r': Run)
    requires o.uidBatch + 2 <= UID_LIMIT && app.key != ""
    requires Scene(o, r, first, app, queue) && !Last(r).busy && Last(r).watched == map[f := NO_MAIL]
    ensures Scene(o, r', first, app, queue) && !Last(r').busy && Last(r').db == Last(r).db
    ensures Last(r').watched == map[f := Mailbox(1, 2, map[1 := app.key])]
  {
    var back := Env(NO_MAIL, map[f := Mailbox(1, 2, map[1 := app.key])], Last(r).apps);
    MayReturn(o, Last(r), back, f, app.key);
    NothingEdited(o, Last(r), back);
    LegalThen(o, r, back);
    HandsOffThen(o, r, back);
    r' := Then(o, r, back);
  }

  lemma MayReturn(o: Opts, s: Sys, st: Step, f: Folder, k: Key)
    requires o.uidBatch + 2 <= UID_LIMIT && k != "" && s.src == NO_MAIL && s.watched == map[f := NO_MAIL]
    requires st == Env(s.src, map[f := Mailbox(1, 2, map[1 := k])], s.apps)
    ensures Enabled(o, s, st)
  {
  }

  lemma NothingEdited(o: Opts, s: Sys, st: Step)
    requires st.Env? && st.apps == s.apps
    ensures NotEdited(s.apps, st.apps)
    ensures var s' := Do(o, s, st); s'.apps == s.apps && s'.db == s.db && s'.live == s.live && s'.busy == s.busy
    ensures var s' := Do(o, s, st); s'.placed == s.placed && s'.tagged == s.tagged && s'.watched == st.watched
  {
  }

  /** The message is a member, nothing is left to do and no user has touched its copy, which the
      mirror found with the keyword of its label; and yet the keyword is gone. */
  ghost predicate KeywordLost(o: Opts, r: Run, f: Folder, k: Key) {
    && |r.states| > 0 && HandsOff(r) && 0 in r.states[0].apps && 0 in Last(r).apps
    && Kw(o, f) in r.states[0].apps[0].flags && Last(r).apps[0].key == k
    && (f, k) in Last(r).db.members && Last(r).db.pending == [] && !Stale(o, Last(r).db)
    && Kw(o, f) !in Last(r).apps[0].flags
  }

  /** This happens in two ways. A folder turns out empty, and the removal of its last member is
      queued; it may be carried out, too, before the mirror crashes without having stored the
      folder's scan state. The message comes back, and the rebuild finds nothing stored and adds
      it silently. Either the queued row then takes the keyword off, or it is off already and
      nothing brings it back. */
  lemma SilentReAdd(o: Opts, f: Folder, k: Key, queued: bool)
    requires ConfigOk(o) && o.labelPropagate && !IsRoutingFolder(o, f) && Kw(o, f) != "" && o.uidBatch + 2 <= UID_LIMIT
    requires K.IsRealMessageID(k) && k != ""
    ensures exists r :: Legal(o, r) && KeywordLost(o, r, f, k)
                        && RebuiltAt(r, f, if queued then [RemovalRow(Keyword, f, k)] else [])
  {
    var row, app := RemovalRow(Keyword, f, k), App(k, DestFor(o, EMPTY, k), {Kw(o, f)}, true);
    var off := app.(flags := app.flags - {Kw(o, f)});
    DestIsBucket(o, EMPTY, k);
    var r0 := MigratedRun(o, map[(f, k) := 0], map[f := NO_MAIL], app);
    var r1 := QueuedRun(o, r0, app, f, Keyword);
    assert MemberKeys(Last(r1).db, f) == {};
    if queued {
      var r2 := ReAddedRun(o, r1, app, app, [row], f);
      var r3 := UntaggedRun(o, r2, app, app, f);
      assert KeywordLost(o, r3, f, k);
    } else {
      var r2 := UntaggedRun(o, r1, app, app, f);
      var r3 := ReAddedRun(o, r2, app, off, [], f);
      assert KeywordLost(o, r3, f, k);
    }
  }

  /** The copy is not in the bucket of its membership, although nothing is left to do and no user
      has touched it. */
  ghost predicate Misplaced(o: Opts, r: Run, i: nat) {
    && |r.states| > 0 && HandsOff(r) && i in Last(r).apps && Last(r).apps[i].key in Last(r).db.copied
    && Last(r).db.pending == [] && !Stale(o, Last(r).db)
    && Last(r).apps[i].folder != DestFor(o, Last(r).db, Last(r).apps[i].key)
  }

  /** The routing twin: the message leaves the inbox, its copy is moved to the archive, and when
      it comes back nothing moves the copy to the inbox's bucket. */
  lemma SilentMisplaced(o: Opts, k: Key)
    requires ConfigOk(o) && o.archiveRouting && o.uidBatch + 2 <= UID_LIMIT && K.IsRealMessageID(k) && k != ""
    ensures exists r :: Legal(o, r) && Misplaced(o, r, 0) && (o.sourceInbox, k) in Last(r).db.members
  {
    var f := o.sourceInbox;
    var app := App(k, o.destFolder, {}, true);
    var r0 := MigratedRun(o, map[(f, k) := 0], map[f := NO_MAIL], app);
    var r1 := QueuedRun(o, r0, app, f, Move);
    assert MemberKeys(Last(r1).db, f) == {};
    var r2 := MovedRun(o, r1, app, app, f);
    var r3 := ReAddedRun(o, r2, app, app.(folder := o.archiveFolder), [], f);
    InInbox(o, Last(r3).db, k);
    assert Misplaced(o, r3, 0);
  }

  lemma InInbox(o: Opts, db: Db, k: Key)
    requires ConfigOk(o) && o.archiveRouting && (o.sourceInbox, k) in db.members
    ensures DestFor(o, db, k) == o.destFolder != o.archiveFolder
  {
  }

  // ----------------------------------------------------- shared keywords

  /** The removal of messages from a label takes the label's keyword off each of them. That is
      right if and only if no other label of the message has the same keyword. */
  lemma SharedKeywordIff(o: Opts, s: Sys, f: Folder, app: App, keys: seq<Key>)
    requires o.labelPropagate && o.syncLabels && !IsRoutingFolder(o, f) && Kw(o, f) != ""
    requires K.IsRealMessageID(app.key) && app.key in s.db.copied && app.key in keys
    ensures var db' := ApplyChanges(s.db, f, Sync.Removals(o, s.db, f, keys));
            var kept := Kw(o, f) in Replay(o, db', app, db'.pending).flags;
            && LastSays(o, db'.pending, app.key, Kw(o, f)) == Some(false)
            && ((kept <==> Kw(o, f) in KeywordsOf(o, db', app.key)) <==>
                  forall g :: g != f && IsLabelOf(o, s.db, g, app.key) ==> Kw(o, g) != Kw(o, f))
  {
    var cs := Sync.Removals(o, s.db, f, keys);
    var db', rows := ApplyChanges(s.db, f, cs), QueuedRows(f, cs, s.db.nextId);
    ChangesFrame(s.db, f, cs);
    RemovalSays(o, s.db, f, keys, app.key);
    LastSaysSplit(o, s.db.pending, rows, app.key, Kw(o, f));
    ReplayFlags(o, db', app, db'.pending, Kw(o, f));
    OtherLabels(o, s.db, f, keys, app.key);
  }

  lemma RemovalSays(o: Opts, db: Db, f: Folder, keys: seq<Key>, k: Key)
    requires o.labelPropagate && !IsRoutingFolder(o, f) && Kw(o, f) != ""
    requires K.IsRealMessageID(k) && k in db.copied && k in keys
    ensures LastSays(o, QueuedRows(f, Sync.Removals(o, db, f, keys), db.nextId), k, Kw(o, f)) == Some(false)
  {
    var cs := Sync.Removals(o, db, f, keys);
    var rows := QueuedRows(f, cs, db.nextId);
    Sync.RemovalsAre(o, db, f, keys);
    QueuedRowsStem(f, cs, db.nextId);
    QueuedRowsCover(f, cs, db.nextId);
    assert k in ChangedKeys(cs);
    var c :| c in cs && c.key == k;
    assert HasRowOf(rows, c);
    var row :| row in rows && RowOf(row, c);
    forall op | op in rows ensures !op.add && op.folder == f {
      var j :| 0 <= j < |rows| && rows[j] == op;
      assert RowFrom(rows[j], cs);
    }
    assert Concerns(o, row, k, Kw(o, f));
    OnlyRemovals(o, rows, k, Kw(o, f), row);
  }

  lemma {:induction false} OnlyRemovals(o: Opts, q: seq<PendingOp>, k: Key, w: string, row: PendingOp)
    requires (forall op :: op in q ==> !op.add) && row in q && Concerns(o, row, k, w)
    ensures LastSays(o, q, k, w) == Some(false)
  {
    if !Concerns(o, q[|q| - 1], k, w) {
      assert q == q[..|q| - 1] + [q[|q| - 1]];
      OnlyRemovals(o, q[..|q| - 1], k, w, row);
    }
  }

  lemma OtherLabels(o: Opts, db: Db, f: Folder, keys: seq<Key>, k: Key)
    requires o.syncLabels && Kw(o, f) != "" && k in keys
    ensures var db' := ApplyChanges(db, f, Sync.Removals(o, db, f, keys));
            Kw(o, f) in KeywordsOf(o, db', k) <==>
              exists g :: g != f && IsLabelOf(o, db, g, k) && Kw(o, g) == Kw(o, f)
  {
    var cs := Sync.Removals(o, db, f, keys);
    var db' := ApplyChanges(db, f, cs);
    Sync.RemovalsAre(o, db, f, keys);
    ChangesFrame(db, f, cs);
    RemovesEffect(db, f, cs);
    assert k in ChangedKeys(cs);
    if Kw(o, f) in KeywordsOf(o, db', k) {
      var fk :| fk in db'.members && fk.1 == k && !IsRoutingFolder(o, fk.0) && Kw(o, fk.0) == Kw(o, f);
      assert fk == (fk.0, k) && fk.0 != f;
      assert IsLabelOf(o, db, fk.0, k);
    }
    if g :| g != f && IsLabelOf(o, db, g, k) && Kw(o, g) == Kw(o, f) {
      assert (g, k) in db'.members;
    }
  }

  /** And it does go wrong: a message is removed from one of two labels with the same keyword, and
      loses the keyword of the other. */
  lemma SharedKeywordLost(o: Opts, f: Folder, g: Folder, k: Key)
    requires ConfigOk(o) && o.labelPropagate && o.uidBatch + 2 <= UID_LIMIT && K.IsRealMessageID(k) && k != ""
    requires f != g && !IsRoutingFolder(o, f) && !IsRoutingFolder(o, g) && Kw(o, f) == Kw(o, g) != ""
    ensures exists r :: Legal(o, r) && KeywordLost(o, r, g, k)
  {
    var app := App(k, DestFor(o, EMPTY, k), {Kw(o, f)}, true);
    DestIsBucket(o, EMPTY, k);
    var held := map[f := NO_MAIL, g := Mailbox(1, 2, map[1 := k])];
    var r0 := MigratedRun(o, map[(f, k) := 0, (g, k) := 0], held, app);
    var r1 := QueuedRun(o, r0, app, f, Keyword);
    var r2 := UntaggedRun(o, r1, app, app, f);
    assert (g, k) in Last(r2).db.members;
    assert KeywordLost(o, r2, g, k);
  }

  // ------------------------------------------------------------ new labels

  /** A label folder is created long after the message was copied and the backfill done, the
      message in it. Its first scan is silent; the folder is followed from then on, nothing is
      queued, and the copy never gets the keyword. No crash is needed. */
  lemma NewLabelUnset(o: Opts, f: Folder, k: Key)
    requires ConfigOk(o) && o.labelPropagate && !IsRoutingFolder(o, f) && Kw(o, f) != "" && o.uidBatch + 2 <= UID_LIMIT
    requires K.IsRealMessageID(k) && k != ""
    ensures exists r :: Legal(o, r) && KeywordNeverSet(o, r, f, k)
  {
    var app := App(k, DestFor(o, EMPTY, k), {}, true);
    DestIsBucket(o, EMPTY, k);
    var r0 := MigratedRun(o, map[], map[], app);
    var r1 := CreatedRun(o, r0, app, f);
    var r2 := FirstScanRun(o, r1, app, app, [], f);
    var r := FollowedNow(o, r2, app, f);
    assert KeywordNeverSet(o, r, f, k);
  }

  /** The scan state of the folder is stored: it is followed from now on. */
  lemma FollowedNow(o: Opts, r: Run, app: App, f: Folder) returns (r': Run)
    requires Scene(o, r, app, app, []) && Last(r).busy && MemberKeys(Last(r).db, f) == {app.key}
    requires (f, app.key) in Last(r).db.members && Last(r).db.members[(f, app.key)] == 1
    requires Last(r).watched == map[f := Mailbox(1, 2, map[1 := app.key])]
    ensures Legal(o, r') && HandsOff(r') && r'.states[0] == r.states[0] && Follows(Last(r'), Last(r').db, f)
    ensures Last(r').apps == Last(r).apps && Last(r').db == Last(r).db.(folders := Last(r').db.folders)
  {
    forall k | (f, k) in Last(r).db.members ensures k == app.key {
      assert k in MemberKeys(Last(r).db, f);
    }
    LegalThen(o, r, MarkFolder(f, 1));
    HandsOffThen(o, r, MarkFolder(f, 1));
    r' := Then(o, r, MarkFolder(f, 1));
  }

  /** The message was recorded and the fingerprint current before the folder was there; now the
      folder is followed, the message is a member, nothing is left to do and no user has touched
      its copy, but the keyword is not set. */
  ghost predicate KeywordNeverSet(o: Opts, r: Run, f: Folder, k: Key) {
    && |r.states| > 0 && HandsOff(r)
    && k in r.states[0].db.copied && !Stale(o, r.states[0].db) && f !in r.states[0].watched
    && Follows(Last(r), Last(r).db, f) && (f, k) in Last(r).db.members && Last(r).db.pending == []
    && !Stale(o, Last(r).db) && 0 in Last(r).apps && Last(r).apps[0].key == k && Kw(o, f) !in Last(r).apps[0].flags
  }

  /** Between two sessions the folder is created, with the message in it. */
  lemma CreatedRun(o: Opts, r: Run, app: App, f: Folder) returns (r': Run)
    requires Scene(o, r, app, app, []) && o.uidBatch + 2 <= UID_LIMIT && app.key != "" && Last(r).watched == map[]
    requires r.states[0].watched == map[] && forall h :: h in Last(r).hist ==> h.folders == map[]
    ensures Scene(o, r', app, app, []) && Last(r').busy && Last(r').db == Last(r).db && r'.states[0] == r.states[0]
    ensures Last(r').watched == map[f := Mailbox(1, 2, map[1 := app.key])]
  {
    SceneThen(o, r, End, app, app, []);
    var r1 := Then(o, r, End);
    var created := NewEpoch(NO_MAIL, map[f := Mailbox(1, 2, map[1 := app.key])]);
    LegalThen(o, r1, created);
    HandsOffThen(o, r1, created);
    var r2 := Then(o, r1, created);
    SceneThen(o, r2, Begin, app, app, []);
    r' := Then(o, r2, Begin);
  }

  // ------------------------------------------------------- moves meanwhile

  /** A user's move excuses keywords, too: the mirror searches bucket after bucket, a copy that is
      moved to one already searched is found in none, and the row is deleted. Here the copy is one
      the mirror has appended and recorded itself, with the keyword of its label; the message leaves
      the label, and the keyword stays. */
  lemma MovedMeanwhile(o: Opts, f: Folder, k: Key)
    requires ConfigOk(o) && o.labelPropagate && o.archiveRouting && !IsRoutingFolder(o, f) && Kw(o, f) != ""
    requires o.uidBatch + 2 <= UID_LIMIT && K.IsRealMessageID(k) && k != ""
    ensures exists r :: Legal(o, r) && RowMissed(o, r, f, k)
  {
    var r0 := RecordedRun(o, f, k);
    var r1 := FolderGone(o, r0, f, k);
    var s := Last(r1);
    var out := Sync.Removals(o, s.db, f, [k]);
    Sync.RemovalsOk(o, s, f, [k]);
    OneRemoval(o, s.db, f, k, Keyword);
    LegalThen(o, r1, Members(f, out));
    UntouchedThen(o, r1, Members(f, out));
    TracksOn(o, s, f, out);
    MissedRun(o, Then(o, r1, Members(f, out)), f, k);
  }

  /** The keywords of copies are left to the mirror. */
  ghost predicate NeverRetagged(r: Run) {
    forall n :: 0 <= n < |r.steps| && n < |r.states| && r.steps[n].Env? ==>
      SameFlags(r.states[n].apps, r.steps[n].apps)
  }

  predicate SameFlags(apps: map<nat, App>, apps': map<nat, App>) {
    forall i :: i in apps' && i in apps ==> apps'[i].flags == apps[i].flags
  }

  lemma UntouchedThen(o: Opts, r: Run, st: Step)
    requires Legal(o, r) && NeverRetagged(r) && (st.Env? ==> SameFlags(Last(r).apps, st.apps))
    ensures NeverRetagged(Then(o, r, st))
  {
    FirstState(o, r);
    var r' := Then(o, r, st);
    forall n | 0 <= n < |r'.steps| && n < |r'.states| && r'.steps[n].Env?
      ensures SameFlags(r'.states[n].apps, r'.steps[n].apps)
    {
      if n < |r.steps| {
        assert r'.steps[n] == r.steps[n] && r'.states[n] == r.states[n];
      } else {
        assert r'.states[n] == Last(r);
      }
    }
  }

  /** The message is not a member and nothing is left to do, but its copy, whose keywords the mirror
      has tracked and no user has changed, still has the keyword. */
  ghost predicate RowMissed(o: Opts, r: Run, f: Folder, k: Key) {
    && |r.states| > 0 && NeverRetagged(r) && 1 in Last(r).tagged && 1 in Last(r).apps && Last(r).apps[1].key == k
    && (f, k) !in Last(r).db.members && Last(r).db.pending == [] && !Stale(o, Last(r).db)
    && Kw(o, f) in Last(r).apps[1].flags
  }

  /** Copy 1 is the only one, it lies in the archive with the keyword of its label, and is tracked. */
  ghost predicate Labelled(o: Opts, r: Run, f: Folder, k: Key) {
    && Legal(o, r) && NeverRetagged(r) && Last(r).live == map[] && MailOk(o, Last(r).src)
    && Last(r).apps.Keys == {1} && Last(r).apps[1].key == k && Last(r).apps[1].landed
    && Last(r).apps[1].folder == o.archiveFolder && Kw(o, f) in Last(r).apps[1].flags
    && 1 in Last(r).tagged && !Stale(o, Last(r).db)
  }

  /** A message with one label is appended and recorded. */
  lemma RecordedRun(o: Opts, f: Folder, k: Key) returns (r: Run)
    requires ConfigOk(o) && o.labelPropagate && o.archiveRouting && !IsRoutingFolder(o, f) && Kw(o, f) != ""
    requires o.uidBatch + 2 <= UID_LIMIT && K.IsRealMessageID(k) && k != ""
    ensures Labelled(o, r, f, k) && Last(r).watched == map[]
    ensures Last(r).db.members == map[(f, k) := 1] && Last(r).db.pending == [] && k in Last(r).db.copied
    ensures Last(r).db.nextId == 0 && forall h :: h in Last(r).hist ==> h.folders == map[]
  {
    var r0 := ClearedRun(o, f, k);
    var r1 := SentRun(o, k, r0, 1);
    assert IsLabelOf(o, Last(r1).db, f, k);
    HandsOffUntouched(r1);
    r := SettledNow(o, r1, f, k);
  }

  /** The append is confirmed and recorded. */
  lemma SettledNow(o: Opts, r: Run, f: Folder, k: Key) returns (r': Run)
    requires Legal(o, r) && NeverRetagged(r) && Last(r).busy && Last(r).live == map[1 := k] && Last(r).confirmed == {}
    requires Last(r).apps.Keys == {1} && 1 in Last(r).arrived && MailOk(o, Last(r).src) && K.IsRealMessageID(k)
    requires var app := Last(r).apps[1];
             app.key == k && app.landed && app.folder == o.archiveFolder && Kw(o, f) in app.flags
    requires k !in Last(r).db.copied && !Stale(o, Last(r).db)
    ensures Labelled(o, r', f, k) && Last(r').watched == Last(r).watched && k in Last(r').db.copied
    ensures Last(r').db == Last(r).db.(copied := Last(r').db.copied) && Last(r').hist == Last(r).hist + {Last(r').db}
  {
    LegalThen(o, r, Confirm(1));
    UntouchedThen(o, r, Confirm(1));
    var r1 := Then(o, r, Confirm(1));
    var record := Record([1], [KeyRecord(k, 1)]);
    MayRecord(o, Last(r1), record, k);
    LegalThen(o, r1, record);
    UntouchedThen(o, r1, record);
    r' := Then(o, r1, record);
  }

  lemma MayRecord(o: Opts, s: Sys, st: Step, k: Key)
    requires s.busy && s.live == map[1 := k] && s.confirmed == {1} && s.apps.Keys == {1} && s.apps[1].key == k
    requires K.IsRealMessageID(k) && k !in s.db.copied && st == Record([1], [KeyRecord(k, 1)])
    ensures Enabled(o, s, st)
    ensures var s' := Do(o, s, st);
            && s'.apps == s.apps && 1 in s'.tagged && s'.live == map[] && s'.src == s.src && s'.watched == s.watched
            && s'.db == s.db.(copied := s'.db.copied) && k in s'.db.copied && s'.hist == s.hist + {s'.db}
  {
    assert [KeyRecord(k, 1)][0] in st.records;
    RecordedAdds(s.db.copied, st.records);
    RecordFrame(o, s, st);
    assert [1][0] in st.ids && 1 in Tracked(s, st.ids);
  }

  lemma HandsOffUntouched(r: Run)
    requires HandsOff(r)
    ensures NeverRetagged(r)
  {
  }

  /** The epoch is adopted, and the guard finds no copy. */
  lemma ClearedRun(o: Opts, f: Folder, k: Key) returns (r: Run)
    requires ConfigOk(o) && o.uidBatch + 2 <= UID_LIMIT && K.IsRealMessageID(k) && k != ""
    ensures Open(o, r, k) && Last(r).busy && k in Last(r).cleared && Last(r).apps == map[] && Last(r).arrived == {}
    ensures Last(r).db == EMPTY.(fingerprint := Fingerprint(o), members := map[(f, k) := 1], uidValidity := 1)
    ensures forall h :: h in Last(r).hist ==> h.folders == map[]
  {
    var db := EMPTY.(fingerprint := Fingerprint(o), members := map[(f, k) := 1]);
    var s := Start(o, Mail(k), map[], db, map[], {});
    assert (1, k) in NamesIn(Mail(k)) by { assert Mail(k).msgs[1] == k; }
    var r0 := EpochRun(o, k, Run([s], []));
    LegalThen(o, r0, Clear({k}));
    HandsOffThen(o, r0, Clear({k}));
    r := Then(o, r0, Clear({k}));
  }

  /** The label folder is followed from now on, and the message is not in it. */
  lemma FolderGone(o: Opts, r: Run, f: Folder, k: Key) returns (r': Run)
    requires Labelled(o, r, f, k) && Last(r).watched == map[] && o.uidBatch + 2 <= UID_LIMIT
    requires forall h :: h in Last(r).hist ==> h.folders == map[]
    ensures Labelled(o, r', f, k) && Last(r').busy && Last(r').watched == map[f := NO_MAIL]
    ensures Last(r').db == Last(r).db
  {
    LegalThen(o, r, End);
    UntouchedThen(o, r, End);
    var r1 := Then(o, r, End);
    var created := NewEpoch(Last(r).src, map[f := NO_MAIL]);
    LegalThen(o, r1, created);
    UntouchedThen(o, r1, created);
    var r2 := Then(o, r1, created);
    LegalThen(o, r2, Begin);
    UntouchedThen(o, r2, Begin);
    r' := Then(o, r2, Begin);
  }

  /** Membership changes leave the copies, and which of them have tracked keywords. */
  lemma TracksOn(o: Opts, s: Sys, f: Folder, changes: seq<Change>)
    ensures var s' := Do(o, s, Members(f, changes));
            && s'.apps == s.apps && s'.tagged == s.tagged && s'.live == s.live && s'.busy == s.busy
            && s'.src == s.src && s'.watched == s.watched && s'.db == ApplyChanges(s.db, f, changes)
  {
  }

  /** While the row is carried out a user moves the copy. */
  lemma MissedRun(o: Opts, r: Run, f: Folder, k: Key)
    requires ConfigOk(o) && o.archiveRouting && o.uidBatch + 2 <= UID_LIMIT && K.IsRealMessageID(k)
    requires Labelled(o, r, f, k) && Last(r).busy && Last(r).watched == map[f := NO_MAIL]
    requires Last(r).db.pending == [RemovalRow(Keyword, f, k)] && (f, k) !in Last(r).db.members
    ensures exists r' :: Legal(o, r') && RowMissed(o, r', f, k)
  {
    var s := Last(r);
    var refile := Env(s.src, s.watched, map[1 := s.apps[1].(folder := o.destFolder)]);
    MayRefile(o, s, refile, f);
    LegalThen(o, r, refile);
    UntouchedThen(o, r, refile);
    var r1 := Then(o, r, refile);
    MayDrop(o, Last(r1), RemovalRow(Keyword, f, k));
    LegalThen(o, r1, DeleteRows(1));
    UntouchedThen(o, r1, DeleteRows(1));
    assert RowMissed(o, Then(o, r1, DeleteRows(1)), f, k);
  }

  /** A row may go when a user has moved the copy it concerns. */
  lemma MayDrop(o: Opts, s: Sys, row: PendingOp)
    requires s.busy && s.db.pending == [row] && s.apps.Keys == {1} && 1 in s.refiled && 1 !in s.placed
    ensures Enabled(o, s, DeleteRows(1))
    ensures var s' := Do(o, s, DeleteRows(1));
            s'.apps == s.apps && s'.tagged == s.tagged && s'.db == s.db.(pending := [])
  {
  }

  lemma MayRefile(o: Opts, s: Sys, st: Step, f: Folder)
    requires o.uidBatch + 2 <= UID_LIMIT && MailOk(o, s.src) && s.watched == map[f := NO_MAIL] && s.apps.Keys == {1}
    requires s.apps[1].landed && s.apps[1].folder == o.archiveFolder != o.destFolder
    requires st == Env(s.src, s.watched, map[1 := s.apps[1].(folder := o.destFolder)])
    ensures Enabled(o, s, st) && SameFlags(s.apps, st.apps)
    ensures var s' := Do(o, s, st);
            && 1 in s'.refiled && 1 !in s'.placed && s'.tagged == s.tagged && s'.apps == st.apps && s'.live == s.live
            && s'.busy == s.busy && s'.db == s.db
  {
    assert 1 in Moved(s.apps, st.apps);
  }

  // ------------------------------------------------------------ second copies

  predicate HeldIn(apps: map<nat, App>, key: Key, folder: Folder) {
    exists i :: i in apps && apps[i].key == key && apps[i].folder == folder
  }

  function CopiesIn(apps: map<nat, App>, key: Key, folder: Folder): set<nat> {
    set i | i in apps && apps[i].key == key && apps[i].folder == folder
  }

  /** The first bucket, in the order of the search, that holds a copy of key; one may be left out. */
  function FirstHolding(apps: map<nat, App>, key: Key, folders: seq<Folder>, but: Option<Folder>): (f: Option<Folder>)
    ensures f.Some? ==> f.value in folders && f != but && HeldIn(apps, key, f.value)
    ensures f.None? ==> forall g :: g in folders && Some(g) != but ==> !HeldIn(apps, key, g)
  {
    if folders == [] then None
    else if Some(folders[0]) != but && HeldIn(apps, key, folders[0]) then Some(folders[0])
    else FirstHolding(apps, key, folders[1..], but)
  }

  /** What a row does to a destination at rest: the search ends with the first bucket that holds
      copies of the key. */
  function RowOn(o: Opts, db: Db, apps: map<nat, App>, op: PendingOp): map<nat, App> {
    match op.kind
    case Move =>
      var to := DestFor(o, db, op.key);
      var from := FirstHolding(apps, op.key, Buckets(o), Some(to));
      if !Routing(o) || from.None? then apps else Refiled(apps, CopiesIn(apps, op.key, from.value), to)
    case Keyword =>
      var at := FirstHolding(apps, op.key, Buckets(o), None);
      if !o.labelPropagate || Kw(o, op.folder) == "" || at.None? then apps
      else if op.add then Tagged(apps, CopiesIn(apps, op.key, at.value), {Kw(o, op.folder)})
      else Untagged(apps, CopiesIn(apps, op.key, at.value), {Kw(o, op.folder)})
    case Other => apps
  }

  /** The only copy of a key gets the effect of the row. */
  lemma RowOnOne(o: Opts, db: Db, apps: map<nat, App>, op: PendingOp, i: nat)
    requires i in apps && apps[i].folder in Buckets(o)
    requires forall j :: j in apps && apps[j].key == apps[i].key ==> j == i
    ensures RowOn(o, db, apps, op)[i] == Effect(o, db, apps[i], op)
  {
  }

  /** Copy i of key lies in another bucket. */
  predicate Elsewhere(apps: map<nat, App>, key: Key, to: Folder, i: nat) {
    i in apps && apps[i].key == key && apps[i].folder != to
  }

  /** A move gathers all copies of its key in the bucket desired if and only if those elsewhere lie
      in one bucket. */
  lemma TwinsMovedIff(o: Opts, db: Db, apps: map<nat, App>, op: PendingOp)
    requires op.kind == Move && Routing(o)
    requires forall i :: i in apps && apps[i].key == op.key ==> apps[i].folder in Buckets(o)
    ensures var to := DestFor(o, db, op.key);
            (forall i :: i in apps && apps[i].key == op.key ==> RowOn(o, db, apps, op)[i].folder == to) <==>
            (forall i, j :: Elsewhere(apps, op.key, to, i) && Elsewhere(apps, op.key, to, j) ==>
                              apps[i].folder == apps[j].folder)
  {
  }

  /** A keyword row leaves all copies of its key as it says if and only if those outside the first
      bucket that holds any are so already. */
  lemma TwinsTaggedIff(o: Opts, db: Db, apps: map<nat, App>, op: PendingOp)
    requires op.kind == Keyword && o.labelPropagate && Kw(o, op.folder) != ""
    requires forall i :: i in apps && apps[i].key == op.key ==> apps[i].folder in Buckets(o)
    ensures var w, first := Kw(o, op.folder), FirstHolding(apps, op.key, Buckets(o), None);
            (forall i :: i in apps && apps[i].key == op.key ==>
                           (w in RowOn(o, db, apps, op)[i].flags <==> op.add)) <==>
            (forall i :: i in apps && apps[i].key == op.key && Some(apps[i].folder) != first ==>
                           (w in apps[i].flags <==> op.add))
  {
  }

  /** So a key that has a second copy when it is recorded is not tracked, and need not converge: the
      mirror has found a copy without the keyword of its label; with the guard off it appends
      another one, with the keyword, and records that; no row is ever queued, and the first copy
      stays as it was. */
  lemma TwinLeft(o: Opts, f: Folder, k: Key)
    requires ConfigOk(o) && !o.destGuard && o.syncLabels && !IsRoutingFolder(o, f) && Kw(o, f) != ""
    requires o.uidBatch + 2 <= UID_LIMIT && K.IsRealMessageID(k) && k != ""
    ensures exists r :: Legal(o, r) && LeftBehind(o, r, f, k)
  {
    var r0 := TwinFound(o, f, k);
    var r1 := SentRun(o, k, r0, 1);
    LegalThen(o, r1, Confirm(1));
    HandsOffThen(o, r1, Confirm(1));
    var r2 := Then(o, r1, Confirm(1));
    var record := Record([1], [KeyRecord(k, 1)]);
    LegalThen(o, r2, record);
    HandsOffThen(o, r2, record);
    var r := Then(o, r2, record);
    assert [KeyRecord(k, 1)][0] in record.records;
    RecordedAdds(Last(r2).db.copied, record.records);
    assert LeftBehind(o, r, f, k);
  }

  /** Copy 0 has not the keyword that its label asks for, although its key was recorded when copy 1
      was appended, nothing is left to do and no user has touched it. */
  ghost predicate LeftBehind(o: Opts, r: Run, f: Folder, k: Key) {
    && |r.states| > 0 && HandsOff(r) && k !in r.states[0].db.copied && k in Last(r).db.copied
    && 0 in Last(r).apps && Last(r).apps[0].key == k && 1 in Last(r).apps && Last(r).apps[1].key == k
    && Kw(o, f) in KeywordsOf(o, Last(r).db, k) && Last(r).db.pending == [] && !Stale(o, Last(r).db)
    && Kw(o, f) in Last(r).apps[1].flags && Kw(o, f) !in Last(r).apps[0].flags
  }

  /** A mirror carried over, with a member of label f, that found a copy of it, and has adopted the
      epoch. */
  lemma TwinFound(o: Opts, f: Folder, k: Key) returns (r: Run)
    requires ConfigOk(o) && o.syncLabels && !IsRoutingFolder(o, f) && Kw(o, f) != ""
    requires o.uidBatch + 2 <= UID_LIMIT && k != ""
    ensures Open(o, r, k) && Last(r).busy && k !in r.states[0].db.copied
    ensures Last(r).apps == map[0 := App(k, o.destFolder, {}, true)] && Last(r).arrived == {0}
    ensures Last(r).db.pending == [] && !Stale(o, Last(r).db) && Kw(o, f) in KeywordsOf(o, Last(r).db, k)
  {
    var db := EMPTY.(fingerprint := Fingerprint(o), members := map[(f, k) := 1]);
    var s := Start(o, Mail(k), map[], db, map[0 := App(k, o.destFolder, {}, true)], {k});
    assert (1, k) in NamesIn(Mail(k)) by { assert Mail(k).msgs[1] == k; }
    r := EpochRun(o, k, Run([s], []));
    assert (f, k) in Last(r).db.members && IsLabelOf(o, Last(r).db, f, k);
  }

  // ------------------------------------------------ copies the guard records

  /** The copy lies in the bucket of its membership and has exactly its keywords. */
  ghost predicate Right(o: Opts, db: Db, app: App) {
    && app.folder == DestFor(o, db, app.key)
    && forall f :: Kw(o, f) in KeywordsOf(o, db, app.key) <==> Kw(o, f) in app.flags
  }

  /** When the guard (or seeding) records a key, no operation of it is queued. So draining the
      queue leaves a copy that nobody has edited, as it was appended while the tables were db0,
      right if and only if the same bucket and the same keywords are asked for now as then: the
      changes of membership in between are lost on it. */
  lemma GuardRecordsIff(o: Opts, s: Sys, records: seq<KeyRecord>, i: nat, db0: Db)
    requires KnownLabels(o, s, s.db) && i in s.apps
    requires s.apps[i].key in RecordedKeys(records) && s.apps[i].key !in s.db.copied
    requires var k := s.apps[i].key; s.apps[i] == App(k, DestFor(o, db0, k), KeywordsOf(o, db0, k), true)
    ensures var s', k := Do(o, s, RecordSeen(records)), s.apps[i].key;
            && k in s'.db.copied
            && (Right(o, s'.db, Replay(o, s'.db, s'.apps[i], s'.db.pending)) <==>
                  DestFor(o, s.db, k) == DestFor(o, db0, k) && KeywordsOf(o, s.db, k) == KeywordsOf(o, db0, k))
  {
    var s', k := Do(o, s, RecordSeen(records)), s.apps[i].key;
    RecordedAdds(s.db.copied, records);
    NotConcerned(o, s'.db, s.apps[i], s.db.pending);
    KeywordsSame(o, s.db, s'.db, k);
    if Right(o, s.db, s.apps[i]) { SameAsked(o, s.db, db0, k); }
  }

  lemma SameAsked(o: Opts, db: Db, db': Db, k: Key)
    requires forall f :: Kw(o, f) in KeywordsOf(o, db, k) <==> Kw(o, f) in KeywordsOf(o, db', k)
    ensures KeywordsOf(o, db, k) == KeywordsOf(o, db', k)
  {
    KeywordsNamed(o, db, k);
    KeywordsNamed(o, db', k);
  }

  lemma KeywordsNamed(o: Opts, db: Db, k: Key)
    ensures forall w :: w in KeywordsOf(o, db, k) ==> exists f :: w == Kw(o, f)
  {
    forall w | w in KeywordsOf(o, db, k) ensures exists f :: w == Kw(o, f) {
      var fk :| fk in db.members && fk.1 == k && !IsRoutingFolder(o, fk.0) && Kw(o, fk.0) == w;
    }
  }

  /** Rows of other keys leave a copy alone. */
  lemma {:induction false} NotConcerned(o: Opts, db: Db, app: App, q: seq<PendingOp>)
    requires forall op :: op in q ==> op.key != app.key
    ensures Replay(o, db, app, q) == app
  {
    if q != [] {
      NotConcerned(o, db, app, q[..|q| - 1]);
    }
  }

  /** A copy of which the guard records the key, in the wrong bucket from then on: it is appended
      and lands in the archive, and the mirror crashes before recording it. Then the message joins
      the inbox; no move is queued, because the key is not recorded; and the guard records it
      where it is. */
  lemma GuardMisplaced(o: Opts, k: Key)
    requires ConfigOk(o) && o.destGuard && o.archiveRouting && o.uidBatch + 2 <= UID_LIMIT
    requires K.IsRealMessageID(k) && k != ""
    ensures exists r :: Legal(o, r) && Misplaced(o, r, 1) && GuardRecorded(r, k) && Last(r).apps[1].key == k
                        && (o.sourceInbox, k) in Last(r).db.members && Last(r).src.uidNext <= Last(r).db.lastUid + 1
  {
    var r0 := SettledRun(o, k);
    var r1 := LandedRun(o, k, r0);
    var r2 := JoinedRun(o, k, r1);
    var r3 := FoundRun(o, k, r2);
    LegalThen(o, r3, Mark(1));
    HandsOffThen(o, r3, Mark(1));
    var r := Then(o, r3, Mark(1));
    assert RecordSeen([KeyRecord(k, 1)]) in r3.steps && r.steps == r3.steps + [Mark(1)];
    assert GuardRecorded(r, k);
    InInbox(o, Last(r).db, k);
    assert Misplaced(o, r, 1);
  }

  ghost predicate GuardRecorded(r: Run, k: Key) {
    exists st :: st in r.steps && st.RecordSeen? && k in RecordedKeys(st.records)
  }

  ghost function Mail(k: Key): Mailbox { Mailbox(1, 2, map[1 := k]) }

  /** The tables while the inbox has been followed up to the mark and no key is recorded. */
  function InboxDb(o: Opts, members: map<(Folder, Key), nat>, mark: nat): Db {
    EMPTY.(fingerprint := Fingerprint(o), uidValidity := 1, members := members,
           folders := map[o.sourceInbox := FolderMark(1, mark)])
  }

  /** No user has touched a copy, no append is open and nothing is tracked. */
  ghost predicate Undisturbed(o: Opts, r: Run, k: Key) {
    && Legal(o, r) && HandsOff(r) && Last(r).live == map[] && Last(r).placed == {} && Last(r).tagged == {}
    && Last(r).src == Mail(k)
  }

  /** The inbox is empty and followed, the epoch adopted, and the guard has found no copy of k. */
  lemma SettledRun(o: Opts, k: Key) returns (r: Run)
    requires ConfigOk(o) && o.uidBatch + 2 <= UID_LIMIT && K.IsRealMessageID(k) && k != ""
    ensures Undisturbed(o, r, k) && Last(r).busy && Last(r).watched == map[o.sourceInbox := NO_MAIL]
    ensures Last(r).db == InboxDb(o, map[], 0) && Last(r).apps == map[] && Last(r).arrived == {}
    ensures MessageIs(Last(r), 1, k) && k in Last(r).cleared
  {
    var r0 := FollowedRun(o, k);
    LegalThen(o, r0, Adopt);
    HandsOffThen(o, r0, Adopt);
    var r1 := Then(o, r0, Adopt);
    LegalThen(o, r1, Clear({k}));
    HandsOffThen(o, r1, Clear({k}));
    r := Then(o, r1, Clear({k}));
  }

  lemma FollowedRun(o: Opts, k: Key) returns (r: Run)
    requires ConfigOk(o) && o.uidBatch + 2 <= UID_LIMIT && k != ""
    ensures Undisturbed(o, r, k) && Last(r).busy && Last(r).watched == map[o.sourceInbox := NO_MAIL]
    ensures Last(r).db == InboxDb(o, map[], 0).(uidValidity := 0) && Last(r).apps == map[] && Last(r).arrived == {}
    ensures MessageIs(Last(r), 1, k)
  {
    var f := o.sourceInbox;
    var r0 := Run([Start(o, Mail(k), map[f := NO_MAIL], EMPTY.(fingerprint := Fingerprint(o)), map[], {})], []);
    assert (1, k) in NamesIn(Mail(k)) by { assert Mail(k).msgs[1] == k; }
    LegalThen(o, r0, Begin);
    HandsOffThen(o, r0, Begin);
    var r1 := Then(o, r0, Begin);
    LegalThen(o, r1, MarkFolder(f, 0));
    HandsOffThen(o, r1, MarkFolder(f, 0));
    r := Then(o, r1, MarkFolder(f, 0));
  }

  /** The body is fetched and appended to the archive; the append lands, and the session ends. */
  lemma LandedRun(o: Opts, k: Key, r: Run) returns (r': Run)
    requires ConfigOk(o) && o.archiveRouting && o.uidBatch + 2 <= UID_LIMIT && k != ""
    requires Undisturbed(o, r, k) && Last(r).busy && Last(r).watched == map[o.sourceInbox := NO_MAIL]
    requires Last(r).db == InboxDb(o, map[], 0) && Last(r).apps == map[] && Last(r).arrived == {}
    requires MessageIs(Last(r), 1, k) && k in Last(r).cleared
    ensures Undisturbed(o, r', k) && !Last(r').busy && Last(r').watched == Last(r).watched && Last(r').db == Last(r).db
    ensures Last(r').apps == map[1 := App(k, o.archiveFolder, {}, true)] && k in Last(r').observed
  {
    var app := App(k, o.archiveFolder, {}, false);
    var fetch := Stream(map[1 := k], {1}, true);
    LegalThen(o, r, fetch);
    HandsOffThen(o, r, fetch);
    var r1 := Then(o, r, fetch);
    assert fetch.asked[1] == k && k in Last(r1).bodies;
    var r2 := SentTo(o, k, r1, app);
    r' := ClosedRun(o, k, r2, app);
  }

  /** The append lands, and the session ends. */
  lemma ClosedRun(o: Opts, k: Key, r: Run, app: App) returns (r': Run)
    requires Legal(o, r) && HandsOff(r) && Last(r).apps == map[1 := app] && Last(r).src == Mail(k)
    requires app.key == k && !app.landed && o.uidBatch + 2 <= UID_LIMIT && k != ""
    requires Last(r).watched == map[o.sourceInbox := NO_MAIL] && Last(r).placed == {} && Last(r).tagged == {}
    ensures Undisturbed(o, r', k) && !Last(r').busy && Last(r').watched == Last(r).watched && Last(r').db == Last(r).db
    ensures Last(r').apps == map[1 := app.(landed := true)] && k in Last(r').observed
  {
    var landed := Env(Mail(k), Last(r).watched, map[1 := app.(landed := true)]);
    MayLand(o, k, Last(r), app, landed);
    LegalThen(o, r, landed);
    HandsOffThen(o, r, landed);
    var r1 := Then(o, r, landed);
    LegalThen(o, r1, End);
    HandsOffThen(o, r1, End);
    r' := Then(o, r1, End);
  }

  lemma MayLand(o: Opts, k: Key, s: Sys, app: App, st: Step)
    requires s.apps == map[1 := app] && s.src == Mail(k) && s.watched == map[o.sourceInbox := NO_MAIL]
    requires app.key == k && !app.landed && o.uidBatch + 2 <= UID_LIMIT && k != ""
    requires st == Env(Mail(k), s.watched, map[1 := app.(landed := true)])
    ensures Enabled(o, s, st) && NotEdited(s.apps, st.apps)
    ensures var s' := Do(o, s, st);
            k in s'.observed && s'.placed == s.placed && s'.tagged == s.tagged && s'.apps == st.apps && s'.db == s.db
  {
    assert st.apps[1].landed && st.apps[1].key == k;
    SeenNow(o, s, st, k);
  }

  lemma SeenNow(o: Opts, s: Sys, st: Step, k: Key)
    requires st.Env? && k in LandedKeys(st.apps) && NotEdited(s.apps, st.apps)
    ensures var s' := Do(o, s, st);
            k in s'.observed && s'.placed == s.placed && s'.tagged == s.tagged && s'.apps == st.apps && s'.db == s.db
  {
    assert Moved(s.apps, st.apps) == {};
  }

  lemma SentTo(o: Opts, k: Key, r: Run, app: App) returns (r': Run)
    requires ConfigOk(o) && o.archiveRouting && Undisturbed(o, r, k) && Last(r).busy
    requires Last(r).db == InboxDb(o, map[], 0) && Last(r).apps == map[] && Last(r).arrived == {}
    requires k in Last(r).cleared && k in Last(r).bodies && app == App(k, o.archiveFolder, {}, false)
    ensures Legal(o, r') && HandsOff(r') && Last(r').apps == map[1 := app] && Last(r').live == map[1 := k]
    ensures Last(r').src == Last(r).src && Last(r').watched == Last(r).watched && Last(r').db == Last(r).db
    ensures Last(r').placed == {} && Last(r').tagged == {} && Last(r').arrived == {}
  {
    var sent := Issue(1, k, app.folder, {});
    LegalThen(o, r, sent);
    HandsOffThen(o, r, sent);
    r' := Then(o, r, sent);
  }

  /** The message joins the inbox, and the next session records it as a member. No move is
      queued. */
  lemma JoinedRun(o: Opts, k: Key, r: Run) returns (r': Run)
    requires ConfigOk(o) && o.archiveRouting && o.uidBatch + 2 <= UID_LIMIT && k != ""
    requires Undisturbed(o, r, k) && !Last(r).busy && Last(r).watched == map[o.sourceInbox := NO_MAIL]
    requires Last(r).db == InboxDb(o, map[], 0) && k in Last(r).observed
    requires Last(r).apps == map[1 := App(k, o.archiveFolder, {}, true)]
    ensures Undisturbed(o, r', k) && Last(r').busy && Last(r').watched == map[o.sourceInbox := Mail(k)]
    ensures Last(r').db == InboxDb(o, map[(o.sourceInbox, k) := 1], 0)
    ensures Last(r').apps == Last(r).apps && k in Last(r').observed
  {
    var f, metas := o.sourceInbox, [KeyRecord(k, 1)];
    var r1 := ArrivedRun(o, k, r);
    var s := Last(r1);
    var add := Sync.Additions(o, s.db, f, metas, {}, false);
    assert KeyRecord(s.watched[f].msgs[1], 1) in metas;
    Sync.AdditionsOk(o, s, f, metas, 1, 1, {}, false);
    assert add == [Change(k, 1, true, None)] && ApplyChanges(s.db, f, add[..0]) == s.db;
    QuietAdd(o, s, f, add);
    LegalThen(o, r1, Members(f, add));
    HandsOffThen(o, r1, Members(f, add));
    r' := Then(o, r1, Members(f, add));
  }

  /** A batch that queues nothing brings no copy under tracking. */
  lemma QuietAdd(o: Opts, s: Sys, f: Folder, add: seq<Change>)
    requires s.placed == {} && forall c :: c in add ==> c.kind == None
    ensures Do(o, s, Members(f, add)).placed == {} && Do(o, s, Members(f, add)).tagged == s.tagged
  {
    MembersFrame(o, s, Members(f, add));
    QueuedRowsStem(f, add, s.db.nextId);
    var rows := QueuedRows(f, add, s.db.nextId);
    assert |rows| > 0 ==> RowFrom(rows[0], add);
  }

  lemma ArrivedRun(o: Opts, k: Key, r: Run) returns (r': Run)
    requires o.uidBatch + 2 <= UID_LIMIT && k != ""
    requires Undisturbed(o, r, k) && !Last(r).busy && Last(r).watched == map[o.sourceInbox := NO_MAIL]
    ensures Undisturbed(o, r', k) && Last(r').busy && Last(r').watched == map[o.sourceInbox := Mail(k)]
    ensures Last(r').db == Last(r).db && Last(r').apps == Last(r).apps && Last(r).observed <= Last(r').observed
  {
    var back := Env(Mail(k), map[o.sourceInbox := Mail(k)], Last(r).apps);
    MayJoin(o, k, Last(r), back);
    NothingEdited(o, Last(r), back);
    LegalThen(o, r, back);
    HandsOffThen(o, r, back);
    var r1 := Then(o, r, back);
    LegalThen(o, r1, Begin);
    HandsOffThen(o, r1, Begin);
    r' := Then(o, r1, Begin);
  }

  lemma MayJoin(o: Opts, k: Key, s: Sys, st: Step)
    requires o.uidBatch + 2 <= UID_LIMIT && k != "" && s.src == Mail(k) && s.watched == map[o.sourceInbox := NO_MAIL]
    requires st == Env(Mail(k), map[o.sourceInbox := Mail(k)], s.apps)
    ensures Enabled(o, s, st)
  {
  }

  /** The inbox is marked, and the guard finds the copy and records it. */
  lemma FoundRun(o: Opts, k: Key, r: Run) returns (r': Run)
    requires Undisturbed(o, r, k) && Last(r).busy && Last(r).watched == map[o.sourceInbox := Mail(k)]
    requires Last(r).db == InboxDb(o, map[(o.sourceInbox, k) := 1], 0) && k in Last(r).observed
    ensures Undisturbed(o, r', k) && Last(r').busy && Last(r').apps == Last(r).apps
    ensures Last(r').db == InboxDb(o, map[(o.sourceInbox, k) := 1], 1).(copied := map[k := 1])
    ensures RecordSeen([KeyRecord(k, 1)]) in r'.steps
  {
    var records := [KeyRecord(k, 1)];
    var r1 := MarkedRun(o, k, r);
    assert Recorded(map[], records[..0]) == map[] && Recorded(map[], records) == map[k := 1];
    LegalThen(o, r1, RecordSeen(records));
    HandsOffThen(o, r1, RecordSeen(records));
    r' := Then(o, r1, RecordSeen(records));
    assert r'.steps[|r1.steps|] == RecordSeen(records);
  }

  lemma MarkedRun(o: Opts, k: Key, r: Run) returns (r': Run)
    requires Undisturbed(o, r, k) && Last(r).busy && Last(r).watched == map[o.sourceInbox := Mail(k)]
    requires Last(r).db == InboxDb(o, map[(o.sourceInbox, k) := 1], 0)
    ensures Undisturbed(o, r', k) && Last(r').busy
    ensures Last(r').apps == Last(r).apps && Last(r').observed == Last(r).observed
    ensures Last(r').db == InboxDb(o, map[(o.sourceInbox, k) := 1], 1)
  {
    LegalThen(o, r, MarkFolder(o.sourceInbox, 1));
    HandsOffThen(o, r, MarkFolder(o.sourceInbox, 1));
    r' := Then(o, r, MarkFolder(o.sourceInbox, 1));
  }
}
