/** Where tracked copies end up: in the bucket their membership asks for and under the
    keywords of their labels, once the queue has been drained. */
module Convergence {
  import opened Wrappers
  import opened State
  import opened Placement
  import opened Protocol
  import opened Safety
  import K = Key

  /** A key under way is not recorded and belongs to one open append; with the guard on, a
      searchable one to no other copy, and it is not cleared again. */
  ghost predicate SoleInv(o: Opts, s: Sys) {
    forall i :: i in s.live ==>
      && s.live[i] !in s.db.copied
      && (forall j :: j in s.live && s.live[j] == s.live[i] ==> j == i)
      && (o.destGuard && K.IsRealMessageID(s.live[i]) ==> SoleCopy(s, i))
  }

  ghost predicate SoleCopy(s: Sys, i: nat)
    requires i in s.live
  {
    s.live[i] !in s.cleared && forall j :: j in s.apps && s.apps[j].key == s.live[i] ==> j == i
  }

  /** A live copy is where its membership puts it, unless a user moved it, with the keywords of its
      labels, apart from those a user changed or a refusal took off. */
  ghost predicate IssuedInv(o: Opts, s: Sys) {
    forall i :: i in s.live && i in s.apps ==> IssuedOk(o, s, i)
  }

  ghost predicate IssuedOk(o: Opts, s: Sys, i: nat)
    requires i in s.live && i in s.apps
  {
    var k := s.live[i];
    && (i !in s.refiled ==> s.apps[i].folder == DestFor(o, s.db, k))
    && forall w :: w !in Of(s.retagged, i) ==>
         && (w in s.apps[i].flags ==> w in KeywordsOf(o, s.db, k))
         && (w in KeywordsOf(o, s.db, k) && k !in s.rejected ==> w in s.apps[i].flags)
  }

  /** Tracked copies are searchable and recorded. */
  ghost predicate KnownKeys(s: Sys) {
    && s.placed <= s.arrived && s.tagged <= s.arrived
    && (forall i :: i in s.apps && (i in s.placed || i in s.tagged) ==>
          s.apps[i].key in s.db.copied && K.IsRealMessageID(s.apps[i].key))
  }

  /** Rows concern recorded keys; members and keyword rows name scanned label folders. */
  ghost predicate KnownLabels(o: Opts, s: Sys, h: Db) {
    && (forall op :: op in h.pending ==> op.key in h.copied && K.IsRealMessageID(op.key))
    && (forall op :: op in h.pending && op.kind == Keyword ==> op.folder in s.labels && o.labelPropagate)
    && (forall f, k :: (f, k) in h.members ==> IsRoutingFolder(o, f) || f in s.labels)
  }

  ghost predicate LabelInv(o: Opts, s: Sys) {
    && (forall f :: f in s.labels ==> !IsRoutingFolder(o, f))
    && forall h :: h in s.hist ==> KnownLabels(o, s, h)
  }

  ghost predicate PlacedOk(o: Opts, s: Sys, i: nat)
    requires i in s.apps
  {
    || Stale(o, s.db)
    || s.apps[i].folder == DestFor(o, s.db, s.apps[i].key)
    || HasMove(s.db.pending, s.apps[i].key)
  }

  /** Every tracked copy is in its bucket, or a move is queued, or the backfill is due. */
  ghost predicate PlaceInv(o: Opts, s: Sys) {
    forall i :: i in s.apps && i in s.placed ==> PlacedOk(o, s, i)
  }

  ghost predicate TagOk(o: Opts, s: Sys, i: nat, f: Folder)
    requires i in s.apps
  {
    var k := s.apps[i].key;
    if HasKeyword(s.db.pending, k, f) then
      LastAdds(s.db.pending, k, f) == ((f, k) in s.db.members)
    else
      && (Kw(o, f) in s.apps[i].flags ==> (f, k) in s.db.members)
      && ((f, k) in s.db.members ==> Stale(o, s.db) || Kw(o, f) in s.apps[i].flags)
  }

  ghost predicate TagsOk(o: Opts, s: Sys, i: nat)
    requires i in s.apps
  {
    && (forall f :: OwnKeyword(o, s, f) && Kw(o, f) !in Of(s.loose, i) ==> TagOk(o, s, i, f))
    && FlagsKnown(o, s, i)
  }

  /** The tracked keywords a copy carries are those of scanned labels. */
  ghost predicate FlagsKnown(o: Opts, s: Sys, i: nat)
    requires i in s.apps
  {
    forall w :: w in s.apps[i].flags && w !in Of(s.loose, i) ==> exists f :: f in s.labels && Kw(o, f) == w
  }

  /** Draining the queue gives every tracked copy exactly the keywords of its labels, those
      excused and additions by a due backfill aside. */
  ghost predicate TagInv(o: Opts, s: Sys) {
    forall i :: i in s.apps && i in s.tagged ==> TagsOk(o, s, i)
  }

  // ------------------------------------------------------------------ frames

  /** The steps that change none of what these invariants speak of, the session aside. */
  predicate Neutral(st: Step) {
    || st.Begin? || st.Confirm? || st.Stream? || st.FirstScan? || st.NewEpoch?
    || st.ResetMark? || st.Adopt? || st.Mark? || st.MarkFolder?
  }

  lemma NeutralFrame(o: Opts, s: Sys, st: Step)
    requires Neutral(st)
    ensures var s' := Do(o, s, st);
            && s'.apps == s.apps && s'.live == s.live && s'.cleared == s.cleared
            && s'.refiled == s.refiled && s'.retagged == s.retagged && s'.rejected == s.rejected
            && s'.labels == s.labels && s'.arrived == s.arrived
            && s'.placed == s.placed && s'.tagged == s.tagged && s'.loose == s.loose
            && s'.db.copied == s.db.copied && s'.db.members == s.db.members
            && s'.db.pending == s.db.pending && s'.db.fingerprint == s.db.fingerprint
            && s'.hist <= s.hist + {s'.db}
  {
  }

  lemma KeywordsSame(o: Opts, db: Db, db': Db, k: Key)
    requires db'.members == db.members
    ensures KeywordsOf(o, db', k) == KeywordsOf(o, db, k) && DestFor(o, db', k) == DestFor(o, db, k)
  {
  }

  lemma DestSame(o: Opts, db: Db, db': Db, k: Key)
    requires forall f :: IsRoutingFolder(o, f) ==> ((f, k) in db'.members <==> (f, k) in db.members)
    ensures DestFor(o, db', k) == DestFor(o, db, k)
  {
  }

  /** The keywords of a message are those of its label memberships. */
  lemma KeywordIn(o: Opts, s: Sys, k: Key, f: Folder)
    requires o.syncLabels && OwnKeyword(o, s, f) && KnownLabels(o, s, s.db) && !IsRoutingFolder(o, f)
    ensures Kw(o, f) in KeywordsOf(o, s.db, k) <==> (f, k) in s.db.members
  {
    if (f, k) in s.db.members {
      assert IsLabelOf(o, s.db, f, k);
    }
    if Kw(o, f) in KeywordsOf(o, s.db, k) {
      var fk :| fk in s.db.members && fk.1 == k && !IsRoutingFolder(o, fk.0) && Kw(o, fk.0) == Kw(o, f);
      assert (fk.0, fk.1) in s.db.members;
      assert fk.0 in s.labels;
    }
  }

  lemma KeywordsKnown(o: Opts, s: Sys, k: Key)
    requires KnownLabels(o, s, s.db)
    ensures forall w :: w in KeywordsOf(o, s.db, k) ==> exists f :: f in s.labels && Kw(o, f) == w
  {
    forall w | w in KeywordsOf(o, s.db, k) ensures exists f :: f in s.labels && Kw(o, f) == w {
      var fk :| fk in s.db.members && fk.1 == k && !IsRoutingFolder(o, fk.0) && Kw(o, fk.0) == w;
      assert (fk.0, fk.1) in s.db.members;
      assert fk.0 in s.labels;
    }
  }

  // ------------------------------------------------------------- SoleInv

  lemma SoleStep(o: Opts, s: Sys, st: Step)
    requires LiveInv(o, s) && SoleInv(o, s) && Enabled(o, s, st) && (o.destGuard ==> CopyInv(o, s))
    ensures SoleInv(o, Do(o, s, st))
  {
    if Neutral(st) {
      NeutralFrame(o, s, st);
    } else if st.Env? {
      SoleEnv(o, s, st);
    } else if st.Issue? {
      SoleIssue(o, s, st);
    } else if st.Reject? {
      SoleReject(o, s, st);
    } else if st.Record? {
      SoleRecord(o, s, st);
    } else if st.End? || st.Rollback? || st.Clear? {
    } else {
      SoleIdle(o, s, st);
    }
  }

  lemma SoleEnv(o: Opts, s: Sys, st: Step)
    requires SoleInv(o, s) && Enabled(o, s, st) && st.Env?
    ensures SoleInv(o, Do(o, s, st))
  {
  }

  lemma SoleIssue(o: Opts, s: Sys, st: Step)
    requires LiveInv(o, s) && SoleInv(o, s) && (o.destGuard ==> CopyInv(o, s))
    requires Enabled(o, s, st) && st.Issue?
    ensures SoleInv(o, Do(o, s, st))
  {
    var s' := Do(o, s, st);
    IssueFrame(o, s, st);
    if o.destGuard && K.IsRealMessageID(st.key) { SoleNew(o, s, s', st); }
    forall i | i in s.live && o.destGuard && K.IsRealMessageID(s.live[i]) ensures SoleCopy(s', i) {
      assert SoleCopy(s, i);
    }
  }

  lemma SoleNew(o: Opts, s: Sys, s': Sys, st: Step)
    requires CopyInv(o, s) && st.Issue? && st.key in s.cleared && s'.cleared == s.cleared - {st.key}
    requires s'.apps == s.apps[st.id := App(st.key, st.folder, st.flags, false)] && s'.live == s.live[st.id := st.key]
    ensures SoleCopy(s', st.id)
  {
  }

  lemma IssueFrame(o: Opts, s: Sys, st: Step)
    requires st.Issue?
    ensures var s' := Do(o, s, st);
            && s'.apps == s.apps[st.id := App(st.key, st.folder, st.flags, false)]
            && s'.live == s.live[st.id := st.key] && s'.cleared == s.cleared - {st.key} && s'.db == s.db
  {
  }

  lemma SoleReject(o: Opts, s: Sys, st: Step)
    requires LiveInv(o, s) && SoleInv(o, s) && Enabled(o, s, st) && st.Reject?
    ensures SoleInv(o, Do(o, s, st))
  {
    var s' := Do(o, s, st);
    RejectFrame(o, s, st);
    forall i | i in s'.live && o.destGuard && K.IsRealMessageID(s'.live[i]) ensures SoleCopy(s', i) {
      assert SoleCopy(s, i);
    }
  }

  /** Every key of a record belongs to one of the appends it settles. */
  lemma RecordedIsLive(s: Sys, st: Step)
    requires st.Record? && RecordOk(s, st.ids, st.records)
    ensures forall k :: k in RecordedKeys(st.records) ==>
              exists id :: id in st.ids && id in s.live && s.live[id] == k
  {
    forall k | k in RecordedKeys(st.records)
      ensures exists id :: id in st.ids && id in s.live && s.live[id] == k
    {
      var j :| 0 <= j < |st.records| && st.records[j].key == k;
      assert st.ids[j] in st.ids;
    }
  }

  lemma SoleRecord(o: Opts, s: Sys, st: Step)
    requires LiveInv(o, s) && SoleInv(o, s) && Enabled(o, s, st) && st.Record?
    ensures SoleInv(o, Do(o, s, st))
  {
    var s' := Do(o, s, st);
    RecordedAdds(s.db.copied, st.records);
    RecordedIsLive(s, st);
  }

  lemma SoleIdle(o: Opts, s: Sys, st: Step)
    requires SoleInv(o, s) && Enabled(o, s, st)
    requires st.RecordSeen? || st.Members? || st.MoveCopies? || st.StoreKeyword? || st.AddKeywords?
             || st.DeleteRows? || st.AdoptFingerprint?
    ensures SoleInv(o, Do(o, s, st))
  {
    if st.DeleteRows? || st.AdoptFingerprint? { QueueFrame(o, s, st); } else { NoneLive(o, s, st); }
  }

  /** These steps are taken only while no append is open. */
  lemma NoneLive(o: Opts, s: Sys, st: Step)
    requires Enabled(o, s, st)
    requires st.RecordSeen? || st.Members? || st.MoveCopies? || st.StoreKeyword? || st.AddKeywords?
    ensures Do(o, s, st).live == map[]
  {
  }

  lemma QueueFrame(o: Opts, s: Sys, st: Step)
    requires st.DeleteRows? || st.AdoptFingerprint?
    ensures var s' := Do(o, s, st);
            s'.live == s.live && s'.cleared == s.cleared && s'.apps == s.apps && s'.db.copied == s.db.copied
  {
  }

  // ----------------------------------------------------------- IssuedInv

  lemma IssuedStep(o: Opts, s: Sys, st: Step)
    requires LiveInv(o, s) && IssuedInv(o, s) && Enabled(o, s, st)
    ensures IssuedInv(o, Do(o, s, st))
  {
    if Neutral(st) {
      NeutralFrame(o, s, st);
      IssuedSame(o, s, Do(o, s, st));
    } else if st.Env? {
      IssuedEnv(o, s, st);
    } else if st.Issue? || st.Reject? {
      IssuedAppend(o, s, st);
    } else if st.Record? {
      IssuedRecord(o, s, st);
    } else if st.End? || st.Rollback? || st.Clear? {
    } else if st.AdoptFingerprint? || st.DeleteRows? {
      IssuedSame(o, s, Do(o, s, st));
    } else {
      IssuedIdle(o, s, st);
    }
  }

  lemma IssuedSame(o: Opts, s: Sys, s': Sys)
    requires IssuedInv(o, s) && s'.live == s.live && s'.apps == s.apps && s'.refiled == s.refiled
    requires s'.retagged == s.retagged && s'.rejected == s.rejected && s'.db.members == s.db.members
    ensures IssuedInv(o, s')
  {
    forall i | i in s'.live && i in s'.apps ensures IssuedOk(o, s', i) {
      assert IssuedOk(o, s, i);
      KeywordsSame(o, s.db, s'.db, s.live[i]);
    }
  }

  lemma IssuedEnv(o: Opts, s: Sys, st: Step)
    requires LiveInv(o, s) && IssuedInv(o, s) && Enabled(o, s, st) && st.Env?
    ensures IssuedInv(o, Do(o, s, st))
  {
    var s' := Do(o, s, st);
    forall i | i in s'.live && i in s'.apps ensures IssuedOk(o, s', i) {
      assert IssuedOk(o, s, i);
      EditsAt(s.retagged, s.apps, s'.apps, i);
    }
  }

  /** What an edit leaves of the keywords that are not excused by it. */
  lemma EditsAt(m: map<nat, set<string>>, apps: map<nat, App>, apps': map<nat, App>, i: nat)
    requires i in apps && i in apps'
    ensures Of(m, i) <= Of(WithEdits(m, apps, apps'), i)
    ensures forall w :: w !in Of(WithEdits(m, apps, apps'), i) ==> (w in apps'[i].flags <==> w in apps[i].flags)
  {
  }

  lemma IssuedAppend(o: Opts, s: Sys, st: Step)
    requires LiveInv(o, s) && IssuedInv(o, s) && Enabled(o, s, st) && (st.Issue? || st.Reject?)
    ensures IssuedInv(o, Do(o, s, st))
  {
    var s' := Do(o, s, st);
    forall i | i in s'.live && i in s'.apps ensures IssuedOk(o, s', i) {
      if i in s.live && i in s.apps { assert IssuedOk(o, s, i); }
    }
  }

  lemma IssuedRecord(o: Opts, s: Sys, st: Step)
    requires IssuedInv(o, s) && Enabled(o, s, st) && st.Record?
    ensures IssuedInv(o, Do(o, s, st))
  {
    var s' := Do(o, s, st);
    forall i | i in s'.live && i in s'.apps ensures IssuedOk(o, s', i) {
      assert IssuedOk(o, s, i);
      KeywordsSame(o, s.db, s'.db, s.live[i]);
    }
  }

  lemma IssuedIdle(o: Opts, s: Sys, st: Step)
    requires Enabled(o, s, st)
    requires st.RecordSeen? || st.Members? || st.MoveCopies? || st.StoreKeyword? || st.AddKeywords?
    ensures IssuedInv(o, Do(o, s, st))
  {
  }

  // ----------------------------------------------------- KnownKeys, LabelInv

  lemma KnownKeysStep(o: Opts, s: Sys, st: Step)
    requires KnownKeys(s) && LiveInv(o, s) && Enabled(o, s, st)
    ensures KnownKeys(Do(o, s, st))
  {
    if Neutral(st) {
      NeutralFrame(o, s, st);
    } else if st.Record? {
      RecordedAdds(s.db.copied, st.records);
      KnownRecord(o, s, st);
    } else if st.RecordSeen? {
      RecordedAdds(s.db.copied, st.records);
    } else if st.Members? {
      KnownMembers(o, s, st);
    }
  }

  lemma KnownRecord(o: Opts, s: Sys, st: Step)
    requires KnownKeys(s) && LiveInv(o, s) && Enabled(o, s, st) && st.Record?
    requires Recorded(s.db.copied, st.records).Keys == s.db.copied.Keys + RecordedKeys(st.records)
    ensures KnownKeys(Do(o, s, st))
  {
    forall i | i in st.ids && i in s.apps ensures i in s.arrived && s.apps[i].key in RecordedKeys(st.records) {
      var j :| 0 <= j < |st.ids| && st.ids[j] == i;
      assert st.records[j] in st.records;
    }
  }

  lemma KnownMembers(o: Opts, s: Sys, st: Step)
    requires KnownKeys(s) && LiveInv(o, s) && Enabled(o, s, st) && st.Members?
    ensures KnownKeys(Do(o, s, st))
  {
    ChangesFrame(s.db, st.folder, st.changes);
    forall k | Queues(s, st.folder, st.changes, k) ensures k in s.db.copied && K.IsRealMessageID(k) {
      QueuedIsGated(o, s, st.folder, st.changes, k);
    }
  }

  /** What queues an operation is recorded and searchable; the row is of the folder's kind. */
  lemma QueuedIsGated(o: Opts, s: Sys, f: Folder, changes: seq<Change>, k: Key)
    requires GatedOk(o, s, f, changes) && Queues(s, f, changes, k)
    ensures k in s.db.copied && K.IsRealMessageID(k) && k in ChangedKeys(changes)
    ensures exists op :: op in QueuedRows(f, changes, s.db.nextId) && op.key == k && op.folder == f
                         && Some(op.kind) == KindFor(o, f)
  {
    var rows := QueuedRows(f, changes, s.db.nextId);
    var op :| op in rows && op.key == k;
    QueuedRowsStem(f, changes, s.db.nextId);
    var j :| 0 <= j < |rows| && rows[j] == op;
    assert RowFrom(rows[j], changes);
    var c :| c in changes && RowOf(op, c);
    assert c.kind == Gate(s.db, c.key, KindFor(o, f));
  }

  lemma LabelStep(o: Opts, s: Sys, st: Step)
    requires LabelInv(o, s) && s.db in s.hist && Enabled(o, s, st)
    ensures LabelInv(o, Do(o, s, st))
  {
    assert KnownLabels(o, s, s.db);
    if st.Record? || st.RecordSeen? {
      RecordedAdds(s.db.copied, st.records);
      LabelCommit(o, s, st);
    } else if st.Members? {
      LabelMembers(o, s, st);
    } else if Commits(st) {
      LabelCommit(o, s, st);
    } else {
      NoCommitFrame(o, s, st);
      LabelsKept(o, s, st);
    }
  }

  lemma LabelsKept(o: Opts, s: Sys, st: Step)
    requires !st.Members?
    ensures Do(o, s, st).labels == s.labels
  {
  }

  lemma LabelCommit(o: Opts, s: Sys, st: Step)
    requires LabelInv(o, s) && KnownLabels(o, s, s.db) && Commits(st) && !st.Members?
    requires st.Record? || st.RecordSeen? ==> s.db.copied.Keys <= Recorded(s.db.copied, st.records).Keys
    ensures LabelInv(o, Do(o, s, st))
  {
    CommitFrame(o, s, st);
    LabelsKept(o, s, st);
    LabelNow(o, s, st);
    var s' := Do(o, s, st);
    forall h | h in s'.hist ensures KnownLabels(o, s', h) {
      if h in s.hist { assert KnownLabels(o, s, h); }
    }
  }

  lemma LabelNow(o: Opts, s: Sys, st: Step)
    requires KnownLabels(o, s, s.db) && Commits(st) && !st.Members?
    requires st.Record? || st.RecordSeen? ==> s.db.copied.Keys <= Recorded(s.db.copied, st.records).Keys
    ensures KnownLabels(o, s, Do(o, s, st).db)
  {
  }

  lemma LabelMembers(o: Opts, s: Sys, st: Step)
    requires LabelInv(o, s) && KnownLabels(o, s, s.db) && st.Members? && Enabled(o, s, st)
    ensures LabelInv(o, Do(o, s, st))
  {
    var f, changes := st.folder, st.changes;
    var s' := Do(o, s, st);
    ChangesFrame(s.db, f, changes);
    QueuedRowsStem(f, changes, s.db.nextId);
    var rows := QueuedRows(f, changes, s.db.nextId);
    forall op | op in rows
      ensures op.key in s'.db.copied && K.IsRealMessageID(op.key)
      ensures op.kind == Keyword ==> op.folder in s'.labels && o.labelPropagate
    {
      var c :| c in changes && RowOf(op, c);
      assert c.kind == Gate(s.db, c.key, KindFor(o, f));
    }
    forall h | h in s'.hist ensures KnownLabels(o, s', h) {
      if h in s.hist { assert KnownLabels(o, s, h); }
    }
  }

  // ------------------------------------------------------------- PlaceInv

  lemma PlaceStep(o: Opts, s: Sys, st: Step)
    requires KnownKeys(s) && PlaceInv(o, s) && LiveInv(o, s) && IssuedInv(o, s)
    requires Enabled(o, s, st)
    ensures PlaceInv(o, Do(o, s, st))
  {
    if Neutral(st) {
      NeutralFrame(o, s, st);
      PlaceSame(o, s, Do(o, s, st));
    } else if st.Env? {
      PlaceEnv(o, s, st);
    } else if st.Issue? || st.Reject? {
      PlaceAppend(o, s, st);
    } else if st.Record? {
      PlaceRecord(o, s, st);
    } else if st.RecordSeen? || st.StoreKeyword? || st.AddKeywords? || st.MoveCopies? {
      PlaceCopies(o, s, st);
    } else if st.Members? {
      PlaceMembers(o, s, st);
    } else if st.DeleteRows? {
      PlaceDelete(o, s, st);
    } else if st.AdoptFingerprint? {
      PlaceAdopt(o, s, st);
    } else if st.End? || st.Clear? {
      PlaceSame(o, s, Do(o, s, st));
    }
  }

  lemma PlaceSame(o: Opts, s: Sys, s': Sys)
    requires PlaceInv(o, s) && s'.apps == s.apps && s'.placed == s.placed
    requires s'.db.members == s.db.members && s'.db.pending == s.db.pending
    requires s'.db.fingerprint == s.db.fingerprint
    ensures PlaceInv(o, s')
  {
    forall i | i in s'.apps && i in s'.placed ensures PlacedOk(o, s', i) {
      assert PlacedOk(o, s, i);
      KeywordsSame(o, s.db, s'.db, s.apps[i].key);
    }
  }

  lemma PlaceEnv(o: Opts, s: Sys, st: Step)
    requires PlaceInv(o, s) && Enabled(o, s, st) && st.Env?
    ensures PlaceInv(o, Do(o, s, st))
  {
    var s' := Do(o, s, st);
    forall i | i in s'.apps && i in s'.placed ensures PlacedOk(o, s', i) {
      assert PlacedOk(o, s, i);
    }
  }

  lemma PlaceAppend(o: Opts, s: Sys, st: Step)
    requires KnownKeys(s) && LiveInv(o, s) && PlaceInv(o, s) && Enabled(o, s, st) && (st.Issue? || st.Reject?)
    ensures PlaceInv(o, Do(o, s, st))
  {
    var s' := Do(o, s, st);
    forall i | i in s'.apps && i in s'.placed ensures PlacedOk(o, s', i) {
      assert PlacedOk(o, s, i);
    }
  }

  lemma PlaceRecord(o: Opts, s: Sys, st: Step)
    requires PlaceInv(o, s) && LiveInv(o, s) && IssuedInv(o, s)
    requires Enabled(o, s, st) && st.Record?
    ensures PlaceInv(o, Do(o, s, st))
  {
    var s' := Do(o, s, st);
    forall i | i in s'.apps && i in s'.placed ensures PlacedOk(o, s', i) {
      KeywordsSame(o, s.db, s'.db, s.apps[i].key);
      if i in s.placed {
        assert PlacedOk(o, s, i);
      } else {
        assert i in st.ids && i in s.live && IssuedOk(o, s, i);
      }
    }
  }

  lemma PlaceCopies(o: Opts, s: Sys, st: Step)
    requires PlaceInv(o, s) && Enabled(o, s, st)
    requires st.RecordSeen? || st.StoreKeyword? || st.AddKeywords? || st.MoveCopies?
    ensures PlaceInv(o, Do(o, s, st))
  {
    var s' := Do(o, s, st);
    forall i | i in s'.apps && i in s'.placed ensures PlacedOk(o, s', i) {
      assert PlacedOk(o, s, i);
      KeywordsSame(o, s.db, s'.db, s.apps[i].key);
    }
  }

  /** A change of a recorded, searchable key queues a row unless it changes nothing. */
  lemma GatedRow(o: Opts, s: Sys, f: Folder, changes: seq<Change>, k: Key)
    requires GatedOk(o, s, f, changes) && (AllAdd(changes) || AllRemove(changes))
    requires k in s.db.copied && K.IsRealMessageID(k) && KindFor(o, f).Some?
    requires k in ChangedKeys(changes)
    ensures (exists row :: row in QueuedRows(f, changes, s.db.nextId)
                           && row.key == k && row.folder == f && Some(row.kind) == KindFor(o, f))
            || (AllAdd(changes) && ((f, k) in s.db.members || f in s.virgin))
  {
    var c :| c in changes && c.key == k;
    if c.kind.Some? {
      QueuedRowsCover(f, changes, s.db.nextId);
      QueuedRowsStem(f, changes, s.db.nextId);
      assert HasRowOf(QueuedRows(f, changes, s.db.nextId), c);
      var row :| row in QueuedRows(f, changes, s.db.nextId) && RowOf(row, c);
      assert row.folder == f;
    }
  }

  lemma PlaceMembers(o: Opts, s: Sys, st: Step)
    requires KnownKeys(s) && PlaceInv(o, s) && Enabled(o, s, st) && st.Members?
    ensures PlaceInv(o, Do(o, s, st))
  {
    var f, changes := st.folder, st.changes;
    var s' := Do(o, s, st);
    ChangesFrame(s.db, f, changes);
    forall i | i in s'.apps && i in s'.placed ensures PlacedOk(o, s', i) {
      var k := s.apps[i].key;
      if IsRoutingFolder(o, f) && Queues(s, f, changes, k) {
        QueuedIsGated(o, s, f, changes, k);
      } else {
        assert PlacedOk(o, s, i);
        PlaceStays(o, s, s', f, changes, k, i);
      }
    }
  }

  /** No move is queued for a key only when its placement is as before, or stops being tracked. */
  lemma PlaceStays(o: Opts, s: Sys, s': Sys, f: Folder, changes: seq<Change>, k: Key, i: nat)
    requires KnownKeys(s) && MembersOk(o, s, f, changes) && s'.db == ApplyChanges(s.db, f, changes)
    requires i in s.apps && i in s'.apps && s'.apps[i] == s.apps[i] && s.apps[i].key == k && PlacedOk(o, s, i)
    requires i in s.placed && !(IsRoutingFolder(o, f) && Queues(s, f, changes, k))
    requires IsRoutingFolder(o, f) && !Stale(o, s.db) ==> k !in Unqueued(s, f, changes)
    ensures PlacedOk(o, s', i)
  {
    ChangesFrame(s.db, f, changes);
    if IsRoutingFolder(o, f) && k in ChangedKeys(changes) {
      GatedRow(o, s, f, changes, k);
      if AllAdd(changes) { AddsEffect(s.db, f, changes); }
      if (f, k) in s.db.members && (f, k) in s'.db.members {
        DestSame(o, s.db, s'.db, k);
      }
    } else {
      DestSame(o, s.db, s'.db, k);
    }
  }

  lemma PlaceDelete(o: Opts, s: Sys, st: Step)
    requires PlaceInv(o, s) && Enabled(o, s, st) && st.DeleteRows?
    ensures PlaceInv(o, Do(o, s, st))
  {
    var s' := Do(o, s, st);
    var q := s.db.pending;
    assert q == q[..st.n] + q[st.n..];
    forall i | i in s'.apps && i in s'.placed ensures PlacedOk(o, s', i) {
      assert PlacedOk(o, s, i);
      KeywordsSame(o, s.db, s'.db, s.apps[i].key);
      if HasMove(q, s.apps[i].key) && !HasMove(q[st.n..], s.apps[i].key) {
        assert HasMove(q[..st.n], s.apps[i].key);
      }
    }
  }

  lemma PlaceAdopt(o: Opts, s: Sys, st: Step)
    requires PlaceInv(o, s) && Enabled(o, s, st) && st.AdoptFingerprint?
    ensures PlaceInv(o, Do(o, s, st))
  {
    var s' := Do(o, s, st);
    forall i | i in s'.apps && i in s'.placed ensures PlacedOk(o, s', i) {
      KeywordsSame(o, s.db, s'.db, s.apps[i].key);
    }
  }

  // --------------------------------------------------------------- TagInv

  lemma {:induction false} LastAddsSplit(p: seq<PendingOp>, q: seq<PendingOp>, k: Key, f: Folder)
    ensures LastAdds(p + q, k, f) == if HasKeyword(q, k, f) then LastAdds(q, k, f) else LastAdds(p, k, f)
  {
    if q == [] {
      assert p + q == p;
    } else {
      var init, last := q[..|q| - 1], q[|q| - 1];
      assert q == init + [last];
      assert (p + q)[..|p + q| - 1] == p + init;
      if !KeywordRow(last, k, f) {
        LastAddsSplit(p, init, k, f);
        assert HasKeyword(init, k, f) <==> HasKeyword(q, k, f);
      }
    }
  }

  lemma {:induction false} LastAddsConstant(q: seq<PendingOp>, k: Key, f: Folder, add: bool)
    requires HasKeyword(q, k, f)
    requires forall op :: op in q && KeywordRow(op, k, f) ==> op.add == add
    ensures LastAdds(q, k, f) == add
  {
    var init, last := q[..|q| - 1], q[|q| - 1];
    assert q == init + [last];
    if !KeywordRow(last, k, f) {
      assert HasKeyword(init, k, f);
      LastAddsConstant(init, k, f, add);
    }
  }

  /** A copy whose key and rows stay, and whose flags stay apart from those excused, keeps its tags
      in order. */
  lemma TagSame(o: Opts, s: Sys, s': Sys, i: nat)
    requires i in s.apps && i in s'.apps && s'.labels == s.labels && s'.apps[i].key == s.apps[i].key
    requires Of(s.loose, i) <= Of(s'.loose, i)
    requires forall w :: w !in Of(s'.loose, i) ==> (w in s'.apps[i].flags <==> w in s.apps[i].flags)
    requires s'.db.members == s.db.members && s'.db.pending == s.db.pending
    requires s'.db.fingerprint == s.db.fingerprint && TagsOk(o, s, i)
    ensures TagsOk(o, s', i)
  {
    forall f | OwnKeyword(o, s', f) && Kw(o, f) !in Of(s'.loose, i) ensures TagOk(o, s', i, f) {
      assert OwnKeyword(o, s, f) && TagOk(o, s, i, f);
    }
  }

  lemma TagQuiet(o: Opts, s: Sys, st: Step)
    requires TagInv(o, s) && KnownKeys(s) && LiveInv(o, s) && Enabled(o, s, st)
    requires Neutral(st) || st.Issue? || st.Reject? || st.RecordSeen? || st.MoveCopies?
             || st.End? || st.Clear? || st.Rollback?
    ensures TagInv(o, Do(o, s, st))
  {
    var s' := Do(o, s, st);
    if Neutral(st) { NeutralFrame(o, s, st); }
    forall i | i in s'.apps && i in s'.tagged ensures TagsOk(o, s', i) {
      assert i in s.apps && TagsOk(o, s, i);
      TagSame(o, s, s', i);
    }
  }

  lemma TagEnv(o: Opts, s: Sys, st: Step)
    requires TagInv(o, s) && Enabled(o, s, st) && st.Env?
    ensures TagInv(o, Do(o, s, st))
  {
    var s' := Do(o, s, st);
    forall i | i in s'.apps && i in s'.tagged ensures TagsOk(o, s', i) {
      assert TagsOk(o, s, i);
      EditsAt(s.loose, s.apps, s'.apps, i);
      TagSame(o, s, s', i);
    }
  }

  lemma RecordFrame(o: Opts, s: Sys, st: Step)
    requires st.Record?
    ensures var s' := Do(o, s, st);
            && s'.apps == s.apps && s'.arrived == s.arrived && s'.refiled == s.refiled && s'.retagged == s.retagged
            && s'.placed == s.placed + (Tracked(s, st.ids) - s.refiled) && s'.tagged == s.tagged + Tracked(s, st.ids)
            && s'.loose == LooseWith(o, s, Tracked(s, st.ids)) && s'.live == s.live - (set i | i in st.ids)
            && s'.labels == s.labels && s'.db == s.db.(copied := s'.db.copied)
  {
  }

  lemma LooseWithAt(o: Opts, s: Sys, ids: set<nat>, i: nat)
    ensures i in s.apps ==> Of(s.loose, i) <= Of(LooseWith(o, s, ids), i)
    ensures i !in ids || i !in s.apps ==> Of(LooseWith(o, s, ids), i) <= Of(s.loose, i)
    ensures i in s.apps ==> forall w :: w in Of(LooseWith(o, s, ids), i) ==>
              w in Of(s.loose, i) || (s.apps[i].key in s.rejected && w in KeywordsOf(o, s.db, s.apps[i].key))
  {
  }

  lemma TagRecord(o: Opts, s: Sys, st: Step)
    requires o.labelPropagate && ConfigOk(o) && TagInv(o, s) && TrackedEdits(s) && LiveInv(o, s) && IssuedInv(o, s)
    requires LabelInv(o, s) && KnownLabels(o, s, s.db) && Enabled(o, s, st) && st.Record?
    ensures TagInv(o, Do(o, s, st))
  {
    var s' := Do(o, s, st);
    RecordFrame(o, s, st);
    forall i | i in s'.apps && i in s'.tagged ensures TagsOk(o, s', i) {
      TagRecorded(o, s, s', st.ids, st.records, i);
    }
  }

  lemma TagRecorded(o: Opts, s: Sys, s': Sys, ids: seq<nat>, records: seq<KeyRecord>, i: nat)
    requires o.labelPropagate && ConfigOk(o) && TagInv(o, s) && TrackedEdits(s) && LiveInv(o, s) && IssuedInv(o, s)
    requires LabelInv(o, s) && KnownLabels(o, s, s.db) && RecordOk(s, ids, records)
    requires s'.apps == s.apps && s'.tagged == s.tagged + Tracked(s, ids)
    requires s'.loose == LooseWith(o, s, Tracked(s, ids))
    requires s'.labels == s.labels && s'.db == s.db.(copied := s'.db.copied)
    requires i in s.apps && i in s'.tagged
    ensures TagsOk(o, s', i)
  {
    if i in s.tagged {
      LooseWithAt(o, s, Tracked(s, ids), i);
      TagSame(o, s, s', i);
    } else {
      NewIsIssued(o, s, ids, records, i);
      TagNew(o, s, s', i);
    }
  }

  lemma NewIsIssued(o: Opts, s: Sys, ids: seq<nat>, records: seq<KeyRecord>, i: nat)
    requires LiveInv(o, s) && IssuedInv(o, s) && RecordOk(s, ids, records) && i in Tracked(s, ids)
    ensures i in s.apps && i in s.live && s.live[i] == s.apps[i].key && IssuedOk(o, s, i)
    ensures s.apps[i].key !in s.db.copied
  {
    var j :| 0 <= j < |ids| && ids[j] == i;
  }

  /** The keywords a user has changed in this session are excused. */
  ghost predicate TrackedEdits(s: Sys) {
    forall i :: i in s.apps ==> Of(s.retagged, i) <= Of(s.loose, i)
  }

  /** A copy that comes under tracking has the keywords of its labels, and no row concerns it. */
  lemma TagNew(o: Opts, s: Sys, s': Sys, i: nat)
    requires o.labelPropagate && ConfigOk(o) && LabelInv(o, s) && KnownLabels(o, s, s.db) && TrackedEdits(s)
    requires i in s.apps && i in s.live && s.live[i] == s.apps[i].key && IssuedOk(o, s, i)
    requires s.apps[i].key !in s.db.copied && s'.apps == s.apps && s'.labels == s.labels
    requires s'.db == s.db.(copied := s'.db.copied)
    requires Of(s'.loose, i) == Of(s.loose, i)
                                + if s.apps[i].key in s.rejected then KeywordsOf(o, s.db, s.apps[i].key) else {}
    ensures TagsOk(o, s', i)
  {
    var k := s.apps[i].key;
    KeywordsKnown(o, s, k);
    forall f | OwnKeyword(o, s', f) && Kw(o, f) !in Of(s'.loose, i) ensures TagOk(o, s', i, f) {
      assert OwnKeyword(o, s, f);
      KeywordIn(o, s, k, f);
    }
  }

  lemma TagStore(o: Opts, s: Sys, st: Step)
    requires TagInv(o, s) && KnownLabels(o, s, s.db) && Enabled(o, s, st) && st.StoreKeyword?
    ensures TagInv(o, Do(o, s, st))
  {
    var s' := Do(o, s, st);
    assert st.op.folder in s.labels;
    forall i | i in s'.apps && i in s'.tagged ensures TagsOk(o, s', i) {
      assert TagsOk(o, s, i);
      forall f | OwnKeyword(o, s', f) && Kw(o, f) !in Of(s'.loose, i) ensures TagOk(o, s', i, f) {
        assert OwnKeyword(o, s, f) && TagOk(o, s, i, f);
        if i in st.copies && f == st.op.folder {
          assert KeywordRow(st.op, s.apps[i].key, f);
        }
      }
    }
  }

  lemma TagAdd(o: Opts, s: Sys, st: Step)
    requires o.labelPropagate && ConfigOk(o) && TagInv(o, s) && LabelInv(o, s) && KnownLabels(o, s, s.db)
    requires Enabled(o, s, st) && st.AddKeywords?
    ensures TagInv(o, Do(o, s, st))
  {
    var s' := Do(o, s, st);
    forall i | i in s'.apps && i in s'.tagged ensures TagsOk(o, s', i) {
      assert TagsOk(o, s, i);
      KeywordsKnown(o, s, s.apps[i].key);
      forall f | OwnKeyword(o, s', f) && Kw(o, f) !in Of(s'.loose, i) ensures TagOk(o, s', i, f) {
        assert OwnKeyword(o, s, f) && TagOk(o, s, i, f);
        KeywordIn(o, s, s.apps[i].key, f);
      }
    }
  }

  /** The keyword of each of its rows is among those that rows concern. */
  lemma {:induction false} RowKeywordsHave(o: Opts, q: seq<PendingOp>, k: Key, f: Folder)
    requires HasKeyword(q, k, f)
    ensures Kw(o, f) in RowKeywords(o, q, k)
  {
    var init, last := q[..|q| - 1], q[|q| - 1];
    assert q == init + [last];
    if !KeywordRow(last, k, f) {
      assert HasKeyword(init, k, f);
      RowKeywordsHave(o, init, k, f);
    }
  }

  lemma TagDelete(o: Opts, s: Sys, st: Step)
    requires TagInv(o, s) && Enabled(o, s, st) && st.DeleteRows?
    ensures TagInv(o, Do(o, s, st))
  {
    var s' := Do(o, s, st);
    var done, rest := s.db.pending[..st.n], s.db.pending[st.n..];
    assert s.db.pending == done + rest;
    forall i | i in s'.apps && i in s'.tagged ensures TagsOk(o, s', i) {
      assert TagsOk(o, s, i);
      forall f | OwnKeyword(o, s', f) && Kw(o, f) !in Of(s'.loose, i) ensures TagOk(o, s', i, f) {
        assert OwnKeyword(o, s, f) && TagOk(o, s, i, f);
        TagLess(o, s, s', i, f, done, rest);
      }
    }
  }

  lemma TagLess(o: Opts, s: Sys, s': Sys, i: nat, f: Folder, done: seq<PendingOp>, rest: seq<PendingOp>)
    requires i in s.apps && i in s'.apps && s'.apps[i] == s.apps[i] && i in s.tagged
    requires s.db.pending == done + rest && s'.db == s.db.(pending := rest) && Applied(o, s, done, rest)
    requires OwnKeyword(o, s, f) && TagOk(o, s, i, f) && Kw(o, f) !in Of(s.loose, i)
    requires i in s.refiled ==> Kw(o, f) !in RowKeywords(o, done, s.apps[i].key)
    ensures TagOk(o, s', i, f)
  {
    var k := s.apps[i].key;
    LastAddsSplit(done, rest, k, f);
    assert HasKeyword(done + rest, k, f) <==> HasKeyword(done, k, f) || HasKeyword(rest, k, f);
    if HasKeyword(done, k, f) { RowKeywordsHave(o, done, k, f); }
  }

  lemma TagAdopt(o: Opts, s: Sys, st: Step)
    requires o.labelPropagate && ConfigOk(o) && TagInv(o, s) && LabelInv(o, s) && KnownLabels(o, s, s.db)
    requires Enabled(o, s, st) && st.AdoptFingerprint?
    ensures TagInv(o, Do(o, s, st))
  {
    var s' := Do(o, s, st);
    forall i | i in s'.apps && i in s'.tagged ensures TagsOk(o, s', i) {
      assert TagsOk(o, s, i);
      forall f | OwnKeyword(o, s', f) && Kw(o, f) !in Of(s'.loose, i) ensures TagOk(o, s', i, f) {
        assert OwnKeyword(o, s, f) && TagOk(o, s, i, f);
        KeywordIn(o, s, s.apps[i].key, f);
        assert TracksKeyword(s, i, Kw(o, f));
      }
    }
  }

  /** How one batch over label folder f changes the tags of a copy of k regarding f itself. */
  lemma TagMembersOwn(o: Opts, s: Sys, st: Step, i: nat)
    requires o.labelPropagate && st.Members? && Enabled(o, s, st) && KnownKeys(s)
    requires LabelInv(o, s) && KnownLabels(o, s, s.db) && !IsRoutingFolder(o, st.folder)
    requires i in s.apps && i in s.tagged && s.apps[i].landed && TagsOk(o, s, i)
    requires OwnKeyword(o, Do(o, s, st), st.folder) && Kw(o, st.folder) !in Of(Do(o, s, st).loose, i)
    ensures TagOk(o, Do(o, s, st), i, st.folder)
  {
    var f, changes, k := st.folder, st.changes, s.apps[i].key;
    var s' := Do(o, s, st);
    var rows := QueuedRows(f, changes, s.db.nextId);
    ChangesFrame(s.db, f, changes);
    QueuedRowsStem(f, changes, s.db.nextId);
    LastAddsSplit(s.db.pending, rows, k, f);
    assert HasKeyword(s'.db.pending, k, f) <==> HasKeyword(s.db.pending, k, f) || HasKeyword(rows, k, f);
    if AllAdd(changes) { AddsEffect(s.db, f, changes); } else { RemovesEffect(s.db, f, changes); }
    if HasKeyword(rows, k, f) {
      RowsOfOneSort(f, changes, s.db.nextId, AllAdd(changes));
      LastAddsConstant(rows, k, f, AllAdd(changes));
      var op :| op in rows && KeywordRow(op, k, f);
      var c :| c in changes && RowOf(op, c);
      assert k in ChangedKeys(changes);
    } else {
      TagUnqueued(o, s, st, i);
    }
  }

  lemma TagUnqueued(o: Opts, s: Sys, st: Step, i: nat)
    requires o.labelPropagate && st.Members? && Enabled(o, s, st) && KnownKeys(s)
    requires LabelInv(o, s) && KnownLabels(o, s, s.db) && !IsRoutingFolder(o, st.folder)
    requires i in s.apps && i in s.tagged && s.apps[i].landed && TagsOk(o, s, i)
    requires OwnKeyword(o, Do(o, s, st), st.folder) && Kw(o, st.folder) !in Of(Do(o, s, st).loose, i)
    requires !HasKeyword(QueuedRows(st.folder, st.changes, s.db.nextId), s.apps[i].key, st.folder)
    ensures TagOk(o, Do(o, s, st), i, st.folder)
  {
    var f, changes, k := st.folder, st.changes, s.apps[i].key;
    var s' := Do(o, s, st);
    var rows := QueuedRows(f, changes, s.db.nextId);
    NoRowNoKeyword(f, rows, k);
    if Queues(s, f, changes, k) {
      QueuedIsGated(o, s, f, changes, k);
      assert false;
    }
    assert Kw(o, f) !in Of(s.loose, i);
    ChangesFrame(s.db, f, changes);
    LastAddsSplit(s.db.pending, rows, k, f);
    assert HasKeyword(s'.db.pending, k, f) <==> HasKeyword(s.db.pending, k, f);
    if f in s.labels {
      assert OwnKeyword(o, s, f) && TagOk(o, s, i, f);
    }
    if k in ChangedKeys(changes) { GatedAdds(o, s, f, changes, k); }
  }

  /** A change that queues no row adds a message, which was a member before, or the folder is
      rebuilt from nothing. */
  lemma GatedAdds(o: Opts, s: Sys, f: Folder, changes: seq<Change>, k: Key)
    requires GatedOk(o, s, f, changes) && (AllAdd(changes) || AllRemove(changes))
    requires k in s.db.copied && K.IsRealMessageID(k) && KindFor(o, f) == Some(Keyword) && k in ChangedKeys(changes)
    requires !exists row :: row in QueuedRows(f, changes, s.db.nextId)
                            && row.key == k && row.folder == f && row.kind == Keyword
    ensures ((f, k) in s.db.members || f in s.virgin) && (f, k) in ApplyChanges(s.db, f, changes).members
  {
    GatedRow(o, s, f, changes, k);
    AddsEffect(s.db, f, changes);
  }

  lemma RowsOfOneSort(f: Folder, changes: seq<Change>, nextId: nat, add: bool)
    requires forall c :: c in changes ==> c.add == add
    ensures forall op :: op in QueuedRows(f, changes, nextId) ==> op.add == add
  {
    QueuedRowsStem(f, changes, nextId);
    forall op | op in QueuedRows(f, changes, nextId) ensures op.add == add {
      assert RowFrom(op, changes);
    }
  }

  lemma NoRowNoKeyword(f: Folder, rows: seq<PendingOp>, k: Key)
    requires !HasKeyword(rows, k, f)
    ensures !exists row :: row in rows && row.key == k && row.folder == f && row.kind == Keyword
  {
    if row :| row in rows && row.key == k && row.folder == f && row.kind == Keyword {
      assert KeywordRow(row, k, f);
    }
  }

  lemma TagMembers(o: Opts, s: Sys, st: Step)
    requires o.labelPropagate && TagInv(o, s) && KnownKeys(s) && LabelInv(o, s) && KnownLabels(o, s, s.db)
    requires LiveInv(o, s) && Enabled(o, s, st) && st.Members?
    ensures TagInv(o, Do(o, s, st))
  {
    var s' := Do(o, s, st);
    forall i | i in s'.apps && i in s'.tagged ensures TagsOk(o, s', i) {
      assert TagsOk(o, s, i);
      TagMembersFlags(o, s, st, i);
      forall g | OwnKeyword(o, s', g) && Kw(o, g) !in Of(s'.loose, i) ensures TagOk(o, s', i, g) {
        if g == st.folder {
          TagMembersOwn(o, s, st, i);
        } else {
          TagMembersOther(o, s, st, i, g);
        }
      }
    }
  }

  /** A renewed keyword is that of the folder, which is a scanned label now. */
  lemma TagMembersFlags(o: Opts, s: Sys, st: Step, i: nat)
    requires st.Members? && i in s.apps && FlagsKnown(o, s, i)
    ensures FlagsKnown(o, Do(o, s, st), i)
  {
    var s' := Do(o, s, st);
    forall w | w in s'.apps[i].flags && w !in Of(s'.loose, i) ensures exists f :: f in s'.labels && Kw(o, f) == w {
      if w in Of(s.loose, i) {
        assert w == Kw(o, st.folder) && st.folder in s'.labels;
      }
    }
  }

  lemma TagMembersOther(o: Opts, s: Sys, st: Step, i: nat, g: Folder)
    requires st.Members? && Enabled(o, s, st) && i in s.apps && TagsOk(o, s, i) && g != st.folder
    requires LabelInv(o, s) && OwnKeyword(o, Do(o, s, st), g) && Kw(o, g) !in Of(Do(o, s, st).loose, i)
    ensures TagOk(o, Do(o, s, st), i, g)
  {
    var f, changes, k := st.folder, st.changes, s.apps[i].key;
    var s' := Do(o, s, st);
    var rows := QueuedRows(f, changes, s.db.nextId);
    ChangesFrame(s.db, f, changes);
    QueuedRowsStem(f, changes, s.db.nextId);
    assert OwnKeyword(o, s, g) && Kw(o, g) !in Of(s.loose, i);
    assert TagOk(o, s, i, g);
    LastAddsSplit(s.db.pending, rows, k, g);
    assert !HasKeyword(rows, k, g);
    assert HasKeyword(s'.db.pending, k, g) <==> HasKeyword(s.db.pending, k, g);
  }

  lemma TagStep(o: Opts, s: Sys, st: Step)
    requires o.labelPropagate && ConfigOk(o) && KnownKeys(s) && TagInv(o, s) && LiveInv(o, s) && IssuedInv(o, s)
    requires TrackedEdits(s) && LabelInv(o, s) && s.db in s.hist && Enabled(o, s, st)
    ensures TagInv(o, Do(o, s, st))
  {
    assert KnownLabels(o, s, s.db);
    if st.Record? {
      TagRecord(o, s, st);
    } else if st.Env? {
      TagEnv(o, s, st);
    } else if st.StoreKeyword? {
      TagStore(o, s, st);
    } else if st.AddKeywords? {
      TagAdd(o, s, st);
    } else if st.DeleteRows? {
      TagDelete(o, s, st);
    } else if st.AdoptFingerprint? {
      TagAdopt(o, s, st);
    } else if st.Members? {
      TagMembers(o, s, st);
    } else {
      TagQuiet(o, s, st);
    }
  }
}
