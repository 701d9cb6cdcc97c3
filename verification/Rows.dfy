/** The incremental membership cache agrees with the watched folders, in every committed
    state and through every interruption: rows are sound for every folder followed, and cover
    it up to the mark as long as it holds no key twice. */
module Rows {
  import opened State
  import opened Placement
  import opened Protocol
  import opened Safety

  ghost predicate RowsOk(s: Sys, h: Db, f: Folder) {
    && (Follows(s, h, f) ==> StopOk(s.watched[f], h.folders[f].lastUid) && RowsSound(h, f, s.watched[f]))
    && (Tracks(s, h, f) ==> RowsCover(h, f, s.watched[f], h.folders[f].lastUid))
  }

  ghost predicate RowInv(s: Sys) {
    && s.distinct <= s.watched.Keys
    && (forall f :: f in s.distinct ==> KeysDistinct(s.watched[f]))
    && forall h, f :: h in s.hist ==> RowsOk(s, h, f)
  }

  /** Soundness survives messages leaving and new ones arriving above UIDNEXT. */
  lemma SoundLater(o: Opts, h: Db, f: Folder, m: Mailbox, m': Mailbox)
    requires RowsSound(h, f, m) && MailLater(m, m') && MailOk(o, m')
    ensures RowsSound(h, f, m')
  {
  }

  lemma CoverLater(h: Db, f: Folder, m: Mailbox, m': Mailbox, stop: nat)
    requires RowsCover(h, f, m, stop) && StopOk(m, stop) && MailLater(m, m') && 0 !in m'.msgs
    ensures RowsCover(h, f, m', stop)
  {
  }

  lemma RowsLater(o: Opts, s: Sys, s': Sys, h: Db, f: Folder)
    requires RowsOk(s, h, f) && f in s'.watched && MailOk(o, s'.watched[f])
    requires Follows(s', h, f) ==>
               && Follows(s, h, f) && MailLater(s.watched[f], s'.watched[f])
               && (f in s'.distinct ==> f in s.distinct)
    ensures RowsOk(s', h, f)
  {
    if Follows(s', h, f) {
      SoundLater(o, h, f, s.watched[f], s'.watched[f]);
      if f in s'.distinct { CoverLater(h, f, s.watched[f], s'.watched[f], h.folders[f].lastUid); }
    }
  }

  lemma RowsEnv(o: Opts, s: Sys, st: Step)
    requires RowInv(s) && Enabled(o, s, st) && st.Env?
    ensures RowInv(Do(o, s, st))
  {
    var s' := Do(o, s, st);
    forall h, f | h in s'.hist ensures RowsOk(s', h, f) {
      assert RowsOk(s, h, f);
      if f in s'.watched {
        assert MailLater(s.watched[f], s'.watched[f]);
        RowsLater(o, s, s', h, f);
      }
    }
  }

  lemma RowsEpoch(o: Opts, s: Sys, st: Step)
    requires RowInv(s) && Enabled(o, s, st) && st.NewEpoch?
    ensures RowInv(Do(o, s, st))
  {
    var s' := Do(o, s, st);
    forall h, f | h in s'.hist ensures RowsOk(s', h, f) {
      assert RowsOk(s, h, f);
      if Follows(s', h, f) {
        assert !FreshFolder(s, f, s'.watched[f].validity);
        RowsLater(o, s, s', h, f);
      }
    }
  }

  lemma RowsMembers(o: Opts, s: Sys, st: Step, g: Folder)
    requires RowsOk(s, s.db, g) && Enabled(o, s, st) && st.Members?
    ensures RowsOk(s, Do(o, s, st).db, g)
  {
    var f, changes := st.folder, st.changes;
    var db' := Do(o, s, st).db;
    ChangesFrame(s.db, f, changes);
    if Follows(s, db', g) && g == f && changes != [] {
      if AllAdd(changes) {
        SoundAdded(s, f, changes);
        if Tracks(s, s.db, f) { CoverAdded(s, f, changes); }
      } else {
        RemovesEffect(s.db, f, changes);
      }
    }
  }

  lemma SoundAdded(s: Sys, f: Folder, changes: seq<Change>)
    requires Follows(s, s.db, f) && RowsSound(s.db, f, s.watched[f]) && AllAdd(changes) && SoundChanges(s, f, changes)
    ensures RowsSound(ApplyChanges(s.db, f, changes), f, s.watched[f])
  {
    var db', m := ApplyChanges(s.db, f, changes), s.watched[f];
    ChangesFrame(s.db, f, changes);
    AddsEffect(s.db, f, changes);
    forall k | k in ChangedKeys(changes)
      ensures var u := db'.members[(f, k)];
              && 1 <= u < m.uidNext && (u in m.msgs ==> m.msgs[u] == k)
              && (forall l :: (f, l) in s.db.members && s.db.members[(f, l)] == u ==> l == k)
    {
      var c :| c in changes && c.key == k && c.uid == db'.members[(f, k)];
      assert AddSound(s, f, c);
    }
    forall k, l |
      k in ChangedKeys(changes) && l in ChangedKeys(changes) && db'.members[(f, k)] == db'.members[(f, l)]
      ensures k == l
    {
      var c :| c in changes && c.key == k && c.uid == db'.members[(f, k)];
      var d :| d in changes && d.key == l && d.uid == db'.members[(f, l)];
    }
  }

  lemma CoverAdded(s: Sys, f: Folder, changes: seq<Change>)
    requires Follows(s, s.db, f) && AllAdd(changes) && ScannedOk(s, f, changes)
    requires RowsCover(s.db, f, s.watched[f], s.db.folders[f].lastUid)
    ensures RowsCover(ApplyChanges(s.db, f, changes), f, s.watched[f], s.db.folders[f].lastUid)
  {
    var db', m := ApplyChanges(s.db, f, changes), s.watched[f];
    ChangesFrame(s.db, f, changes);
    AddsEffect(s.db, f, changes);
    forall u | u in m.msgs && u <= s.db.folders[f].lastUid
      ensures (f, m.msgs[u]) in db'.members && db'.members[(f, m.msgs[u])] == u
    {
      var k := m.msgs[u];
      if k in ChangedKeys(changes) {
        var c :| c in changes && c.key == k && c.uid == db'.members[(f, k)];
        assert AddFresh(s, f, c);
      }
    }
  }

  lemma RowsCommit(o: Opts, s: Sys, st: Step, g: Folder)
    requires RowsOk(s, s.db, g) && Enabled(o, s, st) && Commits(st) && !st.Members?
    ensures RowsOk(s, Do(o, s, st).db, g)
  {
    FoldersFrame(o, s, st);
    var db' := Do(o, s, st).db;
    if st.MarkFolder? && st.folder == g {
      assert db'.folders[g].lastUid == st.stop;
    }
  }

  /** Of the commits only that of a scan state touches scan states or rows. */
  lemma FoldersFrame(o: Opts, s: Sys, st: Step)
    requires Enabled(o, s, st) && Commits(st) && !st.Members?
    ensures var db' := Do(o, s, st).db;
            && db'.members == s.db.members
            && db'.folders == if st.MarkFolder?
                              then s.db.folders[st.folder := FolderMark(s.watched[st.folder].validity, st.stop)]
                              else s.db.folders
  {
  }

  lemma WatchedFrame(o: Opts, s: Sys, st: Step)
    requires !st.Env? && !st.NewEpoch?
    ensures Do(o, s, st).watched == s.watched && Do(o, s, st).distinct == s.distinct
  {
  }

  lemma RowStep(o: Opts, s: Sys, st: Step)
    requires RowInv(s) && s.db in s.hist && Enabled(o, s, st)
    ensures RowInv(Do(o, s, st))
  {
    if st.Env? {
      RowsEnv(o, s, st);
    } else if st.NewEpoch? {
      RowsEpoch(o, s, st);
    } else {
      var s' := Do(o, s, st);
      WatchedFrame(o, s, st);
      if Commits(st) { CommitFrame(o, s, st); } else { NoCommitFrame(o, s, st); }
      forall h, f | h in s'.hist ensures RowsOk(s', h, f) {
        assert RowsOk(s, s.db, f);
        if h in s.hist {
          assert RowsOk(s, h, f);
        } else if st.Members? {
          RowsMembers(o, s, st, f);
        } else {
          RowsCommit(o, s, st, f);
        }
      }
    }
  }
}
