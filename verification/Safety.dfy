/** What every run of the mirror keeps: at most one copy per Message-ID, nothing skipped
    behind the high-water mark, nothing recorded that was not seen, and a bounded window
    of unrecorded appends. */
module Safety {
  import opened State
  import opened Placement
  import opened Protocol
  import K = Key

  ghost predicate MailsInv(o: Opts, s: Sys) {
    ConfigOk(o) && MailOk(o, s.src) && MailsOk(o, s.watched) && NamesIn(s.src) <= s.names
  }

  /** At most one copy of a searchable Message-ID, counting appends that may still land;
      a key cleared for appending has none. */
  ghost predicate CopyInv(o: Opts, s: Sys) {
    && Unique(s)
    && forall i :: i in s.apps ==> s.apps[i].key !in s.cleared
  }

  ghost predicate LiveInv(o: Opts, s: Sys) {
    && |s.live| <= Window(o)
    && s.confirmed <= s.live.Keys
    && s.confirmed <= s.arrived && s.origin <= s.arrived
    && (forall i :: i in s.live && i in s.apps ==> s.apps[i].key == s.live[i])
    && (forall i :: i in s.live ==> i in s.apps || i in s.arrived)
    && (forall i :: i in s.live && i in s.arrived ==> s.live[i] in s.observed)
    && (forall i :: i in s.apps ==> s.apps[i].folder in Buckets(o))
    && (forall i :: i in s.apps ==> (s.apps[i].landed <==> i in s.arrived))
    && (forall i :: i in s.apps && s.apps[i].landed ==> s.apps[i].key in s.observed)
    && (!s.busy ==> s.live == map[])
    && forall k :: k in s.cleared ==> K.IsRealMessageID(k)
  }

  /** What holds of every committed state: its mark skips nothing, its keys were observed. */
  ghost predicate CommittedOk(s: Sys, h: Db) {
    && (h.uidValidity == s.src.validity ==> Covered(s.src, h.copied, s.blank, h.lastUid))
    && h.copied.Keys <= s.observed
    && Ordered(h.pending, h.nextId)
  }

  ghost predicate HistInv(s: Sys) {
    && s.db in s.hist
    && forall h :: h in s.hist ==> CommittedOk(s, h)
  }

  ghost predicate SafeInv(o: Opts, s: Sys) {
    && MailsInv(o, s) && LiveInv(o, s) && HistInv(s)
    && (o.destGuard ==> CopyInv(o, s))
  }

  // ------------------------------------------------------------ step by step

  lemma LiveSmaller(live: map<nat, Key>, ids: set<nat>)
    ensures |live - ids| <= |live|
  {
    assert (live - ids).Keys <= live.Keys;
    CardinalityLe((live - ids).Keys, live.Keys);
  }

  lemma {:induction false} CardinalityLe<T>(a: set<T>, b: set<T>)
    requires a <= b
    ensures |a| <= |b|
  {
    assert b == a + (b - a);
  }

  lemma MailsStep(o: Opts, s: Sys, st: Step)
    requires MailsInv(o, s) && Enabled(o, s, st)
    ensures MailsInv(o, Do(o, s, st))
  {
    if !st.Env? && !st.NewEpoch? { MailsFrame(o, s, st); }
  }

  lemma MailsFrame(o: Opts, s: Sys, st: Step)
    requires !st.Env? && !st.NewEpoch?
    ensures var s' := Do(o, s, st);
            s'.src == s.src && s'.watched == s.watched && s'.names == s.names
  {
  }

  /** The steps that change the destination copies. */
  predicate TouchesCopies(st: Step) {
    st.Env? || st.Issue? || st.Reject? || st.MoveCopies? || st.StoreKeyword? || st.AddKeywords?
  }

  lemma CopiesFrame(o: Opts, s: Sys, st: Step)
    requires !TouchesCopies(st)
    ensures var s' := Do(o, s, st);
            && s'.apps == s.apps && s'.arrived == s.arrived && s'.observed == s.observed && s'.origin == s.origin
  {
  }

  lemma ClearedFrame(o: Opts, s: Sys, st: Step)
    requires !st.Clear? && !st.Reject?
    ensures Do(o, s, st).cleared <= s.cleared
  {
  }

  lemma CopyEnv(o: Opts, s: Sys, st: Step)
    requires CopyInv(o, s) && Enabled(o, s, st) && st.Env?
    ensures CopyInv(o, Do(o, s, st))
  {
  }

  lemma CopyIssue(o: Opts, s: Sys, st: Step)
    requires o.destGuard && CopyInv(o, s) && Enabled(o, s, st) && st.Issue?
    ensures CopyInv(o, Do(o, s, st))
  {
  }

  lemma CopyReject(o: Opts, s: Sys, st: Step)
    requires LiveInv(o, s) && CopyInv(o, s) && Enabled(o, s, st) && st.Reject?
    ensures CopyInv(o, Do(o, s, st))
  {
    var key := s.live[st.id];
    assert st.id !in s.origin;
    forall j | j in s.apps && j != st.id && K.IsRealMessageID(key) ensures s.apps[j].key != key {}
    RejectFrame(o, s, st);
  }

  lemma RejectFrame(o: Opts, s: Sys, st: Step)
    requires st.Reject? && st.id in s.live
    ensures var s' := Do(o, s, st);
            && s'.apps == s.apps - {st.id} && s'.live == s.live - {st.id} && s'.origin == s.origin && s'.db == s.db
            && s'.cleared <= s.cleared + if K.IsRealMessageID(s.live[st.id]) then {s.live[st.id]} else {}
  {
  }

  lemma CopyChanged(o: Opts, s: Sys, s': Sys)
    requires CopyInv(o, s) && s'.apps.Keys == s.apps.Keys && s' == s.(apps := s'.apps)
    requires forall i :: i in s.apps ==> s'.apps[i].key == s.apps[i].key
    ensures CopyInv(o, s')
  {
  }

  lemma CopyFewer(o: Opts, s: Sys, s': Sys)
    requires CopyInv(o, s) && s'.apps == s.apps && s'.origin == s.origin && s'.cleared <= s.cleared
    ensures CopyInv(o, s')
  {
  }

  lemma CopyStep(o: Opts, s: Sys, st: Step)
    requires o.destGuard && LiveInv(o, s) && CopyInv(o, s) && Enabled(o, s, st)
    ensures CopyInv(o, Do(o, s, st))
  {
    if st.Env? {
      CopyEnv(o, s, st);
    } else if st.Issue? {
      CopyIssue(o, s, st);
    } else if st.Reject? {
      CopyReject(o, s, st);
    } else if TouchesCopies(st) {
      ChangedFrame(o, s, st);
      CopyChanged(o, s, Do(o, s, st));
    } else if st.Clear? {
      CopyClear(o, s, st);
    } else {
      CopiesFrame(o, s, st);
      ClearedFrame(o, s, st);
      CopyFewer(o, s, Do(o, s, st));
    }
  }

  lemma CopyClear(o: Opts, s: Sys, st: Step)
    requires CopyInv(o, s) && Enabled(o, s, st) && st.Clear?
    ensures CopyInv(o, Do(o, s, st))
  {
  }

  lemma LiveFrame(o: Opts, s: Sys, st: Step)
    requires !TouchesCopies(st) && !st.Begin? && !st.End? && !st.Confirm? && !st.Record? && !st.Clear?
    ensures var s' := Do(o, s, st);
            && s'.live == s.live && s'.confirmed == s.confirmed && s'.busy == s.busy && s'.cleared == s.cleared
  {
  }

  lemma LiveEnv(o: Opts, s: Sys, st: Step)
    requires LiveInv(o, s) && Enabled(o, s, st) && st.Env?
    ensures LiveInv(o, Do(o, s, st))
  {
  }

  lemma LiveIssue(o: Opts, s: Sys, st: Step)
    requires LiveInv(o, s) && Enabled(o, s, st) && st.Issue?
    ensures LiveInv(o, Do(o, s, st))
  {
    DestIsBucket(o, s.db, st.key);
  }

  lemma LiveReject(o: Opts, s: Sys, st: Step)
    requires LiveInv(o, s) && Enabled(o, s, st) && st.Reject?
    ensures LiveInv(o, Do(o, s, st))
  {
    LiveSmaller(s.live, {st.id});
  }

  /** Moving and tagging leaves keys and landings alone, and moves into buckets only. */
  lemma ChangedFrame(o: Opts, s: Sys, st: Step)
    requires Enabled(o, s, st) && (st.MoveCopies? || st.StoreKeyword? || st.AddKeywords?)
    ensures var s' := Do(o, s, st);
            && s'.apps.Keys == s.apps.Keys && s' == s.(apps := s'.apps)
            && (forall i :: i in s.apps ==>
                  && s'.apps[i].key == s.apps[i].key && s'.apps[i].landed == s.apps[i].landed
                  && (s'.apps[i].folder == s.apps[i].folder || s'.apps[i].folder in Buckets(o)))
  {
    if st.MoveCopies? {
      forall i | i in st.copies ensures st.to in Buckets(o) { DestIsBucket(o, s.db, s.apps[i].key); }
    }
  }

  lemma LiveChanged(o: Opts, s: Sys, s': Sys)
    requires LiveInv(o, s) && s'.apps.Keys == s.apps.Keys && s' == s.(apps := s'.apps)
    requires forall i :: i in s.apps ==>
               && s'.apps[i].key == s.apps[i].key && s'.apps[i].landed == s.apps[i].landed
               && (s'.apps[i].folder == s.apps[i].folder || s'.apps[i].folder in Buckets(o))
    ensures LiveInv(o, s')
  {
  }

  lemma LiveSession(o: Opts, s: Sys, st: Step)
    requires LiveInv(o, s) && Enabled(o, s, st)
    requires st.Begin? || st.End? || st.Confirm? || st.Record? || st.Clear?
    ensures LiveInv(o, Do(o, s, st))
  {
    if st.Record? {
      LiveRecord(o, s, st);
    } else if st.Begin? || st.Confirm? || st.Clear? {
      AppsRest(o, s, st);
    }
  }

  lemma LiveRecord(o: Opts, s: Sys, st: Step)
    requires LiveInv(o, s) && Enabled(o, s, st) && st.Record?
    ensures LiveInv(o, Do(o, s, st))
  {
    LiveSmaller(s.live, set i | i in st.ids);
    SettledFrame(o, s, st);
  }

  lemma SettledFrame(o: Opts, s: Sys, st: Step)
    requires st.Record?
    ensures var s' := Do(o, s, st);
            && s'.apps == s.apps && s'.arrived == s.arrived && s'.observed == s.observed && s'.origin == s.origin
            && s'.live == s.live - (set i | i in st.ids) && s'.confirmed == s.confirmed - (set i | i in st.ids)
            && s'.cleared == s.cleared && s'.busy == s.busy
  {
  }

  lemma AppsRest(o: Opts, s: Sys, st: Step)
    requires st.Begin? || st.Confirm? || st.Clear?
    ensures var s' := Do(o, s, st);
            && s'.apps == s.apps && s'.arrived == s.arrived && s'.observed == s.observed && s'.origin == s.origin
            && s'.live == s.live && (st.Confirm? || s'.confirmed == s.confirmed)
  {
  }

  lemma LiveStep(o: Opts, s: Sys, st: Step)
    requires LiveInv(o, s) && Enabled(o, s, st)
    ensures LiveInv(o, Do(o, s, st))
  {
    if st.Env? {
      LiveEnv(o, s, st);
    } else if st.Issue? {
      LiveIssue(o, s, st);
    } else if st.Reject? {
      LiveReject(o, s, st);
    } else if TouchesCopies(st) {
      ChangedFrame(o, s, st);
      LiveChanged(o, s, Do(o, s, st));
    } else if st.Begin? || st.End? || st.Confirm? || st.Record? || st.Clear? {
      LiveSession(o, s, st);
    } else {
      CopiesFrame(o, s, st);
      LiveFrame(o, s, st);
    }
  }

  predicate Commits(st: Step) {
    || st.Record? || st.RecordSeen? || st.ResetMark? || st.Adopt? || st.Mark? || st.Members?
    || st.MarkFolder? || st.DeleteRows? || st.AdoptFingerprint?
  }

  /** A committing step adds the new state to the history; source and observations stay. */
  lemma CommitFrame(o: Opts, s: Sys, st: Step)
    requires Commits(st)
    ensures var s' := Do(o, s, st);
            && s'.hist <= s.hist + {s'.db} && s.hist <= s'.hist
            && (s'.db in s'.hist || (s'.db == s.db && s'.hist == s.hist))
            && s'.src == s.src && s'.blank == s.blank && s'.observed == s.observed
  {
  }

  lemma NoCommitFrame(o: Opts, s: Sys, st: Step)
    requires !Commits(st)
    ensures var s' := Do(o, s, st);
            && s'.hist == s.hist
            && (!st.Rollback? ==> s'.db == s.db)
            && (!st.Env? && !st.NewEpoch? ==> s'.src == s.src)
            && (!st.NewEpoch? ==> s.blank <= s'.blank)
            && s.observed <= s'.observed
  {
  }

  lemma CommitRecords(o: Opts, s: Sys, st: Step)
    requires LiveInv(o, s) && CommittedOk(s, s.db) && Enabled(o, s, st) && (st.Record? || st.RecordSeen?)
    ensures CommittedOk(s, Do(o, s, st).db)
  {
    RecordedAdds(s.db.copied, st.records);
    if st.Record? {
      forall r | r in st.records ensures r.key in s.observed {
        var j :| 0 <= j < |st.records| && st.records[j] == r;
        assert st.ids[j] in s.arrived;
      }
    }
  }

  lemma CommitQueue(o: Opts, s: Sys, st: Step)
    requires CommittedOk(s, s.db) && Enabled(o, s, st) && (st.Members? || st.DeleteRows?)
    ensures CommittedOk(s, Do(o, s, st).db)
  {
    if st.Members? {
      ChangesFrame(s.db, st.folder, st.changes);
      QueuedRowsStem(st.folder, st.changes, s.db.nextId);
    }
  }

  lemma CommitMarks(o: Opts, s: Sys, st: Step)
    requires MailsInv(o, s) && CommittedOk(s, s.db) && Enabled(o, s, st)
    requires st.ResetMark? || st.Adopt? || st.Mark? || st.MarkFolder? || st.AdoptFingerprint?
    ensures CommittedOk(s, Do(o, s, st).db)
  {
  }

  lemma HistSource(o: Opts, s: Sys, st: Step)
    requires HistInv(s) && Enabled(o, s, st) && (st.Env? || st.NewEpoch?)
    ensures HistInv(Do(o, s, st))
  {
    var s' := Do(o, s, st);
    NoCommitFrame(o, s, st);
    forall h | h in s'.hist ensures CommittedOk(s', h) {
      assert CommittedOk(s, h);
    }
  }

  lemma HistCommit(o: Opts, s: Sys, st: Step)
    requires MailsInv(o, s) && LiveInv(o, s) && HistInv(s) && Enabled(o, s, st) && Commits(st)
    ensures HistInv(Do(o, s, st))
  {
    CommitFrame(o, s, st);
    assert CommittedOk(s, s.db);
    if st.Record? || st.RecordSeen? {
      CommitRecords(o, s, st);
    } else if st.Members? || st.DeleteRows? {
      CommitQueue(o, s, st);
    } else {
      CommitMarks(o, s, st);
    }
    StillCommitted(o, s, st);
  }

  lemma HistStep(o: Opts, s: Sys, st: Step)
    requires MailsInv(o, s) && LiveInv(o, s) && HistInv(s) && Enabled(o, s, st)
    ensures HistInv(Do(o, s, st))
  {
    if st.Env? || st.NewEpoch? {
      HistSource(o, s, st);
    } else if Commits(st) {
      HistCommit(o, s, st);
    } else {
      NoCommitFrame(o, s, st);
      StillCommitted(o, s, st);
      assert st.Rollback? ==> Do(o, s, st).db in s.hist;
    }
  }

  /** Committed states stay good when neither the source changes nor observations are lost. */
  lemma StillCommitted(o: Opts, s: Sys, st: Step)
    requires var s' := Do(o, s, st);
             s'.src == s.src && s.blank <= s'.blank && s.observed <= s'.observed
    ensures forall h :: CommittedOk(s, h) ==> CommittedOk(Do(o, s, st), h)
  {
  }

  // ------------------------------------------------------------- whole runs

  lemma SafeStep(o: Opts, s: Sys, st: Step)
    requires SafeInv(o, s) && Enabled(o, s, st)
    ensures SafeInv(o, Do(o, s, st))
  {
    MailsStep(o, s, st);
    LiveStep(o, s, st);
    HistStep(o, s, st);
    if o.destGuard {
      CopyStep(o, s, st);
    }
  }
}
