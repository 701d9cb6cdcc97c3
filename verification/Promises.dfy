/** The promises of the mirror about every run, under arrivals, users, crashes, rollbacks of
    the state and new UIDVALIDITY epochs; and runs that show where they end. */
module Promises {
  import opened State
  import opened Placement
  import opened Protocol
  import opened Safety
  import opened Convergence
  import opened Tracking
  import opened Guarantees
  import opened OpLog
  import K = Key

  // ------------------------------------------------------------------ safety

  /** With the guard on, no Message-ID ever has two copies in the buckets, not even counting
      appends whose outcome is still open, unless both were there when the mirror was new. */
  lemma AtMostOnce(o: Opts, r: Run, n: nat, i: nat, j: nat)
    requires o.destGuard && Legal(o, r) && n < |r.states|
    requires i in r.states[n].apps && j in r.states[n].apps
    requires r.states[n].apps[i].key == r.states[n].apps[j].key && K.IsRealMessageID(r.states[n].apps[i].key)
    ensures i == j || (i in r.states[0].apps && j in r.states[0].apps)
    ensures r.states[n].apps[i].folder in Buckets(o)
  {
    RunKeeps(o, r, n);
    OriginStays(o, r, n);
  }

  /** The copies found at the start are the same ones ever after, as far as they exist. */
  lemma {:induction false} OriginStays(o: Opts, r: Run, n: nat)
    requires Legal(o, r) && n < |r.states|
    ensures r.states[n].origin == r.states[0].apps.Keys
    ensures forall i :: i in r.states[n].apps && i in r.states[0].apps ==>
              r.states[n].apps[i].key == r.states[0].apps[i].key
  {
    FirstState(o, r);
    if n > 0 {
      OriginStays(o, r, n - 1);
      RunKeeps(o, r, n - 1);
      StepAt(o, r, n);
      OriginStep(o, r.states[n - 1], r.steps[n - 1]);
    }
  }

  lemma OriginStep(o: Opts, s: Sys, st: Step)
    requires LiveInv(o, s) && Enabled(o, s, st)
    ensures var s' := Do(o, s, st);
            && s'.origin == s.origin
            && forall i :: i in s'.apps && i in s.origin ==> i in s.apps && s'.apps[i].key == s.apps[i].key
  {
    if !TouchesCopies(st) { CopiesFrame(o, s, st); }
  }

  ghost function CopiesOf(s: Sys, k: Key): set<nat> {
    set i | i in s.apps && s.apps[i].key == k
  }

  /** Whatever the destination holds at first, no run with the guard on adds a second copy: the
      copies of a Message-ID never number more than at the start, or one. */
  lemma CopiesNeverGrow(o: Opts, r: Run, n: nat, k: Key)
    requires o.destGuard && Legal(o, r) && n < |r.states| && K.IsRealMessageID(k)
    ensures |CopiesOf(r.states[n], k)| <= 1 || CopiesOf(r.states[n], k) <= CopiesOf(r.states[0], k)
    ensures |CopiesOf(r.states[n], k)| <= 1 || |CopiesOf(r.states[n], k)| <= |CopiesOf(r.states[0], k)|
  {
    var now, first := CopiesOf(r.states[n], k), CopiesOf(r.states[0], k);
    OriginStays(o, r, n);
    if i :| i in now && i !in r.states[0].apps {
      forall j | j in now ensures j == i { AtMostOnce(o, r, n, i, j); }
      assert now == {i};
    } else {
      assert now <= first;
      CardinalityLe(now, first);
    }
  }

  /** Nothing is skipped: whatever state was ever committed, once the source's UIDVALIDITY is
      the stored one, every message still there at or below the mark has its key recorded, or
      a complete body stream of this epoch was asked for that key and left it out. */
  lemma NothingSkipped(o: Opts, r: Run, n: nat, h: Db, u: nat)
    requires Legal(o, r) && n < |r.states| && h in r.states[n].hist
    requires h.uidValidity == r.states[n].src.validity && u in r.states[n].src.msgs && u <= h.lastUid
    ensures r.states[n].src.msgs[u] in h.copied || LeftOut(r, n, r.states[n].src.msgs[u])
  {
    RunKeeps(o, r, n);
    assert CommittedOk(r.states[n], h);
    if r.states[n].src.msgs[u] !in h.copied { BlankMeans(o, r, n, r.states[n].src.msgs[u]); }
  }

  /** Step m is a body stream that ran to its end, and of message u with key k, which it was
      asked for, no body came. */
  ghost predicate StreamLeft(r: Run, m: nat, u: nat, k: Key) {
    && m < |r.steps| && m < |r.states| && r.steps[m].Stream? && r.steps[m].complete
    && u in r.steps[m].asked && u !in r.steps[m].came && r.steps[m].asked[u] == k && MessageIs(r.states[m], u, k)
  }

  ghost predicate SameEpoch(r: Run, m: nat, n: nat) {
    n < |r.states| && forall j: nat :: m <= j <= n ==> r.states[j].src.validity == r.states[n].src.validity
  }

  /** The body of a message with key k was asked for and left out, in this epoch. */
  ghost predicate LeftOut(r: Run, n: nat, k: Key) {
    exists m: nat, u: nat :: m < n && StreamLeft(r, m, u, k) && SameEpoch(r, m, n)
  }

  /** Blank keys are exactly those left out. */
  lemma BlankMeans(o: Opts, r: Run, n: nat, k: Key)
    requires Legal(o, r) && n < |r.states|
    ensures k in r.states[n].blank <==> LeftOut(r, n, k)
  {
    if k in r.states[n].blank { BlankLeftOut(o, r, n, k); }
    if m: nat, u: nat :| m < n && StreamLeft(r, m, u, k) && SameEpoch(r, m, n) { LeftOutBlank(o, r, m, u, n, k); }
  }

  lemma {:induction false} BlankLeftOut(o: Opts, r: Run, n: nat, k: Key)
    requires Legal(o, r) && n < |r.states| && k in r.states[n].blank
    ensures LeftOut(r, n, k)
  {
    FirstState(o, r);
    if n > 0 {
      StepAt(o, r, n);
      BlankStep(o, r.states[n - 1], r.steps[n - 1], k);
      if LeavesOut(r.steps[n - 1], k) {
        var u: nat :| u in r.steps[n - 1].asked && u !in r.steps[n - 1].came && r.steps[n - 1].asked[u] == k;
        assert StreamLeft(r, n - 1, u, k) && SameEpoch(r, n - 1, n);
      } else {
        BlankLeftOut(o, r, n - 1, k);
        var m: nat, u: nat :| m < n - 1 && StreamLeft(r, m, u, k) && SameEpoch(r, m, n - 1);
        assert StreamLeft(r, m, u, k) && SameEpoch(r, m, n);
      }
    }
  }

  lemma {:induction false} LeftOutBlank(o: Opts, r: Run, m: nat, u: nat, n: nat, k: Key)
    requires Legal(o, r) && m < n && StreamLeft(r, m, u, k) && SameEpoch(r, m, n)
    ensures k in r.states[n].blank
  {
    StepAt(o, r, n);
    BlankStep(o, r.states[n - 1], r.steps[n - 1], k);
    if m == n - 1 {
      assert LeavesOut(r.steps[n - 1], k);
    } else {
      assert r.states[n - 1].src.validity == r.states[n].src.validity;
      LeftOutBlank(o, r, m, u, n - 1, k);
    }
  }

  ghost predicate LeavesOut(st: Step, k: Key) {
    st.Stream? && st.complete && exists u :: u in st.asked && u !in st.came && st.asked[u] == k
  }

  lemma BlankStep(o: Opts, s: Sys, st: Step, k: Key)
    requires Enabled(o, s, st)
    ensures var s' := Do(o, s, st);
            && (k in s'.blank <==> (k in s.blank && s'.src.validity == s.src.validity) || LeavesOut(st, k))
            && (LeavesOut(st, k) ==> s'.src == s.src)
            && forall u :: st.Stream? && u in st.asked ==> MessageIs(s, u, st.asked[u])
  {
    if st.Stream? && LeavesOut(st, k) {
      var u :| u in st.asked && u !in st.came && st.asked[u] == k;
      assert u in st.asked.Keys - st.came;
    } else if !st.Stream? && !st.Env? && !st.NewEpoch? {
      BlankRests(o, s, st);
    }
  }

  lemma BlankRests(o: Opts, s: Sys, st: Step)
    requires !st.Stream? && !st.Env? && !st.NewEpoch?
    ensures Do(o, s, st).blank == s.blank && Do(o, s, st).src == s.src
  {
  }

  /** Some state up to the n-th shows a copy of k in a bucket, or k was seen before the run. */
  ghost predicate SeenAt(r: Run, n: nat, k: Key) {
    || (|r.states| > 0 && k in r.states[0].observed)
    || exists m :: 0 <= m <= n && m < |r.states| && k in LandedKeys(r.states[m].apps)
  }

  /** Every recorded key, in whatever state was ever committed, really had a copy at the
      destination: by a confirmed append, a guard hit or the seed. */
  lemma RecordedWasSeen(o: Opts, r: Run, n: nat, h: Db, k: Key)
    requires Legal(o, r) && n < |r.states| && h in r.states[n].hist && k in h.copied
    ensures SeenAt(r, n, k)
  {
    RunKeeps(o, r, n);
    assert CommittedOk(r.states[n], h);
    ObservedMeans(o, r, n, k);
  }

  lemma {:induction false} ObservedMeans(o: Opts, r: Run, n: nat, k: Key)
    requires Legal(o, r) && n < |r.states| && k in r.states[n].observed
    ensures SeenAt(r, n, k)
  {
    if n > 0 {
      if k in r.states[n - 1].observed {
        ObservedMeans(o, r, n - 1, k);
      } else {
        ObservedNew(o, r, n, k);
      }
    }
  }

  lemma ObservedNew(o: Opts, r: Run, n: nat, k: Key)
    requires Legal(o, r) && 0 < n < |r.states| && k in r.states[n].observed && k !in r.states[n - 1].observed
    ensures k in LandedKeys(r.states[n].apps)
  {
    StepAt(o, r, n);
    if !r.steps[n - 1].Env? { CopiesSeen(o, r.states[n - 1], r.steps[n - 1]); }
  }

  lemma CopiesSeen(o: Opts, s: Sys, st: Step)
    requires !st.Env?
    ensures Do(o, s, st).observed == s.observed
  {
  }

  /** The crash window: at most ring + flush - 1 appends are issued and unrecorded. */
  lemma CrashWindow(o: Opts, r: Run, n: nat)
    requires Legal(o, r) && n < |r.states|
    ensures |r.states[n].live| <= if o.destGuard then 53 else 1
  {
    RunKeeps(o, r, n);
  }

  // ------------------------------------------------------------------ crashes

  function Cut(r: Run, n: nat): Run
    requires n < |r.states| && |r.states| == |r.steps| + 1
  {
    Run(r.states[..n + 1], r.steps[..n])
  }

  /** A run may be cut off after any step, and go on from any state ever committed. */
  lemma CutOff(o: Opts, r: Run, n: nat, h: Db)
    requires Legal(o, r) && |r.states| == |r.steps| + 1 && n < |r.states| && h in r.states[n].hist
    ensures Legal(o, Then(o, Cut(r, n), End))
    ensures Legal(o, Then(o, Then(o, Cut(r, n), End), Rollback(h)))
  {
    CutLegal(o, r, n);
    LegalThen(o, Cut(r, n), End);
    LegalThen(o, Then(o, Cut(r, n), End), Rollback(h));
  }

  lemma CutLegal(o: Opts, r: Run, n: nat)
    requires Legal(o, r) && |r.states| == |r.steps| + 1 && n < |r.states|
    ensures Legal(o, Cut(r, n)) && Last(Cut(r, n)) == r.states[n]
  {
    LegalIs(o, r);
    var c := Cut(r, n);
    forall m | 0 <= m < |c.steps|
      ensures Enabled(o, c.states[m], c.steps[m]) && c.states[m + 1] == Do(o, c.states[m], c.steps[m])
    {
      assert c.states[m] == r.states[m] && c.states[m + 1] == r.states[m + 1] && c.steps[m] == r.steps[m];
    }
  }

  // ------------------------------------------------------------- conservation

  predicate ClearsKeyword(st: Step) { st.StoreKeyword? && !st.op.add }

  /** The mirror itself never deletes a landed copy, never changes its Message-ID, moves it to
      the bucket of its membership only, and takes no keyword off except by a queued removal. */
  lemma NeverLost(o: Opts, s: Sys, st: Step, i: nat)
    requires Enabled(o, s, st) && !st.Env? && i in s.apps && s.apps[i].landed
    ensures i in Do(o, s, st).apps && Do(o, s, st).apps[i].landed && Do(o, s, st).apps[i].key == s.apps[i].key
    ensures Do(o, s, st).apps[i].folder in {s.apps[i].folder, DestFor(o, s.db, s.apps[i].key)}
    ensures s.apps[i].flags <= Do(o, s, st).apps[i].flags || ClearsKeyword(st)
  {
    if !TouchesCopies(st) {
      CopiesFrame(o, s, st);
    }
  }

  // -------------------------------------------------------------- convergence

  /** Once the queue is empty and no backfill is due, every copy whose placement is tracked lies
      where its membership puts it, and every copy carries the tracked keyword of a label of its
      own exactly if it is a member; tracked keywords it carries are those of scanned labels. */
  lemma Converged(o: Opts, r: Run, n: nat, i: nat)
    requires Legal(o, r) && n < |r.states| && i in r.states[n].apps
    requires !Stale(o, r.states[n].db) && r.states[n].db.pending == []
    ensures var s := r.states[n];
            i in s.placed ==> s.apps[i].folder == DestFor(o, s.db, s.apps[i].key)
    ensures var s := r.states[n];
            o.labelPropagate ==>
              forall f :: OwnKeyword(o, s, f) && TracksKeyword(s, i, Kw(o, f)) ==>
                (Kw(o, f) in s.apps[i].flags <==> (f, s.apps[i].key) in s.db.members)
    ensures var s := r.states[n];
            o.labelPropagate ==>
              forall x :: x in s.apps[i].flags && TracksKeyword(s, i, x) ==>
                exists f :: f in s.labels && Kw(o, f) == x
  {
    RunKeeps(o, r, n);
    ReplayConverges(o, r.states[n], i);
    if o.labelPropagate && i in r.states[n].tagged { assert TagsOk(o, r.states[n], i); }
  }

  // --------------------------------------------------------- what ends tracking

  /** The step ends the tracking of the placement of copy i: the state goes back to an earlier
      one, a user moves the copy, or its message is added to a routing folder silently, with no
      backfill due. */
  ghost predicate EndsPlacement(o: Opts, s: Sys, st: Step, i: nat)
    requires i in s.apps
  {
    || st.Rollback?
    || (st.Env? && i in st.apps && st.apps[i].folder != s.apps[i].folder)
    || (st.Members? && IsRoutingFolder(o, st.folder) && !Stale(o, s.db)
        && s.apps[i].key in Unqueued(s, st.folder, st.changes) && !Queues(s, st.folder, st.changes, s.apps[i].key))
  }

  /** The step ends the tracking of keyword w of copy i: the state goes back to an earlier one, a
      user sets or clears the keyword, the message is added to a label with this keyword silently,
      or a user has moved the copy in this session and rows about the keyword are deleted, or the
      backfill ends without it. */
  ghost predicate EndsKeyword(o: Opts, s: Sys, st: Step, i: nat, w: string)
    requires i in s.apps
  {
    || st.Rollback?
    || (st.Env? && i in st.apps && w in Differing(s.apps[i].flags, st.apps[i].flags))
    || (st.Members? && !IsRoutingFolder(o, st.folder) && Kw(o, st.folder) == w
        && Silenced(o, s, st.folder, st.changes, s.apps[i].key))
    || (i in s.refiled && st.DeleteRows? && st.n <= |s.db.pending|
        && w in RowKeywords(o, s.db.pending[..st.n], s.apps[i].key))
    || (i in s.refiled && st.AdoptFingerprint? && w in KeywordsOf(o, s.db, s.apps[i].key) && w !in s.apps[i].flags)
  }

  /** Nothing else ends the tracking of a placement. */
  lemma PlacementEndsIff(o: Opts, s: Sys, st: Step, i: nat)
    requires RunInv(o, s) && Enabled(o, s, st) && i in s.placed && i in s.apps && i in Do(o, s, st).apps
    ensures i !in Do(o, s, st).placed <==> EndsPlacement(o, s, st, i)
  {
    if st.Members? {
      MembersFrame(o, s, st);
      PlacementMembers(o, s, st.folder, st.changes, i);
    } else if st.Env? || st.Record? {
      PlacementEdited(o, s, st, i);
    } else if !st.Rollback? {
      PlacedKept(o, s, st);
    }
  }

  lemma PlacementEdited(o: Opts, s: Sys, st: Step, i: nat)
    requires i in s.placed && i in s.apps && i in Do(o, s, st).apps && (st.Env? || st.Record?)
    ensures i !in Do(o, s, st).placed <==> EndsPlacement(o, s, st, i)
  {
    if st.Env? { EnvFrame(o, s, st); } else { RecordFrame(o, s, st); }
  }

  lemma PlacementMembers(o: Opts, s: Sys, f: Folder, changes: seq<Change>, i: nat)
    requires TrackInv(s) && i in s.placed && i in s.apps
    ensures i !in PlacedAfter(o, s, f, changes) <==> EndsPlacement(o, s, Members(f, changes), i)
  {
    assert Followed(s, i);
  }

  lemma PlacedKept(o: Opts, s: Sys, st: Step)
    requires !st.Members? && !st.Env? && !st.Record? && !st.Rollback?
    ensures Do(o, s, st).placed == s.placed
  {
  }

  /** Nothing else ends the tracking of a keyword. */
  lemma KeywordEndsIff(o: Opts, s: Sys, st: Step, i: nat, w: string)
    requires RunInv(o, s) && Enabled(o, s, st) && TracksKeyword(s, i, w) && i in s.apps && i in Do(o, s, st).apps
    ensures !TracksKeyword(Do(o, s, st), i, w) <==> EndsKeyword(o, s, st, i, w)
  {
    if st.Members? {
      MembersFrame(o, s, st);
      KeywordMembers(o, s, st.folder, st.changes, i, w);
    } else if st.Env? || st.Record? {
      KeywordEdited(o, s, st, i, w);
    } else if st.DeleteRows? || st.AdoptFingerprint? {
      KeywordMissed(o, s, st, i, w);
    } else if !st.Rollback? {
      TagsKept(o, s, st);
    }
  }

  lemma KeywordMembers(o: Opts, s: Sys, f: Folder, changes: seq<Change>, i: nat, w: string)
    requires TrackInv(s) && TracksKeyword(s, i, w) && i in s.apps
    ensures w in Of(LooseAfter(o, s, f, changes), i) <==> EndsKeyword(o, s, Members(f, changes), i, w)
  {
    assert Followed(s, i);
  }

  lemma KeywordEdited(o: Opts, s: Sys, st: Step, i: nat, w: string)
    requires KnownKeys(s) && TracksKeyword(s, i, w) && i in s.apps && i in Do(o, s, st).apps && (st.Env? || st.Record?)
    ensures !TracksKeyword(Do(o, s, st), i, w) <==> EndsKeyword(o, s, st, i, w)
  {
    if st.Env? {
      EnvFrame(o, s, st);
    } else {
      RecordFrame(o, s, st);
      LooseWithAt(o, s, Tracked(s, st.ids), i);
    }
  }

  lemma KeywordMissed(o: Opts, s: Sys, st: Step, i: nat, w: string)
    requires Enabled(o, s, st) && TracksKeyword(s, i, w) && i in s.apps && (st.DeleteRows? || st.AdoptFingerprint?)
    ensures !TracksKeyword(Do(o, s, st), i, w) <==> EndsKeyword(o, s, st, i, w)
  {
  }

  lemma TagsKept(o: Opts, s: Sys, st: Step)
    requires !st.Members? && !st.Env? && !st.Record? && !st.Rollback? && !st.DeleteRows? && !st.AdoptFingerprint?
    ensures Do(o, s, st).tagged == s.tagged && Do(o, s, st).loose == s.loose
  {
  }

  /** A copy that has landed and is there now was there before. */
  lemma WasThere(o: Opts, s: Sys, st: Step, i: nat)
    requires Enabled(o, s, st) && i in s.arrived
    ensures i in Do(o, s, st).arrived && (i in Do(o, s, st).apps ==> i in s.apps)
  {
    if !TouchesCopies(st) { CopiesFrame(o, s, st); }
  }

  /** The step records copy i, the only one of a searchable key that was not recorded. */
  ghost predicate Records(s: Sys, st: Step, i: nat) { st.Record? && i in Tracked(s, st.ids) }

  /** One step of a run and the invariants before it, said as Legal is. */
  ghost predicate Goes(o: Opts, s: Sys, st: Step, s': Sys) {
    forall n: nat {:trigger Look(n)} :: Look(n) ==> Enabled(o, s, st) && s' == Do(o, s, st)
  }

  ghost predicate Known(o: Opts, s: Sys) {
    forall n: nat {:trigger Look(n)} :: Look(n) ==> RunInv(o, s)
  }

  lemma GoesOn(o: Opts, r: Run, n: nat)
    requires Legal(o, r) && 0 < n < |r.states|
    ensures n <= |r.steps| && Goes(o, r.states[n - 1], r.steps[n - 1], r.states[n])
  {
    StepAt(o, r, n);
  }

  lemma KnownAt(o: Opts, r: Run, n: nat)
    requires Legal(o, r) && n < |r.states|
    ensures Known(o, r.states[n])
  {
    RunKeeps(o, r, n);
  }

  lemma RecordsPlaced(o: Opts, s: Sys, st: Step, s': Sys, i: nat)
    requires Known(o, s) && Goes(o, s, st, s') && Records(s, st, i)
    ensures i in s'.arrived && (i !in s.refiled ==> i in s'.placed)
  {
    assert Look(0);
    RecordFrame(o, s, st);
    var j :| 0 <= j < |st.ids| && st.ids[j] == i;
  }

  /** Keyword w of copy i is as the mirror left it: no user has changed it or moved the copy, and
      it was not refused. */
  ghost predicate LeftAlone(s: Sys, i: nat, w: string) {
    i in s.apps && i !in s.refiled && w !in Of(s.retagged, i) && s.apps[i].key !in s.rejected
  }

  lemma RecordsTagged(o: Opts, s: Sys, st: Step, s': Sys, i: nat, w: string)
    requires Known(o, s) && Goes(o, s, st, s') && Records(s, st, i) && LeftAlone(s, i, w)
    ensures i in s'.arrived && TracksKeyword(s', i, w)
  {
    RecordsPlaced(o, s, st, s', i);
    assert Look(0);
    RecordFrame(o, s, st);
    LooseWithAt(o, s, Tracked(s, st.ids), i);
    assert EditOk(s, i);
    var j :| 0 <= j < |st.ids| && st.ids[j] == i;
  }

  /** Steps m to n - 1 do not end the tracking of a placement or a keyword. */
  ghost predicate NoneEndsPlacement(o: Opts, r: Run, m: nat, n: nat, i: nat)
    requires n <= |r.steps| < |r.states|
  {
    forall t :: m <= t < n && i in r.states[t].apps ==> !EndsPlacement(o, r.states[t], r.steps[t], i)
  }

  ghost predicate NoneEndsKeyword(o: Opts, r: Run, m: nat, n: nat, i: nat, w: string)
    requires n <= |r.steps| < |r.states|
  {
    forall t :: m <= t < n && i in r.states[t].apps ==> !EndsKeyword(o, r.states[t], r.steps[t], i, w)
  }

  lemma NextPlaced(o: Opts, s: Sys, st: Step, s': Sys, i: nat)
    requires Known(o, s) && Goes(o, s, st, s') && i in s.arrived
    requires i in s.apps ==> i in s.placed && !EndsPlacement(o, s, st, i)
    ensures i in s'.arrived && (i in s'.apps ==> i in s'.placed)
  {
    assert Look(0);
    WasThere(o, s, st, i);
    if i in s'.apps { PlacementEndsIff(o, s, st, i); }
  }

  lemma {:induction false} PlacedSince(o: Opts, r: Run, m: nat, n: nat, i: nat)
    requires Legal(o, r) && m < n <= |r.steps| < |r.states|
    requires Records(r.states[m], r.steps[m], i) && i !in r.states[m].refiled && NoneEndsPlacement(o, r, m + 1, n, i)
    ensures i in r.states[n].arrived && (i in r.states[n].apps ==> i in r.states[n].placed)
  {
    var s, st := r.states[n - 1], r.steps[n - 1];
    GoesOn(o, r, n);
    KnownAt(o, r, n - 1);
    if n - 1 == m {
      RecordsPlaced(o, s, st, r.states[n], i);
    } else {
      PlacedSince(o, r, m, n - 1, i);
      NextPlaced(o, s, st, r.states[n], i);
    }
  }

  lemma NextTagged(o: Opts, s: Sys, st: Step, s': Sys, i: nat, w: string)
    requires Known(o, s) && Goes(o, s, st, s') && i in s.arrived
    requires i in s.apps ==> TracksKeyword(s, i, w) && !EndsKeyword(o, s, st, i, w)
    ensures i in s'.arrived && (i in s'.apps ==> TracksKeyword(s', i, w))
  {
    assert Look(0);
    WasThere(o, s, st, i);
    if i in s'.apps { KeywordEndsIff(o, s, st, i, w); }
  }

  lemma {:induction false} TaggedSince(o: Opts, r: Run, m: nat, n: nat, i: nat, w: string)
    requires Legal(o, r) && m < n <= |r.steps| < |r.states|
    requires Records(r.states[m], r.steps[m], i) && LeftAlone(r.states[m], i, w)
    requires NoneEndsKeyword(o, r, m + 1, n, i, w)
    ensures i in r.states[n].arrived && (i in r.states[n].apps ==> TracksKeyword(r.states[n], i, w))
  {
    var s, st := r.states[n - 1], r.steps[n - 1];
    GoesOn(o, r, n);
    KnownAt(o, r, n - 1);
    if n - 1 == m {
      RecordsTagged(o, s, st, r.states[n], i, w);
    } else {
      TaggedSince(o, r, m, n - 1, i, w);
      NextTagged(o, s, st, r.states[n], i, w);
    }
  }

  /** A copy that was the only one of its key when it was recorded ends up where its membership
      puts it, unless one of the things named has happened since. */
  lemma PlacedAtLast(o: Opts, r: Run, m: nat, n: nat, i: nat)
    requires Legal(o, r) && m < n <= |r.steps| < |r.states|
    requires Records(r.states[m], r.steps[m], i) && i !in r.states[m].refiled && NoneEndsPlacement(o, r, m + 1, n, i)
    requires i in r.states[n].apps && !Stale(o, r.states[n].db) && r.states[n].db.pending == []
    ensures r.states[n].apps[i].folder == DestFor(o, r.states[n].db, r.states[n].apps[i].key)
  {
    PlacedSince(o, r, m, n, i);
    Converged(o, r, n, i);
  }

  /** And it carries the keyword of a label of its own exactly if it is a member. */
  lemma TaggedAtLast(o: Opts, r: Run, m: nat, n: nat, i: nat, f: Folder)
    requires Legal(o, r) && m < n <= |r.steps| < |r.states| && o.labelPropagate
    requires Records(r.states[m], r.steps[m], i) && LeftAlone(r.states[m], i, Kw(o, f))
    requires NoneEndsKeyword(o, r, m + 1, n, i, Kw(o, f)) && OwnKeyword(o, r.states[n], f)
    requires i in r.states[n].apps && !Stale(o, r.states[n].db) && r.states[n].db.pending == []
    ensures Kw(o, f) in r.states[n].apps[i].flags <==> (f, r.states[n].apps[i].key) in r.states[n].db.members
  {
    TaggedSince(o, r, m, n, i, Kw(o, f));
    Converged(o, r, n, i);
  }
}
