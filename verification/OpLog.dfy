/** What the pending queue means: a log of operations on the destination copy of each key,
    replayed in order (applyPending in internal/reconcile/membership.go). */
module OpLog {
  import opened Wrappers
  import opened State
  import opened Placement
  import opened Protocol
  import opened Safety
  import opened Convergence
  import opened Tracking
  import opened Guarantees

  /** What one row does to a copy. A move recomputes the bucket from current membership. */
  function Effect(o: Opts, db: Db, app: App, op: PendingOp): App {
    if op.key != app.key then app
    else match op.kind
      case Move => if Routing(o) then app.(folder := DestFor(o, db, app.key)) else app
      case Keyword =>
        if !o.labelPropagate || Kw(o, op.folder) == "" then app
        else if op.add then app.(flags := app.flags + {Kw(o, op.folder)})
        else app.(flags := app.flags - {Kw(o, op.folder)})
      case Other => app
  }

  function Replay(o: Opts, db: Db, app: App, q: seq<PendingOp>): App {
    if q == [] then app else Effect(o, db, Replay(o, db, app, q[..|q| - 1]), q[|q| - 1])
  }

  lemma {:induction false} ReplayKeeps(o: Opts, db: Db, app: App, q: seq<PendingOp>)
    ensures Replay(o, db, app, q).key == app.key && Replay(o, db, app, q).landed == app.landed
  {
    if q != [] { ReplayKeeps(o, db, app, q[..|q| - 1]); }
  }

  lemma {:induction false} ReplayMembers(o: Opts, db: Db, db': Db, app: App, q: seq<PendingOp>)
    requires db'.members == db.members
    ensures Replay(o, db', app, q) == Replay(o, db, app, q)
  {
    if q != [] {
      ReplayMembers(o, db, db', app, q[..|q| - 1]);
      ReplayKeeps(o, db, app, q[..|q| - 1]);
      KeywordsSame(o, db, db', app.key);
    }
  }

  lemma {:induction false} ReplaySplit(o: Opts, db: Db, app: App, p: seq<PendingOp>, q: seq<PendingOp>)
    ensures Replay(o, db, app, p + q) == Replay(o, db, Replay(o, db, app, p), q)
  {
    if q == [] {
      assert p + q == p;
    } else {
      assert (p + q)[..|p + q| - 1] == p + q[..|q| - 1];
      ReplaySplit(o, db, app, p, q[..|q| - 1]);
    }
  }

  /** A queued move brings the copy to the bucket its membership asks for. */
  lemma {:induction false} ReplayMoves(o: Opts, db: Db, app: App, q: seq<PendingOp>)
    ensures Replay(o, db, app, q).folder ==
            if Routing(o) && HasMove(q, app.key) then DestFor(o, db, app.key) else app.folder
  {
    if q != [] {
      var init, op := q[..|q| - 1], q[|q| - 1];
      ReplayMoves(o, db, app, init);
      ReplayKeeps(o, db, app, init);
      assert q == init + [op];
      assert HasMove(q, app.key) <==> HasMove(init, app.key) || (op.kind == Move && op.key == app.key);
    }
  }

  /** Whether the row sets or clears keyword w on k. */
  predicate Concerns(o: Opts, op: PendingOp, k: Key, w: string) {
    o.labelPropagate && op.kind == Keyword && op.key == k && w != "" && Kw(o, op.folder) == w
  }

  /** What the last row that concerns keyword w of k says. */
  function LastSays(o: Opts, q: seq<PendingOp>, k: Key, w: string): Option<bool> {
    if q == [] then None
    else if Concerns(o, q[|q| - 1], k, w) then Some(q[|q| - 1].add)
    else LastSays(o, q[..|q| - 1], k, w)
  }

  /** The last row that concerns a keyword decides it; other keywords stay. */
  lemma {:induction false} ReplayFlags(o: Opts, db: Db, app: App, q: seq<PendingOp>, w: string)
    ensures w in Replay(o, db, app, q).flags <==>
            if LastSays(o, q, app.key, w).Some? then LastSays(o, q, app.key, w).value else w in app.flags
  {
    if q != [] {
      ReplayFlags(o, db, app, q[..|q| - 1], w);
      ReplayKeeps(o, db, app, q[..|q| - 1]);
    }
  }

  lemma {:induction false} LastSaysSplit(o: Opts, p: seq<PendingOp>, q: seq<PendingOp>, k: Key, w: string)
    ensures LastSays(o, p + q, k, w) ==
            if LastSays(o, q, k, w).Some? then LastSays(o, q, k, w) else LastSays(o, p, k, w)
  {
    if q == [] {
      assert p + q == p;
    } else {
      assert (p + q)[..|p + q| - 1] == p + q[..|q| - 1];
      LastSaysSplit(o, p, q[..|q| - 1], k, w);
    }
  }

  /** The queue is safe to replay: any prefix of it, and then all of it, comes to the same as
      all of it once. */
  lemma ReplayTwice(o: Opts, db: Db, app: App, q: seq<PendingOp>, n: nat)
    requires n <= |q|
    ensures Replay(o, db, Replay(o, db, app, q[..n]), q) == Replay(o, db, app, q)
  {
    var p, mid := q[..n], Replay(o, db, app, q[..n]);
    assert q == p + q[n..];
    ReplayKeeps(o, db, app, p);
    ReplayKeeps(o, db, mid, q);
    ReplayKeeps(o, db, app, q);
    ReplayMoves(o, db, app, p);
    ReplayMoves(o, db, mid, q);
    ReplayMoves(o, db, app, q);
    forall w ensures w in Replay(o, db, mid, q).flags <==> w in Replay(o, db, app, q).flags {
      ReplayFlags(o, db, app, p, w);
      ReplayFlags(o, db, mid, q, w);
      ReplayFlags(o, db, app, q, w);
      LastSaysSplit(o, p, q[n..], app.key, w);
    }
  }

  /** For a keyword of one label only, the last row of that label decides. */
  lemma {:induction false} LabelDecides(o: Opts, s: Sys, q: seq<PendingOp>, k: Key, f: Folder)
    requires o.labelPropagate && OwnKeyword(o, s, f)
    requires forall op :: op in q && op.kind == Keyword ==> op.folder in s.labels
    ensures LastSays(o, q, k, Kw(o, f)) == if HasKeyword(q, k, f) then Some(LastAdds(q, k, f)) else None
  {
    if q != [] {
      var init, op := q[..|q| - 1], q[|q| - 1];
      assert q == init + [op];
      LabelDecides(o, s, init, k, f);
      assert HasKeyword(q, k, f) <==> HasKeyword(init, k, f) || KeywordRow(op, k, f);
    }
  }

  // ------------------------------------------------------------ whole states

  /** Copy i had landed in a, the only one of its key, and no user has moved it. */
  ghost predicate Stayed(a: Sys, s: Sys, i: nat) {
    i in s.apps && i in a.apps && a.apps[i].landed && Alone(a, a.apps[i].key) && i !in s.refiled
  }

  /** Copy i is as app, apart from keywords a user has changed. */
  ghost predicate Shows(s: Sys, i: nat, app: App)
    requires i in s.apps
  {
    && s.apps[i].folder == app.folder
    && forall w :: w !in Of(s.retagged, i) ==> (w in s.apps[i].flags <==> w in app.flags)
  }

  /** The copies that had landed before, each the only one of its key, show the rows q, unless a
      user has moved them; so does each keyword that no user has changed. */
  ghost predicate Replayed(o: Opts, a: Sys, s: Sys, q: seq<PendingOp>) {
    forall i :: Stayed(a, s, i) ==> Shows(s, i, Replay(o, a.db, a.apps[i], q))
  }

  /** At most part of one row has happened since: the copies that had landed differ in nothing
      else, apart from what users have done. */
  ghost predicate Nearly(o: Opts, b: Sys, s: Sys, op: PendingOp) {
    forall i :: i in s.apps && i in b.apps && b.apps[i].landed ==>
      && (i !in s.refiled ==>
            || s.apps[i].folder == b.apps[i].folder
            || (op.kind == Move && op.key == s.apps[i].key && s.apps[i].folder == DestFor(o, b.db, op.key)))
      && (forall w :: w !in Of(s.retagged, i) ==>
            || (w in s.apps[i].flags <==> w in b.apps[i].flags)
            || (op.kind == Keyword && op.key == s.apps[i].key && w == Kw(o, op.folder)))
  }

  /** What users have done is remembered: copies they moved, and keywords they changed. */
  ghost predicate Remembers(b: Sys, s: Sys) {
    b.refiled <= s.refiled && forall i :: i in s.apps ==> Of(b.retagged, i) <= Of(s.retagged, i)
  }

  /** Rows that have been replayed may be deleted, even while the next one has happened in part. */
  lemma ReplayedIsApplied(o: Opts, a: Sys, b: Sys, s: Sys, q: seq<PendingOp>, rest: seq<PendingOp>)
    requires Replayed(o, a, b, q) && (s.apps == b.apps || (rest != [] && Nearly(o, b, s, rest[0])))
    requires TrackInv(a) && TrackInv(s) && EditInv(s) && LiveInv(o, s) && Remembers(b, s)
    requires s.placed <= b.placed <= a.placed && s.tagged <= b.tagged <= a.tagged
    requires s.db.members == b.db.members == a.db.members && s.apps.Keys <= b.apps.Keys <= a.apps.Keys
    requires forall i :: i in s.apps ==> s.apps[i].key == b.apps[i].key == a.apps[i].key && (a.apps[i].landed ==>
                  b.apps[i].landed)
    requires forall op :: op in q + rest && op.kind == Keyword ==> op.folder in s.labels && o.labelPropagate
    ensures Applied(o, s, q, rest)
  {
    forall op | op in q ensures op in q + rest {}
    if rest != [] { assert rest[0] in q + rest && rest[0] in rest; }
    forall i | i in s.apps && i in s.placed && HasMove(q, s.apps[i].key) && !HasMove(rest, s.apps[i].key)
      ensures s.apps[i].folder == DestFor(o, s.db, s.apps[i].key)
    {
      assert Followed(a, i) && Stayed(a, b, i);
      ReplayMoves(o, a.db, a.apps[i], q);
      KeywordsSame(o, a.db, s.db, s.apps[i].key);
      assert s.apps[i].folder in Buckets(o);
    }
    forall i, f |
      i in s.apps && i !in s.refiled && OwnKeyword(o, s, f) && TracksKeyword(s, i, Kw(o, f))
      && HasKeyword(q, s.apps[i].key, f) && !HasKeyword(rest, s.apps[i].key, f)
      ensures Kw(o, f) in s.apps[i].flags <==> LastAdds(q, s.apps[i].key, f)
    {
      assert Followed(a, i) && Stayed(a, b, i);
      ReplayFlags(o, a.db, a.apps[i], q, Kw(o, f));
      LabelDecides(o, s, q, s.apps[i].key, f);
    }
  }

  /** In every state of every run, unless a backfill is due: draining the queue would bring each
      copy whose placement is tracked into the bucket its membership asks for, and give each copy
      the tracked keywords of labels of their own exactly as it is a member. */
  lemma ReplayConverges(o: Opts, s: Sys, i: nat)
    requires RunInv(o, s) && i in s.apps && !Stale(o, s.db)
    ensures i in s.placed ==> Replay(o, s.db, s.apps[i], s.db.pending).folder == DestFor(o, s.db, s.apps[i].key)
    ensures o.labelPropagate ==>
              forall f :: OwnKeyword(o, s, f) && TracksKeyword(s, i, Kw(o, f)) ==>
                (Kw(o, f) in Replay(o, s.db, s.apps[i], s.db.pending).flags <==> (f, s.apps[i].key) in s.db.members)
  {
    ReplayMoves(o, s.db, s.apps[i], s.db.pending);
    if i in s.placed {
      assert PlacedOk(o, s, i) && s.apps[i].folder in Buckets(o);
    }
    if o.labelPropagate && i in s.tagged {
      assert KnownLabels(o, s, s.db) && TagsOk(o, s, i);
      forall f | OwnKeyword(o, s, f) && TracksKeyword(s, i, Kw(o, f))
        ensures Kw(o, f) in Replay(o, s.db, s.apps[i], s.db.pending).flags <==> (f, s.apps[i].key) in s.db.members
      {
        assert TagOk(o, s, i, f);
        ReplayFlags(o, s.db, s.apps[i], s.db.pending, Kw(o, f));
        LabelDecides(o, s, s.db.pending, s.apps[i].key, f);
      }
    }
  }
}
