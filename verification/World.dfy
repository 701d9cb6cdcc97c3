/** One mirror at work: the store, the two servers and the variables of a reconcile pass.
    Everything that happens to any of them is logged as a step of the protocol. */
module World {
  import opened Wrappers
  import opened State
  import opened Placement
  import opened Protocol
  import opened Safety
  import opened Convergence
  import opened Tracking
  import opened Guarantees
  import K = Key
  import Search
  import Pipeline

  datatype Selected = Nothing | Main | Named(folder: Folder)

  /** The source connection and the mailboxes behind it. */
  class Source {
    var main: Mailbox
    var folders: map<Folder, Mailbox>
    var selected: Selected
    var asked: seq<map<nat, Key>>     // the bodies asked for so far, fetch by fetch
    const special: set<Folder>        // unselectable and special-use folders
    const delivers: (nat, nat) -> bool // whether body fetch n, if it runs to its end, delivers the body of UID u

    constructor (main: Mailbox, folders: map<Folder, Mailbox>, special: set<Folder>, delivers: (nat, nat) -> bool)
      ensures this.main == main && this.folders == folders && this.special == special && this.delivers == delivers
    {
      this.main, this.folders, this.special, this.delivers := main, folders, special, delivers;
      selected, asked := Nothing, [];
    }
  }

  /** The destination connection, the copies in its buckets and the appends under way. */
  class Dest {
    var apps: map<nat, App>
    var nextId: nat
    var open: set<nat>                // appends of this session, not yet recorded
    var selected: Option<Folder>
    var shown: set<nat>               // what the bucket held when it was selected

    constructor (apps: map<nat, App>, nextId: nat)
      ensures this.apps == apps && this.nextId == nextId && open == {}
    {
      this.apps, this.nextId, open, selected, shown := apps, nextId, {}, None, {};
    }
  }

  datatype Answer = Stored | Refused | Unknown

  /** An append in the ring or in the records buffer of copyPipeline. */
  datatype Flight = Flight(id: nat, uid: nat, key: Key, folder: Folder, hadKeywords: bool)

  datatype Summary = Summary(
    validityChanged: bool, candidates: nat, copied: nat, skipped: nat,
    moved: nat, keywordsSet: nat, keywordsUpdated: nat)

  const NOTHING_DONE := Summary(false, 0, 0, 0, 0, 0, 0)

  /** What the environment may do while the mirror is at work. */
  ghost predicate Drift(a: Sys, b: Sys) {
    && MailLater(a.src, b.src) && MailsLater(a.watched, b.watched)
    && a.refiled <= b.refiled && a.arrived <= b.arrived && a.observed <= b.observed
    && b.placed <= a.placed <= b.placed + b.refiled
    && b.distinct <= a.distinct && a.names <= b.names
    && (forall i :: i in b.apps ==> Drifted(a, b, i))
    && b == a.(src := b.src, watched := b.watched, apps := b.apps, refiled := b.refiled, retagged := b.retagged,
               arrived := b.arrived, observed := b.observed, placed := b.placed, loose := b.loose,
               distinct := b.distinct, names := b.names)
  }

  /** What it may do to one copy. */
  ghost predicate Drifted(a: Sys, b: Sys, i: nat)
    requires i in b.apps
  {
    && i in a.apps && b.apps[i].key == a.apps[i].key && (a.apps[i].landed ==> b.apps[i].landed)
    && (b.apps[i].folder != a.apps[i].folder ==> i in b.refiled)
    && (forall w :: w !in Of(b.retagged, i) ==> (w in b.apps[i].flags <==> w in a.apps[i].flags))
    && Edits(a, b, i)
  }

  /** The keywords of copy i that users have changed, and those excused, which grow by the former
      only. */
  ghost predicate Edits(a: Sys, b: Sys, i: nat) {
    && Of(a.retagged, i) <= Of(b.retagged, i)
    && Of(a.loose, i) <= Of(b.loose, i) <= Of(a.loose, i) + Of(b.retagged, i)
  }

  /** What is tracked stays tracked, apart from what a user does to it. */
  ghost predicate StillTracked(a: Sys, b: Sys) {
    && a.refiled <= b.refiled && a.rejected <= b.rejected
    && a.placed <= b.placed + b.refiled && a.tagged <= b.tagged
    && (forall i :: i in b.apps && i in a.tagged ==> i in a.apps && StillExcused(a, b, i))
  }

  ghost predicate StillExcused(a: Sys, b: Sys, i: nat) {
    && Of(a.retagged, i) <= Of(b.retagged, i)
    && (i !in b.refiled ==> Of(b.loose, i) <= Of(a.loose, i) + Of(b.retagged, i))
  }

  /** A copy was there before and not open, or it is open, or its key has been recorded since. */
  ghost predicate Traced(a: Sys, b: Sys) {
    forall i :: i in b.apps ==>
      || (i in a.apps && i !in a.live && b.apps[i].key == a.apps[i].key)
      || i in b.live
      || (b.apps[i].key in b.db.copied && b.apps[i].key !in a.db.copied)
  }

  lemma TracedTwice(a: Sys, b: Sys, c: Sys)
    requires Traced(a, b) && Traced(b, c) && a.db.copied.Keys <= b.db.copied.Keys <= c.db.copied.Keys
    ensures Traced(a, c)
  {
  }

  /** What the copying part of a pass may change: it records keys, and copies appear. */
  ghost predicate Copying(a: Sys, b: Sys) {
    && MailLater(a.src, b.src) && MailsLater(a.watched, b.watched)
    && b.db == a.db.(copied := b.db.copied) && a.db.copied.Keys <= b.db.copied.Keys
    && b.busy == a.busy && b.virgin == a.virgin && b.labels == a.labels
    && b.bodies == a.bodies && b.blank == a.blank
    && a.observed <= b.observed && b.distinct <= a.distinct && a.names <= b.names
    && StillTracked(a, b) && Traced(a, b)
  }

  /** Copying that may fetch bodies. */
  ghost predicate Fetched(a: Sys, b: Sys) {
    a.blank <= b.blank && Copying(a, b.(bodies := a.bodies, blank := a.blank))
  }

  lemma FetchedTwice(a: Sys, b: Sys, c: Sys)
    requires Fetched(a, b) && Fetched(b, c)
    ensures Fetched(a, c)
  {
  }

  lemma CopyingTwice(a: Sys, b: Sys, c: Sys)
    requires Copying(a, b) && Copying(b, c)
    ensures Copying(a, c)
  {
  }

  /** Users leave landed copies alone. */
  predicate Calm(apps: map<nat, App>, apps': map<nat, App>) {
    forall i :: i in apps && apps[i].landed ==> i in apps' && apps'[i] == apps[i]
  }

  /** No copy changes its bucket. */
  predicate InPlace(apps: map<nat, App>, apps': map<nat, App>) {
    forall i :: i in apps' && i in apps ==> apps'[i].folder == apps[i].folder
  }

  /** metas are the messages of m with start <= UID <= stop, by ascending UID. */
  ghost predicate Listed(metas: seq<KeyRecord>, m: Mailbox, start: int, stop: int) {
    && (forall j :: 0 <= j < |metas| ==>
          start <= metas[j].uid <= stop && metas[j].uid in m.msgs && m.msgs[metas[j].uid] == metas[j].key)
    && (forall i, j :: 0 <= i < j < |metas| ==> metas[i].uid < metas[j].uid)
    && (forall u :: u in m.msgs && start <= u <= stop ==> KeyRecord(m.msgs[u], u) in metas)
  }

  method ListRange(m: Mailbox, start: nat, stop: nat) returns (metas: seq<KeyRecord>)
    ensures Listed(metas, m, start, stop)
  {
    metas := [];
    var uid := start;
    while uid <= stop
      invariant start <= uid
      invariant uid <= stop + 1 || metas == []
      invariant Listed(metas, m, start, uid - 1)
    {
      if uid in m.msgs {
        metas := metas + [KeyRecord(m.msgs[uid], uid)];
      }
      uid := uid + 1;
    }
  }

  /** What an answer about append id means: it is confirmed, or gone and its key cleared again where
      the guard can, or as before. */
  ghost predicate Heard(a: Sys, b: Sys, id: nat, r: Answer)
    requires id in a.live
  {
    match r
    case Stored =>
      && b.confirmed == a.confirmed + {id}
      && b.live == a.live && b.cleared == a.cleared && b.rejected == a.rejected
    case Refused =>
      && id !in b.apps && b.live == a.live - {id} && b.confirmed == a.confirmed
      && b.rejected == a.rejected + {a.live[id]}
      && b.cleared == a.cleared + if K.IsRealMessageID(a.live[id]) then {a.live[id]} else {}
    case Unknown =>
      b.confirmed == a.confirmed && b.live == a.live && b.cleared == a.cleared && b.rejected == a.rejected
  }

  lemma HeardSince(a: Sys, b: Sys, c: Sys, id: nat, r: Answer)
    requires Drift(a, b) && Copying(b, c) && id in a.live && Heard(b, c, id, r) && c.db == b.db
    ensures Copying(a, c) && Heard(a, c, id, r) && c.db == a.db
  {
  }

  class World {
    const o: Opts
    const store: Store
    const src: Source
    const dst: Dest
    const client: Search.Client
    const calm: bool                  // whether users leave the destination alone meanwhile
    const healthy: bool               // whether no command and no statement fails
    var sum: Summary
    var cons: Pipeline.Cons<Flight>
    ghost var run: Run
    ghost var sys: Sys

    /** A mirror over a fresh store, between any source mailboxes and any copies in the
        buckets; seen are the keys observed there so far, delivers foretells the body streams. */
    constructor (o: Opts, db: Db, main: Mailbox, folders: map<Folder, Mailbox>, special: set<Folder>,
                 delivers: (nat, nat) -> bool, apps: map<nat, App>, nextId: nat, calm: bool, healthy: bool,
                 ghost seen: set<Key>)
      requires ConfigOk(o) && MailOk(o, main) && MailsOk(o, folders)
      requires Fresh(db, main, seen) && LandedKeys(apps) <= seen
      requires forall i :: i in apps ==> i < nextId && apps[i].landed && apps[i].folder in Buckets(o)
      ensures Valid() && this.o == o && this.calm == calm && this.healthy == healthy
      ensures sys == Start(o, main, folders, db, apps, seen)
      ensures fresh(store) && fresh(src) && fresh(dst) && fresh(client) && src.delivers == delivers
    {
      this.o, this.calm, this.healthy := o, calm, healthy;
      store := new Store(db, healthy);
      src := new Source(main, folders, special, delivers);
      dst := new Dest(apps, nextId);
      client := new Search.Client();
      sum, cons := NOTHING_DONE, Pipeline.Idle();
      sys := Start(o, main, folders, db, apps, seen);
      new;
      run := Run([sys], []);
    }

    ghost predicate Valid()
      reads this, store, src, dst, client
    {
      && Legal(o, run) && sys == Last(run)
      && sys.db == store.db && sys.src == src.main && sys.watched == src.folders && sys.apps == dst.apps
      && sys.live.Keys == dst.open
      && (forall i :: i in sys.apps || i in sys.live || i in sys.arrived ==> i < dst.nextId)
      && 1 <= client.guardChunk && (healthy ==> store.healthy)
    }

    /** The destination's UIDs leave room for one more window. */
    predicate Room()
      reads dst
    {
      dst.nextId + 1 + o.uidBatch <= UID_LIMIT
    }

    /** Nothing stands in the way of a pass: no command fails, the routing folders exist at the
        source, and there is room at the destination. */
    predicate Able()
      reads src, dst
    {
      healthy && Room() && forall f :: f in RoutingFolders(o) ==> f in src.folders
    }

    /** The invariants of every run hold now. */
    lemma Known()
      requires Valid()
      ensures RunInv(o, sys)
    {
      RunKeeps(o, run, |run.states| - 1);
    }

    lemma Safe()
      requires Valid()
      ensures SafeInv(o, sys)
    {
      Known();
    }

    lemma ConfirmedAreLive()
      requires Valid()
      ensures sys.confirmed <= sys.live.Keys
    {
      Safe();
    }

    /** Logs one step; the stores it concerns have been changed accordingly. */
    ghost method Act(st: Step)
      requires Legal(o, run) && sys == Last(run) && Enabled(o, sys, st)
      modifies this`run, this`sys
      ensures Legal(o, run) && sys == Last(run)
      ensures sys == Do(o, old(sys), st)
      ensures run == Then(o, old(run), st)
    {
      LegalThen(o, run, st);
      run := Then(o, run, st);
      sys := Last(run);
    }

    // ------------------------------------------------------------ environment

    method Become(main: Mailbox, folders: map<Folder, Mailbox>, apps: map<nat, App>)
      requires Valid() && MayDrift(o, src.main, src.folders, dst.apps, dst.open, main, folders, apps)
      modifies this`run, this`sys, src`main, src`folders, dst`apps
      ensures Valid() && Drift(old(sys), sys)
      ensures dst.apps == apps && src.main == main && src.folders == folders
      ensures |run.steps| == |old(run).steps| + 1 && run.steps[|old(run).steps|].Env?
    {
      EnvDrifts(o, sys, Env(main, folders, apps));
      Act(Env(main, folders, apps));
      src.main, src.folders, dst.apps := main, folders, apps;
    }

    /** Anything but moves between buckets. */
    method InterfereInPlace()
      requires Valid()
      modifies this`run, this`sys, src`main, src`folders, dst`apps
      ensures Valid() && Drift(old(sys), sys) && InPlace(old(sys).apps, sys.apps)
    {
      var main: Mailbox := *;
      var folders: map<Folder, Mailbox> := *;
      var apps: map<nat, App> := *;
      if !MayDrift(o, src.main, src.folders, dst.apps, dst.open, main, folders, apps) || !InPlace(dst.apps, apps) {
        Safe();
        main, folders, apps := src.main, src.folders, dst.apps;
      }
      Become(main, folders, apps);
    }

    /** Anything the servers and their users may do at this moment. */
    method Interfere()
      requires Valid()
      modifies this`run, this`sys, src`main, src`folders, dst`apps
      ensures Valid() && Drift(old(sys), sys)
      ensures calm ==> Calm(old(dst.apps), dst.apps)
    {
      var main: Mailbox := *;
      var folders: map<Folder, Mailbox> := *;
      var apps: map<nat, App> := *;
      if !MayDrift(o, src.main, src.folders, dst.apps, dst.open, main, folders, apps)
         || (calm && !Calm(dst.apps, apps))
      {
        Safe();
        main, folders, apps := src.main, src.folders, dst.apps;
      }
      Become(main, folders, apps);
    }

    // ------------------------------------------------------ source connection

    ghost predicate Selects(sel: Selected)
      reads src
    {
      src.selected == sel && (sel.Named? ==> sel.folder in src.folders)
    }

    /** The mailbox that is selected now. */
    function Box(): Mailbox
      requires src.selected != Nothing && (src.selected.Named? ==> src.selected.folder in src.folders)
      reads this, src
    {
      if src.selected.Main? then src.main else src.folders[src.selected.folder]
    }

    method Select(sel: Selected) returns (ok: bool, validity: nat, uidNext: nat)
      requires Valid() && sel != Nothing
      modifies this`run, this`sys, src`main, src`folders, src`selected, dst`apps
      ensures Valid() && Drift(old(sys), sys) && (calm ==> Calm(old(dst.apps), dst.apps))
      ensures ok ==> Selects(sel) && validity == Box().validity && uidNext == Box().uidNext
      ensures healthy && (sel.Named? ==> sel.folder in old(src.folders)) ==> ok
    {
      Interfere();
      var failed: bool :| healthy ==> !failed;
      if failed || (sel.Named? && sel.folder !in src.folders) {
        src.selected := Nothing;
        return false, 0, 0;
      }
      src.selected := sel;
      return true, Box().validity, Box().uidNext;
    }

    method FetchMetaRange(start: nat, stop: nat) returns (ok: bool, metas: seq<KeyRecord>)
      requires Valid() && src.selected != Nothing && Selects(src.selected)
      modifies this`run, this`sys, src`main, src`folders, dst`apps
      ensures Valid() && Drift(old(sys), sys) && (calm ==> Calm(old(dst.apps), dst.apps))
      ensures Selects(old(src.selected))
      ensures ok ==> Listed(metas, Box(), start, stop)
      ensures healthy ==> ok
    {
      Interfere();
      ok :| healthy ==> ok;
      metas := ListRange(Box(), start, stop);
    }

    method SearchAllUids() returns (ok: bool, uids: set<nat>)
      requires Valid() && src.selected != Nothing && Selects(src.selected)
      modifies this`run, this`sys, src`main, src`folders, dst`apps
      ensures Valid() && Drift(old(sys), sys) && (calm ==> Calm(old(dst.apps), dst.apps))
      ensures Selects(old(src.selected))
      ensures ok ==> uids == Box().msgs.Keys
      ensures healthy ==> ok
    {
      Interfere();
      ok :| healthy ==> ok;
      uids := Box().msgs.Keys;
    }

    /** One FETCH for the bodies of candidates. Complete, it delivers those foretold, and none
        of the others is ever heard of; broken off, some of them. */
    method FetchBodies(asked: map<nat, Key>) returns (complete: bool, came: set<nat>)
      requires Valid() && StreamOk(o, sys, asked, {})
      modifies this`run, this`sys, src`main, src`folders, src`asked, dst`apps
      ensures Valid() && src.asked == old(src.asked) + [asked]
      ensures Fetched(old(sys), sys) && sys.live == map[] && sys.cleared == old(sys).cleared && sys.db == old(sys).db
      ensures came <= Delivered(|old(src.asked)|, asked.Keys)
      ensures complete ==> came == Delivered(|old(src.asked)|, asked.Keys)
      ensures sys.bodies == KeysAt(asked, came)
      ensures sys.blank == old(sys).blank + if complete then KeysAt(asked, asked.Keys - came) else {}
      ensures healthy ==> complete
    {
      Interfere();
      came := Delivered(|src.asked|, asked.Keys);
      src.asked := src.asked + [asked];
      complete :| healthy ==> complete;
      if !complete {
        var cut: set<nat> := *;
        came := came * cut;
      }
      Act(Stream(asked, came, complete));
    }

    /** Those of the UIDs whose bodies fetch n delivers. */
    function Delivered(n: nat, uids: set<nat>): set<nat> {
      set u | u in uids && src.delivers(n, u)
    }

    // ---------------------------------------------------- destination appends

    /** Writes an APPEND without waiting for its answer. After an error the server may still
        have received it. */
    method BeginAppend(key: Key, folder: Folder, flags: set<string>) returns (ok: bool, id: nat)
      requires Valid() && IssueOk(o, sys, dst.nextId, key, folder, flags)
      modifies this`run, this`sys, src`main, src`folders, dst
      ensures Valid() && Copying(old(sys), sys) && sys.db == old(sys).db
      ensures id == old(dst.nextId) && dst.nextId == id + 1
      ensures sys.cleared == old(sys).cleared - {key} || (!ok && sys.cleared == old(sys).cleared)
      ensures sys.live == old(sys).live[id := key] || (!ok && sys.live == old(sys).live)
      ensures id !in old(sys).live && id !in old(sys).confirmed
      ensures sys.confirmed == old(sys).confirmed && sys.rejected == old(sys).rejected
      ensures healthy ==> ok
    {
      ConfirmedAreLive();
      Interfere();
      id := dst.nextId;
      ok :| healthy ==> ok;
      var sent: bool := *;
      if !ok && !sent {
        dst.nextId := id + 1;
        return;
      }
      TrackedBefore();
      Send(id, key, folder, flags);
    }

    /** Ids of tracked copies are used up. */
    lemma TrackedBefore()
      requires Valid()
      ensures forall i :: i in sys.tagged ==> i < dst.nextId
    {
      Known();
    }

    /** The server receives an APPEND. */
    method Send(id: nat, key: Key, folder: Folder, flags: set<string>)
      requires Valid() && id == dst.nextId && IssueOk(o, sys, id, key, folder, flags)
      modifies this`run, this`sys, dst
      ensures Valid() && dst.nextId == id + 1
      ensures sys == old(sys).(apps := sys.apps, live := old(sys).live[id := key], cleared := old(sys).cleared - {key})
      ensures sys.apps == old(sys).apps[id := App(key, folder, flags, false)]
    {
      Act(Issue(id, key, folder, flags));
      dst.nextId := id + 1;
      dst.apps := dst.apps[id := App(key, folder, flags, false)];
      dst.open := dst.open + {id};
    }

    /** Waits for the answer to an append: stored, refused with a tagged NO or BAD, or an
        error that leaves the outcome unknown. */
    method Await(id: nat) returns (r: Answer)
      requires Valid() && sys.busy && id in sys.live && id !in sys.confirmed
      modifies this`run, this`sys, src`main, src`folders, dst`apps, dst`open
      ensures Valid() && Copying(old(sys), sys) && sys.db == old(sys).db
      ensures Heard(old(sys), sys, id, r)
      ensures healthy ==> r == Stored
    {
      ghost var a := sys;
      Answered(id);
      ghost var b := sys;
      Arrived(id);
      r :| healthy ==> r == Stored;
      if r == Stored && id in dst.apps && !dst.apps[id].landed { r := Unknown; }
      if r == Refused && (id !in dst.apps || dst.apps[id].landed) { r := Unknown; }
      Note(id, r);
      HeardSince(a, b, sys, id, r);
    }

    method Note(id: nat, r: Answer)
      requires Valid() && sys.busy && id in sys.live && id !in sys.confirmed
      requires (r == Stored ==> id in sys.arrived) && (r == Refused ==> id in dst.apps && !dst.apps[id].landed)
      modifies this`run, this`sys, dst`apps, dst`open
      ensures Valid() && Copying(old(sys), sys) && sys.db == old(sys).db && Heard(old(sys), sys, id, r)
    {
      match r {
        case Stored => Act(Confirm(id));
        case Refused => Refuse(id);
        case Unknown =>
      }
    }

    /** Whatever goes on until the answer is there. Where no command fails, the append has landed
        by then. */
    method Answered(id: nat)
      requires Valid() && id in sys.live
      modifies this`run, this`sys, src`main, src`folders, dst`apps
      ensures Valid() && Drift(old(sys), sys)
      ensures healthy && id in dst.apps ==> dst.apps[id].landed
    {
      ghost var a := sys;
      Interfere();
      ghost var b := sys;
      if healthy && id in dst.apps {
        Land(id);
        DriftTwice(a, b, sys);
      }
    }

    method Land(id: nat)
      requires Valid() && id in dst.apps
      modifies this`run, this`sys, src`main, src`folders, dst`apps
      ensures Valid() && Drift(old(sys), sys) && dst.apps == old(dst.apps)[id := old(dst.apps)[id].(landed := true)]
    {
      Safe();
      Become(src.main, src.folders, dst.apps[id := dst.apps[id].(landed := true)]);
    }

    /** A live append that is no longer in flight has arrived. */
    lemma Arrived(id: nat)
      requires Valid() && id in sys.live
      ensures id !in sys.apps || sys.apps[id].landed ==> id in sys.arrived
    {
      Safe();
    }

    method Refuse(id: nat)
      requires Valid() && Enabled(o, sys, Reject(id))
      modifies this`run, this`sys, dst`apps, dst`open
      ensures Valid() && sys == Do(o, old(sys), Reject(id))
    {
      Act(Reject(id));
      dst.apps := dst.apps - {id};
      dst.open := dst.open - {id};
    }

    /** Appends of earlier sessions have landed or died by the time the guard searches. */
    method SettleStragglers()
      requires Valid() && sys.live == map[]
      modifies this`run, this`sys, src`main, src`folders, dst`apps
      ensures Valid() && Drift(old(sys), sys) && Calm(old(dst.apps), dst.apps)
      ensures forall i :: i in sys.apps ==> sys.apps[i].landed
    {
      var died: set<nat> := *;
      var apps := map i | i in dst.apps && (dst.apps[i].landed || i !in died) :: dst.apps[i].(landed := true);
      MaySettle(apps);
      Become(src.main, src.folders, apps);
    }

    lemma MaySettle(apps: map<nat, App>)
      requires Valid() && sys.live == map[]
      requires forall i :: i in apps ==> i in sys.apps && apps[i] == sys.apps[i].(landed := true)
      requires forall i :: i in sys.apps && sys.apps[i].landed ==> i in apps
      ensures MayDrift(o, src.main, src.folders, dst.apps, dst.open, src.main, src.folders, apps)
    {
      Safe();
    }

    /** The Message-ID headers of the copies in one bucket. */
    function Headers(folder: Folder): map<nat, string>
      reads this, dst
    {
      map i | i in dst.apps && dst.apps[i].landed && dst.apps[i].folder == folder ::
        if K.IsRealMessageID(dst.apps[i].key) then dst.apps[i].key else ""
    }

    ghost predicate Holds(folder: Folder, key: Key)
      reads this, dst
    {
      exists i :: i in dst.apps && dst.apps[i].landed && dst.apps[i].folder == folder && dst.apps[i].key == key
    }

    lemma HeldWasSeen(folder: Folder)
      requires Valid()
      ensures forall key :: Holds(folder, key) ==> key in sys.observed
    {
      Safe();
    }

    /** Which of the ids the bucket holds. While a guard search goes over the buckets, no copy
        moves between them. */
    method SearchMessageIDsIn(folder: Folder, ids: seq<string>) returns (ok: bool, found: set<string>)
      requires Valid() && forall id :: id in ids ==> id != "" && K.IsRealMessageID(id)
      modifies this`run, this`sys, src`main, src`folders, dst`apps, client
      ensures Valid() && Drift(old(sys), sys) && InPlace(old(sys).apps, sys.apps)
      ensures ok ==> forall id :: id in ids ==> (id in found <==> Holds(folder, id))
      ensures ok ==> forall id :: id in found ==> K.IsRealMessageID(id) && Holds(folder, id)
      ensures healthy ==> ok
    {
      InterfereInPlace();
      var headers := Headers(folder);
      ghost var halved;
      var limit: nat :| 1 <= limit;
      ok, found, halved := client.SearchMessageIDsIn(headers, ids, healthy, limit);
      HeadersHold(folder);
    }

    lemma HeadersHold(folder: Folder)
      ensures forall id :: id != "" ==> (id in Headers(folder).Values <==> K.IsRealMessageID(id) && Holds(folder, id))
    {
      var headers := Headers(folder);
      forall id | id in headers.Values && id != "" ensures K.IsRealMessageID(id) && Holds(folder, id) {
        var i :| i in headers && headers[i] == id;
        assert dst.apps[i].key == id;
      }
      forall id | K.IsRealMessageID(id) && Holds(folder, id) ensures id in headers.Values {
        var i :| i in dst.apps && dst.apps[i].landed && dst.apps[i].folder == folder && dst.apps[i].key == id;
        assert headers[i] == id;
      }
    }

    // --------------------------------------------------- destination buckets

    /** Copies that lie in one bucket. */
    function InBucket(folder: Folder): set<nat>
      reads this, dst
    {
      set i | i in dst.apps && dst.apps[i].landed && dst.apps[i].folder == folder
    }

    /** Opens a bucket, in which copy i has UID i + 1; there is room for one more window. */
    method SelectBucket(folder: Folder) returns (ok: bool, uidNext: nat, messages: nat)
      requires Valid()
      modifies this`run, this`sys, src`main, src`folders, dst`apps, dst`selected, dst`shown
      ensures Valid() && Drift(old(sys), sys) && (calm ==> Calm(old(dst.apps), dst.apps))
      ensures ok ==> dst.selected == Some(folder) && uidNext == dst.nextId + 1 && uidNext + o.uidBatch <= UID_LIMIT
      ensures ok ==> dst.shown == InBucket(folder) && messages == |dst.shown|
      ensures healthy && Room() ==> ok
    {
      Interfere();
      dst.selected := None;
      ok :| healthy ==> ok;
      if !ok || dst.nextId + 1 + o.uidBatch > UID_LIMIT { return false, 0, 0; }
      dst.selected, dst.shown := Some(folder), InBucket(folder);
      uidNext, messages := dst.nextId + 1, |dst.shown|;
    }

    /** The copies of the selected bucket with UIDs in a range; of those that came into it
        since it was selected, possibly none. */
    method FetchCopies(folder: Folder, start: nat, stop: nat) returns (ok: bool, copies: seq<nat>)
      requires Valid() && dst.selected == Some(folder) && 1 <= start
      modifies this`run, this`sys, src`main, src`folders, dst`apps
      ensures Valid() && Drift(old(sys), sys) && (calm ==> Calm(old(dst.apps), dst.apps))
      ensures ok ==> forall i :: i in copies ==> i in InBucket(folder)
      ensures ok ==> forall i :: i in InBucket(folder) && i in dst.shown && start <= i + 1 <= stop ==> i in copies
      ensures healthy ==> ok
    {
      Interfere();
      copies := [];
      ok :| healthy ==> ok;
      if !ok { return; }
      var uid := start;
      while uid <= stop
        invariant start <= uid
        invariant forall i :: i in copies ==> i in InBucket(folder)
        invariant forall i :: i in InBucket(folder) && i in dst.shown && start <= i + 1 <= stop && i + 1 < uid ==>
                      i in copies
      {
        var late: bool := *;
        if uid - 1 in InBucket(folder) && (uid - 1 in dst.shown || late) {
          copies := copies + [uid - 1];
        }
        uid := uid + 1;
      }
    }

    // ------------------------------------------------------- recording keys

    /** Stores the records of confirmed appends. */
    method StoreRecords(ids: seq<nat>, records: seq<KeyRecord>) returns (ok: bool)
      requires Valid() && sys.busy && RecordOk(sys, ids, records)
      modifies this`run, this`sys, store, dst`open
      ensures Valid() && Copying(old(sys), sys)
      ensures sys.cleared == old(sys).cleared && sys.rejected == old(sys).rejected
      ensures !ok ==> sys == old(sys)
      ensures ok ==>
                && sys.db.copied.Keys == old(sys).db.copied.Keys + RecordedKeys(records)
                && sys.live == old(sys).live - (set i | i in ids)
                && sys.confirmed == old(sys).confirmed - (set i | i in ids)
                && RecordNoted(o, old(sys), sys, ids)
      ensures healthy ==> ok
    {
      RecordIsCopying(ids, records);
      ok := store.RecordKeys(records);
      if !ok { return; }
      Act(Record(ids, records));
      dst.open := dst.open - set i | i in ids;
    }

    lemma RecordIsCopying(ids: seq<nat>, records: seq<KeyRecord>)
      requires Valid() && sys.busy && RecordOk(sys, ids, records)
      ensures RecordCopies(o, sys, Do(o, sys, Record(ids, records)), ids, records) && Copying(sys, sys)
    {
      Known();
      RecordTraced(o, sys, Do(o, sys, Record(ids, records)), ids, records);
    }

    /** Stores keys seen at the destination. */
    method StoreSeen(records: seq<KeyRecord>) returns (ok: bool)
      requires Valid() && sys.busy && sys.live == map[] && RecordedKeys(records) <= sys.observed
      modifies this`run, this`sys, store
      ensures Valid() && Copying(old(sys), sys)
      ensures sys == old(sys).(db := sys.db, hist := sys.hist)
      ensures ok ==> sys.db.copied.Keys == old(sys).db.copied.Keys + RecordedKeys(records)
      ensures records == [] ==> sys.db == old(sys).db
      ensures healthy ==> ok
    {
      SeenIsCopying(records);
      ok := store.RecordKeys(records);
      if !ok { return; }
      Act(RecordSeen(records));
    }

    lemma SeenIsCopying(records: seq<KeyRecord>)
      requires Valid() && sys.live == map[]
      ensures Copying(sys, Do(o, sys, RecordSeen(records))) && Copying(sys, sys)
      ensures SeenOnly(sys, Do(o, sys, RecordSeen(records)), records)
    {
      Known();
      RecordSeenCopies(o, sys, records);
    }
  }

  /** Keys are recorded, and nothing else changes. */
  ghost predicate SeenOnly(a: Sys, b: Sys, records: seq<KeyRecord>) {
    && b == a.(db := b.db, hist := b.hist) && (records == [] ==> b.db == a.db)
    && b.db.copied.Keys == a.db.copied.Keys + RecordedKeys(records)
  }

  lemma RecordSeenCopies(o: Opts, s: Sys, records: seq<KeyRecord>)
    requires MailsInv(o, s) && s.live == map[]
    ensures Copying(s, Do(o, s, RecordSeen(records))) && Copying(s, s)
    ensures SeenOnly(s, Do(o, s, RecordSeen(records)), records)
  {
    RecordedAdds(s.db.copied, records);
  }

  /** The copies of a searchable key are tracked, as far as users have kept their hands off them. */
  ghost predicate Noted(o: Opts, s: Sys, k: Key) {
    K.IsRealMessageID(k) ==> forall i :: i in s.apps && s.apps[i].key == k ==> CopyNoted(o, s, i)
  }

  /** Its placement is, unless a user has moved it in this session; so are its keywords, apart from
      those that a user has changed or the server refused. A move excuses keywords, too: rows and
      backfills may have missed the copy. */
  ghost predicate CopyNoted(o: Opts, s: Sys, i: nat)
    requires i in s.apps
  {
    && (i in s.placed || i in s.refiled) && i in s.tagged
    && (i !in s.refiled ==> forall w :: w in Of(s.loose, i) ==> w in Of(s.retagged, i) || RefusedTo(o, s, i, w))
  }

  ghost predicate RefusedTo(o: Opts, s: Sys, i: nat, w: string)
    requires i in s.apps
  {
    s.apps[i].key in s.rejected && w in KeywordsOf(o, s.db, s.apps[i].key)
  }

  /** What recording the appends ids does, from a to b. */
  ghost predicate RecordCopies(o: Opts, a: Sys, b: Sys, ids: seq<nat>, records: seq<KeyRecord>) {
    && Copying(a, b) && b.cleared == a.cleared && b.rejected == a.rejected && RecordNoted(o, a, b, ids)
    && b.db.copied.Keys == a.db.copied.Keys + RecordedKeys(records)
    && b.live == a.live - (set i | i in ids) && b.confirmed == a.confirmed - (set i | i in ids)
  }

  /** The key of each append recorded is new, and noted, unless there is another copy of it. */
  ghost predicate RecordNoted(o: Opts, a: Sys, b: Sys, ids: seq<nat>) {
    forall id :: id in ids ==> id in a.live && OneNoted(o, a, b, id)
  }

  ghost predicate OneNoted(o: Opts, a: Sys, b: Sys, id: nat)
    requires id in a.live
  {
    && a.live[id] !in a.db.copied
    && (Noted(o, b, a.live[id]) || exists i :: i in a.apps && i !in a.live && a.apps[i].key == a.live[id])
  }

  lemma RecordNotes(o: Opts, a: Sys, b: Sys, ids: seq<nat>, id: nat)
    requires LiveInv(o, a) && SoleInv(o, a) && EditInv(a) && id in ids && id in a.live
    requires NewlyTracked(o, a, b, ids) && b.db.members == a.db.members && b.rejected == a.rejected
    ensures OneNoted(o, a, b, id)
  {
    var k := a.live[id];
    if K.IsRealMessageID(k) && !exists i :: i in a.apps && i !in a.live && a.apps[i].key == k {
      forall i | i in b.apps && b.apps[i].key == k ensures CopyNoted(o, b, i) {
        assert i == id && i in Tracked(a, ids) && EditOk(a, i);
        LooseWithAt(o, a, Tracked(a, ids), i);
        KeywordsSame(o, a.db, b.db, k);
      }
    }
  }

  /** Recording is a copying step. */
  lemma RecordTraced(o: Opts, s: Sys, s': Sys, ids: seq<nat>, records: seq<KeyRecord>)
    requires LiveInv(o, s) && SoleInv(o, s) && KnownKeys(s) && MailsInv(o, s) && EditInv(s) && RecordOk(s, ids, records)
    requires s' == Do(o, s, Record(ids, records))
    ensures RecordCopies(o, s, s', ids, records) && Copying(s, s)
  {
    RecordedAdds(s.db.copied, records);
    RecordFrame(o, s, Record(ids, records));
    RecordFields(o, s, Record(ids, records));
    RecordIsNoted(o, s, s', ids, records);
    RecordStepCopies(o, s, s', ids, records);
  }

  lemma RecordStepCopies(o: Opts, s: Sys, s': Sys, ids: seq<nat>, records: seq<KeyRecord>)
    requires LiveInv(o, s) && SoleInv(o, s) && KnownKeys(s) && RecordOk(s, ids, records)
    requires s' == s.(db := s'.db, hist := s'.hist, live := s'.live, confirmed := s'.confirmed,
                      placed := s'.placed, tagged := s'.tagged, loose := s'.loose)
    requires s.placed <= s'.placed && s.tagged <= s'.tagged && s'.loose == LooseWith(o, s, Tracked(s, ids))
    requires s'.live == s.live - (set i | i in ids) && s'.db == s.db.(copied := s'.db.copied)
    requires s'.db.copied.Keys == s.db.copied.Keys + RecordedKeys(records)
    ensures Copying(s, s') && Copying(s, s)
  {
    StaysExcused(o, s, s', ids);
    RecordIsTraced(o, s, s', ids, records);
  }

  lemma RecordFields(o: Opts, s: Sys, st: Step)
    requires st.Record?
    ensures var s' := Do(o, s, st);
            && s'.confirmed == s.confirmed - (set i | i in st.ids) && s'.db.copied == Recorded(s.db.copied, st.records)
            && s' == s.(db := s'.db, hist := s'.hist, live := s'.live, confirmed := s'.confirmed,
                        placed := s'.placed, tagged := s'.tagged, loose := s'.loose)
  {
  }

  lemma RecordIsTraced(o: Opts, s: Sys, s': Sys, ids: seq<nat>, records: seq<KeyRecord>)
    requires LiveInv(o, s) && SoleInv(o, s) && RecordOk(s, ids, records)
    requires s'.apps == s.apps && s'.live == s.live - (set i | i in ids)
    requires s'.db.copied.Keys == s.db.copied.Keys + RecordedKeys(records)
    ensures Traced(s, s')
  {
    RecordsNew(o, s, ids, records);
  }

  lemma RecordsNew(o: Opts, s: Sys, ids: seq<nat>, records: seq<KeyRecord>)
    requires LiveInv(o, s) && SoleInv(o, s) && RecordOk(s, ids, records)
    ensures forall i :: i in s.apps && i in ids ==>
              s.apps[i].key in RecordedKeys(records) && s.apps[i].key !in s.db.copied
  {
    forall i | i in s.apps && i in ids
      ensures s.apps[i].key in RecordedKeys(records) && s.apps[i].key !in s.db.copied
    {
      var j :| 0 <= j < |ids| && ids[j] == i;
      assert records[j] in records;
    }
  }

  lemma RecordIsNoted(o: Opts, s: Sys, s': Sys, ids: seq<nat>, records: seq<KeyRecord>)
    requires LiveInv(o, s) && SoleInv(o, s) && EditInv(s) && RecordOk(s, ids, records)
    requires NewlyTracked(o, s, s', ids) && s'.db.members == s.db.members && s'.rejected == s.rejected
    ensures RecordNoted(o, s, s', ids)
  {
    forall id | id in ids ensures id in s.live && OneNoted(o, s, s', id) {
      RecordNotes(o, s, s', ids, id);
    }
  }

  lemma StaysExcused(o: Opts, s: Sys, s': Sys, ids: seq<nat>)
    requires KnownKeys(s) && s'.apps == s.apps && s'.retagged == s.retagged && s'.refiled == s.refiled
    requires s'.loose == LooseWith(o, s, Tracked(s, ids))
    ensures forall i :: i in s.apps && i in s.tagged ==> StillExcused(s, s', i)
  {
    forall i | i in s.apps && i in s.tagged ensures StillExcused(s, s', i) {
      LooseWithAt(o, s, Tracked(s, ids), i);
    }
  }

  /** The copies that came under tracking when these appends were recorded in a. */
  ghost predicate NewlyTracked(o: Opts, a: Sys, b: Sys, ids: seq<nat>) {
    && b.apps == a.apps && b.refiled == a.refiled && b.retagged == a.retagged
    && Tracked(a, ids) <= b.placed + b.refiled && Tracked(a, ids) <= b.tagged
    && b.loose == LooseWith(o, a, Tracked(a, ids))
  }

  predicate MayDrift(o: Opts, main: Mailbox, folders: map<Folder, Mailbox>, apps: map<nat, App>, open: set<nat>,
                     main': Mailbox, folders': map<Folder, Mailbox>, apps': map<nat, App>)
  {
    && MailOk(o, main') && MailLater(main, main')
    && MailsOk(o, folders') && MailsLater(folders, folders')
    && AppsLater(o, apps, open, apps')
  }

  lemma EnvDrifts(o: Opts, s: Sys, st: Step)
    requires st.Env? && MayDrift(o, s.src, s.watched, s.apps, s.live.Keys, st.src, st.watched, st.apps)
    ensures Enabled(o, s, st)
    ensures var s' := Do(o, s, st);
            && Drift(s, s') && s'.src == st.src && s'.watched == st.watched && s'.apps == st.apps
            && (forall i :: i in s'.arrived ==> i in s.arrived || i in s.apps)
  {
    var s' := Do(o, s, st);
    forall i | i in s'.apps ensures Drifted(s, s', i) {
      EditsAt(s.retagged, s.apps, s'.apps, i);
      EditsWithin(s.retagged, s.loose, s.apps, s'.apps, i);
    }
  }

  lemma EditsWithin(r: map<nat, set<string>>, l: map<nat, set<string>>, apps: map<nat, App>, apps': map<nat, App>,
                    i: nat)
    requires i in apps && i in apps'
    ensures Of(r, i) <= Of(WithEdits(r, apps, apps'), i)
    ensures Of(l, i) <= Of(WithEdits(l, apps, apps'), i) <= Of(l, i) + Of(WithEdits(r, apps, apps'), i)
  {
  }

  lemma DriftTwice(a: Sys, b: Sys, c: Sys)
    requires Drift(a, b) && Drift(b, c)
    ensures Drift(a, c)
  {
    forall i | i in c.apps ensures Drifted(a, c, i) {
      assert Drifted(b, c, i) && Drifted(a, b, i);
    }
  }
}
