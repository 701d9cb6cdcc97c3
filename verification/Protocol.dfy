/** The mirror as a transition system over three stores: the source mailboxes, the
    SQLite state with every state ever committed, and the destination copies, landed or
    still in flight. A run is a sequence of steps; a crash, a loss or a rollback of the
    state, and everything users and servers do on their own are steps as well. */
module Protocol {
  import opened Wrappers
  import opened State
  import opened Placement
  import K = Key
  import Windows

  datatype Mailbox = Mailbox(validity: nat, uidNext: nat, msgs: map<nat, Key>)

  /** One APPEND: in flight until it has landed in a destination bucket. Flags are the
      keywords of the copy in canonical form. */
  datatype App = App(key: Key, folder: Folder, flags: set<string>, landed: bool)

  datatype Sys = Sys(
    src: Mailbox,                     // the mirrored source folder
    watched: map<Folder, Mailbox>,    // source folders watched for membership
    db: Db,
    hist: set<Db>,                    // every committed state, the empty one included
    apps: map<nat, App>,
    // one session
    busy: bool,
    cleared: set<Key>,                // searched at the destination, not found, not yet issued
    rejected: set<Key>,               // keyword appends refused with a tagged NO or BAD
    refiled: set<nat>,                // copies a user moved between buckets during the session
    retagged: map<nat, set<string>>,  // keywords a user set or cleared on a copy during the session
    live: map<nat, Key>,              // issued, not yet recorded
    confirmed: set<nat>,              // live and confirmed
    virgin: set<Folder>,              // rebuilds that started with no stored member
    bodies: set<Key>,                 // keys whose bodies the current stream delivers
    // history
    arrived: set<nat>,                // appends that have landed
    observed: set<Key>,               // keys with a copy seen at the destination
    blank: set<Key>,                  // keys a complete stream of this epoch was asked for and left out
    distinct: set<Folder>,            // watched folders never seen with a key twice in this epoch
    labels: set<Folder>,              // label folders scanned so far
    placed: set<nat>,                 // copies whose placement is tracked
    tagged: set<nat>,                 // copies whose keywords are tracked,
    loose: map<nat, set<string>>,     // apart from these
    origin: set<nat>,                 // copies the mirror found when it was new
    names: set<(nat, Key)>)           // messages the source folder has held in this epoch, with their keys

  datatype Step =
    | Env(src: Mailbox, watched: map<Folder, Mailbox>, apps: map<nat, App>)
    | NewEpoch(src: Mailbox, watched: map<Folder, Mailbox>)
    | Begin
    | End
    | Rollback(db: Db)
    | Clear(keys: set<Key>)
    | Issue(id: nat, key: Key, folder: Folder, flags: set<string>)
    | Confirm(id: nat)
    | Reject(id: nat)
    | Record(ids: seq<nat>, records: seq<KeyRecord>)
    | RecordSeen(records: seq<KeyRecord>)
    | Stream(asked: map<nat, Key>, came: set<nat>, complete: bool)
    | ResetMark
    | Adopt
    | Mark(stop: nat)
    | FirstScan(folder: Folder)
    | Members(folder: Folder, changes: seq<Change>)
    | MarkFolder(folder: Folder, stop: nat)
    | MoveCopies(copies: set<nat>, to: Folder)
    | StoreKeyword(copies: set<nat>, op: PendingOp)
    | AddKeywords(copies: set<nat>, kws: set<string>)
    | DeleteRows(n: nat)
    | AdoptFingerprint

  // ------------------------------------------------------------- environment

  const UID_LIMIT := Windows.M

  /** UIDs lie below UIDNEXT, which leaves room for one more window (32-bit arithmetic);
      dedup keys are never empty. */
  predicate MailOk(o: Opts, m: Mailbox) {
    && m.validity != 0
    && m.uidNext + o.uidBatch <= UID_LIMIT
    && forall u :: u in m.msgs ==> 1 <= u < m.uidNext && m.msgs[u] != ""
  }

  /** Within an epoch, messages leave and new ones get UIDs from UIDNEXT upwards. */
  predicate MailLater(m: Mailbox, m': Mailbox) {
    && m'.validity == m.validity
    && m.uidNext <= m'.uidNext
    && forall u :: u in m'.msgs ==> m.uidNext <= u || (u in m.msgs && m.msgs[u] == m'.msgs[u])
  }

  predicate MailsLater(w: map<Folder, Mailbox>, w': map<Folder, Mailbox>) {
    w'.Keys == w.Keys && forall f :: f in w ==> MailLater(w[f], w'[f])
  }

  predicate MailsOk(o: Opts, w: map<Folder, Mailbox>) {
    forall f :: f in w ==> MailOk(o, w[f])
  }

  predicate Edited(a: App, a': App) { a.folder != a'.folder || a.flags != a'.flags }

  /** In-flight appends land or die (not before their session is over), landed copies may
      be deleted, refiled between buckets or retagged by users. */
  predicate AppsLater(o: Opts, apps: map<nat, App>, live: set<nat>, apps': map<nat, App>) {
    && (forall i :: i in apps' ==>
          && i in apps
          && apps'[i].key == apps[i].key
          && (apps[i].landed ==> apps'[i].landed)
          && (Edited(apps[i], apps'[i]) ==> apps[i].landed && apps'[i].folder in Buckets(o)))
    && (forall i :: i in apps && i !in apps' ==> apps[i].landed || i !in live)
  }

  /** The copies that lie elsewhere now. */
  function Moved(apps: map<nat, App>, apps': map<nat, App>): set<nat> {
    set i | i in apps' && i in apps && apps'[i].folder != apps[i].folder
  }

  /** The keywords on which flags differ. */
  function Differing(flags: set<string>, flags': set<string>): set<string> {
    (flags - flags') + (flags' - flags)
  }

  function Of(m: map<nat, set<string>>, i: nat): set<string> { if i in m then m[i] else {} }

  /** What m says of each copy, and the keywords on which it has changed. */
  function WithEdits(m: map<nat, set<string>>, apps: map<nat, App>, apps': map<nat, App>): map<nat, set<string>> {
    map i | i in apps' :: Of(m, i) + if i in apps then Differing(apps[i].flags, apps'[i].flags) else {}
  }

  function LandedIds(apps: map<nat, App>): set<nat> {
    set i | i in apps && apps[i].landed
  }

  function LandedKeys(apps: map<nat, App>): set<Key> {
    set i | i in apps && apps[i].landed :: apps[i].key
  }

  predicate KeysDistinct(m: Mailbox) {
    forall u, v :: u in m.msgs && v in m.msgs && m.msgs[u] == m.msgs[v] ==> u == v
  }

  /** UIDVALIDITY moves to a value no committed state has ever stored. */
  ghost predicate FreshSource(s: Sys, validity: nat) {
    forall h :: h in s.hist ==> h.uidValidity != validity
  }

  ghost predicate FreshFolder(s: Sys, f: Folder, validity: nat) {
    forall h :: h in s.hist && f in h.folders ==> h.folders[f].validity != validity
  }

  // ------------------------------------------------------------------- queue

  ghost predicate HasMove(q: seq<PendingOp>, k: Key) {
    exists op :: op in q && op.kind == Move && op.key == k
  }

  predicate KeywordRow(op: PendingOp, k: Key, f: Folder) {
    op.kind == Keyword && op.key == k && op.folder == f
  }

  ghost predicate HasKeyword(q: seq<PendingOp>, k: Key, f: Folder) {
    exists op :: op in q && KeywordRow(op, k, f)
  }

  /** Whether replaying the queue leaves the keyword of label f on k set, given that some
      row concerns it: the last such row decides. */
  function LastAdds(q: seq<PendingOp>, k: Key, f: Folder): bool {
    if q == [] then false
    else if KeywordRow(q[|q| - 1], k, f) then q[|q| - 1].add
    else LastAdds(q[..|q| - 1], k, f)
  }

  /** f is a label whose keyword no other scanned label shares. */
  ghost predicate OwnKeyword(o: Opts, s: Sys, f: Folder) {
    && f in s.labels && Kw(o, f) != ""
    && forall g :: g in s.labels && Kw(o, g) == Kw(o, f) ==> g == f
  }

  // ------------------------------------------------------------------ guards

  /** The most appends that may be issued and unrecorded at any time. */
  function Window(o: Opts): nat { if o.destGuard then 53 else 1 }

  /** Everything present up to stop is recorded, or a stream left its body out. */
  ghost predicate Covered(m: Mailbox, copied: map<Key, nat>, blank: set<Key>, stop: nat) {
    && (stop == 0 || stop < m.uidNext)
    && forall u :: u in m.msgs && u <= stop ==> m.msgs[u] in copied || m.msgs[u] in blank
  }

  function NamesIn(m: Mailbox): set<(nat, Key)> {
    set u | u in m.msgs :: (u, m.msgs[u])
  }

  /** Message u of the source folder has key k, or had it while it was there. */
  ghost predicate MessageIs(s: Sys, u: nat, k: Key) { (u, k) in s.names }

  /** A FETCH asks for the bodies of candidates: messages of this epoch, none of them recorded,
      no key twice, each cleared where the guard can. The server sends some of them. */
  ghost predicate StreamOk(o: Opts, s: Sys, asked: map<nat, Key>, came: set<nat>) {
    && s.busy && s.live == map[] && came <= asked.Keys
    && (forall u :: u in asked ==>
          && MessageIs(s, u, asked[u]) && asked[u] !in s.db.copied
          && (o.destGuard && K.IsRealMessageID(asked[u]) ==> asked[u] in s.cleared))
    && (forall u, v :: u in asked && v in asked && asked[u] == asked[v] ==> u == v)
  }

  ghost function KeysAt(asked: map<nat, Key>, uids: set<nat>): set<Key> {
    set u | u in asked && u in uids :: asked[u]
  }

  ghost predicate IssueOk(o: Opts, s: Sys, id: nat, key: Key, folder: Folder, flags: set<string>) {
    && s.busy
    && id !in s.apps && id !in s.live && id !in s.arrived
    && key !in s.db.copied && key in s.bodies && key !in s.live.Values
    && (o.destGuard && K.IsRealMessageID(key) ==> key in s.cleared)
    && folder == DestFor(o, s.db, key)
    && (flags == KeywordsOf(o, s.db, key) || (flags == {} && key in s.rejected))
    && |s.live| < Window(o)
  }

  ghost predicate RecordOk(s: Sys, ids: seq<nat>, records: seq<KeyRecord>) {
    && |ids| == |records|
    && forall j :: 0 <= j < |ids| ==>
         ids[j] in s.confirmed && ids[j] in s.live && s.live[ids[j]] == records[j].key
  }

  /** Each queued kind is the gated one; a change queues nothing only when its key is a
      member already or the rebuild started from nothing. */
  ghost predicate GatedOk(o: Opts, s: Sys, f: Folder, changes: seq<Change>) {
    forall c :: c in changes ==>
      || c.kind == Gate(s.db, c.key, KindFor(o, f))
      || (c.kind == None && c.add && ((f, c.key) in s.db.members || f in s.virgin))
  }

  /** The stored scan state of f belongs to its current epoch. */
  ghost predicate Follows(s: Sys, db: Db, f: Folder) {
    f in s.watched && f in db.folders && db.folders[f].validity == s.watched[f].validity
  }

  /** And no key was ever seen twice in the folder. */
  ghost predicate Tracks(s: Sys, db: Db, f: Folder) { Follows(s, db, f) && f in s.distinct }

  /** A new row has the uid of a message of this epoch with its key. */
  ghost predicate AddSound(s: Sys, f: Folder, c: Change)
    requires f in s.watched
  {
    && 1 <= c.uid < s.watched[f].uidNext
    && (c.uid in s.watched[f].msgs ==> s.watched[f].msgs[c.uid] == c.key)
    && (forall k :: (f, k) in s.db.members && s.db.members[(f, k)] == c.uid ==> k == c.key)
  }

  /** No older message has the key. */
  ghost predicate AddFresh(s: Sys, f: Folder, c: Change)
    requires Follows(s, s.db, f)
  {
    var m := s.watched[f].msgs;
    forall u :: u in m && u <= s.db.folders[f].lastUid && m[u] == c.key ==> u == c.uid
  }

  /** No message up to the mark has the key. */
  ghost predicate RemoveOk(s: Sys, f: Folder, c: Change)
    requires Follows(s, s.db, f)
  {
    var m := s.watched[f].msgs;
    forall u :: u in m && u <= s.db.folders[f].lastUid ==> m[u] != c.key
  }

  /** Changes of a folder whose scan state is current. */
  ghost predicate SoundChanges(s: Sys, f: Folder, changes: seq<Change>)
    requires Follows(s, s.db, f)
  {
    AllAdd(changes) ==>
      && (forall c :: c in changes ==> AddSound(s, f, c))
      && (forall c, d :: c in changes && d in changes && c.uid == d.uid ==> c.key == d.key)
  }

  /** Changes of such a folder that holds no key twice. */
  ghost predicate ScannedOk(s: Sys, f: Folder, changes: seq<Change>)
    requires Follows(s, s.db, f)
  {
    && (AllAdd(changes) ==> forall c :: c in changes ==> AddFresh(s, f, c))
    && (AllRemove(changes) ==> forall c :: c in changes ==> RemoveOk(s, f, c))
  }

  ghost predicate MembersOk(o: Opts, s: Sys, f: Folder, changes: seq<Change>) {
    && s.busy && s.live == map[]
    && f in s.watched
    && (AllAdd(changes) || AllRemove(changes))
    && GatedOk(o, s, f, changes)
    && (Follows(s, s.db, f) ==> SoundChanges(s, f, changes))
    && (Tracks(s, s.db, f) ==> ScannedOk(s, f, changes))
  }

  /** Every row of f has a uid of this epoch, under which mailbox m has its key if anything,
      and no two rows share one. */
  ghost predicate RowsSound(db: Db, f: Folder, m: Mailbox) {
    && (forall k :: (f, k) in db.members ==>
          var u := db.members[(f, k)];
          1 <= u < m.uidNext && (u in m.msgs ==> m.msgs[u] == k))
    && (forall k, l ::
          (f, k) in db.members && (f, l) in db.members && db.members[(f, k)] == db.members[(f, l)] ==> k == l)
  }

  /** Every message of m up to stop has its row. */
  ghost predicate RowsCover(db: Db, f: Folder, m: Mailbox, stop: nat) {
    forall u :: u in m.msgs && u <= stop ==>
      (f, m.msgs[u]) in db.members && db.members[(f, m.msgs[u])] == u
  }

  predicate StopOk(m: Mailbox, stop: nat) { stop == 0 || stop < m.uidNext }

  /** Keyword w of copy i is tracked. */
  ghost predicate TracksKeyword(s: Sys, i: nat, w: string) { i in s.tagged && w !in Of(s.loose, i) }

  /** A prefix of the queue may go once every tracked copy shows its effect, as far as the
      rest of the queue does not concern the same placement or keyword, and no user has moved the
      copy meanwhile. */
  ghost predicate Applied(o: Opts, s: Sys, q: seq<PendingOp>, rest: seq<PendingOp>) {
    && (forall i ::
          i in s.apps && i in s.placed && HasMove(q, s.apps[i].key) && !HasMove(rest, s.apps[i].key) ==>
          s.apps[i].folder == DestFor(o, s.db, s.apps[i].key))
    && (forall i, f ::
          i in s.apps && i !in s.refiled && OwnKeyword(o, s, f) && TracksKeyword(s, i, Kw(o, f))
          && HasKeyword(q, s.apps[i].key, f) && !HasKeyword(rest, s.apps[i].key, f) ==>
          (Kw(o, f) in s.apps[i].flags <==> LastAdds(q, s.apps[i].key, f)))
  }

  /** Every tracked copy is in its bucket and, unless a user has moved it meanwhile, carries the
      keywords of its labels. */
  ghost predicate Sorted(o: Opts, s: Sys) {
    && (forall i :: i in s.apps && i in s.placed ==> s.apps[i].folder == DestFor(o, s.db, s.apps[i].key))
    && (forall i, w ::
          i in s.apps && i !in s.refiled && TracksKeyword(s, i, w) && w in KeywordsOf(o, s.db, s.apps[i].key) ==>
          w in s.apps[i].flags)
  }

  ghost predicate CopiesOk(s: Sys, ids: set<nat>) {
    s.busy && s.live == map[] && forall i :: i in ids ==> i in s.apps && s.apps[i].landed
  }

  ghost predicate Enabled(o: Opts, s: Sys, st: Step) {
    match st
    case Env(src, watched, apps) =>
      && MailOk(o, src) && MailLater(s.src, src)
      && MailsOk(o, watched) && MailsLater(s.watched, watched)
      && AppsLater(o, s.apps, s.live.Keys, apps)
    case NewEpoch(src, watched) =>
      && !s.busy
      && MailOk(o, src) && (MailLater(s.src, src) || FreshSource(s, src.validity))
      && MailsOk(o, watched)
      && forall f :: f in watched ==>
           (f in s.watched && MailLater(s.watched[f], watched[f])) || FreshFolder(s, f, watched[f].validity)
    case Begin => !s.busy
    case End => true
    case Rollback(db) => !s.busy && db in s.hist
    case Clear(keys) =>
      && s.busy && s.live == map[]
      && (forall i :: i in s.apps ==> s.apps[i].landed)
      && (forall k :: k in keys ==> K.IsRealMessageID(k))
      && (forall i :: i in s.apps ==> s.apps[i].key !in keys)
    case Issue(id, key, folder, flags) => IssueOk(o, s, id, key, folder, flags)
    case Confirm(id) => s.busy && id in s.live && id !in s.confirmed && id in s.arrived
    case Reject(id) => s.busy && id in s.live && id !in s.confirmed && id in s.apps && !s.apps[id].landed
    case Record(ids, records) => s.busy && RecordOk(s, ids, records)
    case RecordSeen(records) => s.busy && s.live == map[] && RecordedKeys(records) <= s.observed
    case Stream(asked, came, _) => StreamOk(o, s, asked, came)
    case ResetMark => s.busy
    case Adopt => s.busy && s.db.lastUid == 0
    case Mark(stop) =>
      s.busy && (s.db.uidValidity == s.src.validity ==> Covered(s.src, s.db.copied, s.blank, stop))
    case FirstScan(f) => s.busy && MemberKeys(s.db, f) == {}
    case Members(f, changes) => MembersOk(o, s, f, changes)
    case MarkFolder(f, stop) =>
      && s.busy && f in s.watched && StopOk(s.watched[f], stop) && RowsSound(s.db, f, s.watched[f])
      && (f in s.distinct ==> RowsCover(s.db, f, s.watched[f], stop))
    case MoveCopies(ids, to) =>
      CopiesOk(s, ids) && forall i :: i in ids ==> to == DestFor(o, s.db, s.apps[i].key)
    case StoreKeyword(ids, op) =>
      CopiesOk(s, ids) && op in s.db.pending && op.kind == Keyword && Kw(o, op.folder) != ""
      && forall i :: i in ids ==> s.apps[i].key == op.key
    case AddKeywords(ids, kws) =>
      CopiesOk(s, ids) && forall i :: i in ids ==> kws <= KeywordsOf(o, s.db, s.apps[i].key)
    case DeleteRows(n) => s.busy && n <= |s.db.pending| && Applied(o, s, s.db.pending[..n], s.db.pending[n..])
    case AdoptFingerprint => s.busy && Sorted(o, s)
  }

  // ----------------------------------------------------------------- effects

  ghost function Commit(s: Sys, db: Db): Sys {
    s.(db := db, hist := s.hist + {db})
  }

  ghost function SessionOver(s: Sys): Sys {
    s.(busy := false, cleared := {}, rejected := {}, refiled := {}, retagged := map[], live := map[], confirmed := {},
       virgin := {}, bodies := {})
  }

  /** Copies get folder to; everything else about them stays. */
  function Refiled(apps: map<nat, App>, ids: set<nat>, to: Folder): map<nat, App> {
    map i | i in apps :: if i in ids then apps[i].(folder := to) else apps[i]
  }

  function Tagged(apps: map<nat, App>, ids: set<nat>, kws: set<string>): map<nat, App> {
    map i | i in apps :: if i in ids then apps[i].(flags := apps[i].flags + kws) else apps[i]
  }

  function Untagged(apps: map<nat, App>, ids: set<nat>, kws: set<string>): map<nat, App> {
    map i | i in apps :: if i in ids then apps[i].(flags := apps[i].flags - kws) else apps[i]
  }

  /** The copies that confirmed appends put under tracking: searchable ones, not recorded before,
      the only ones of their keys. With the guard on that is all searchable ones. */
  ghost function Tracked(s: Sys, ids: seq<nat>): set<nat> {
    set i | i in ids && i in s.apps && K.IsRealMessageID(s.apps[i].key) && s.apps[i].key !in s.db.copied
            && Alone(s, s.apps[i].key)
  }

  /** The keywords that appends put under tracking should carry but were refused. */
  ghost function LooseWith(o: Opts, s: Sys, ids: set<nat>): map<nat, set<string>> {
    map i | i in s.apps ::
      Of(s.loose, i) + if i in ids && s.apps[i].key in s.rejected then KeywordsOf(o, s.db, s.apps[i].key) else {}
  }

  /** The changes queue an operation on key k. */
  ghost predicate Queues(s: Sys, f: Folder, changes: seq<Change>, k: Key) {
    exists op :: op in QueuedRows(f, changes, s.db.nextId) && op.key == k
  }

  /** Copy i has landed and is the only one of its key, and the changes queue an operation on it. */
  ghost predicate Renewed(s: Sys, f: Folder, changes: seq<Change>, i: nat) {
    && i in s.apps && s.apps[i].landed && Alone(s, s.apps[i].key) && Queues(s, f, changes, s.apps[i].key)
  }

  /** Placement goes out of tracking with a silent addition, and comes under it again with the
      next queued move. */
  ghost function PlacedAfter(o: Opts, s: Sys, f: Folder, changes: seq<Change>): set<nat> {
    if !IsRoutingFolder(o, f) then s.placed
    else
      (set i | i in s.placed && i in s.apps && (Stale(o, s.db) || s.apps[i].key !in Unqueued(s, f, changes)))
      + (set i | i in s.apps && i !in s.refiled && Renewed(s, f, changes, i))
  }

  /** Key k is added to label f silently, and no backfill will make up for it. */
  ghost predicate Silenced(o: Opts, s: Sys, f: Folder, changes: seq<Change>, k: Key) {
    k in Unqueued(s, f, changes) && (!Stale(o, s.db) || HasKeyword(s.db.pending, k, f))
  }

  /** So do the keywords of labels. */
  ghost function LooseAfter(o: Opts, s: Sys, f: Folder, changes: seq<Change>): map<nat, set<string>> {
    if IsRoutingFolder(o, f) then s.loose
    else
      map i | i in s.apps ::
        if s.apps[i].landed && Silenced(o, s, f, changes, s.apps[i].key) then Of(s.loose, i) + {Kw(o, f)}
        else if Renewed(s, f, changes, i) && Kw(o, f) !in Of(s.retagged, i) then Of(s.loose, i) - {Kw(o, f)}
        else Of(s.loose, i)
  }

  /** The keywords that rows concern. */
  function RowKeywords(o: Opts, q: seq<PendingOp>, k: Key): set<string> {
    if q == [] then {}
    else
      RowKeywords(o, q[..|q| - 1], k)
      + if q[|q| - 1].kind == Keyword && q[|q| - 1].key == k then {Kw(o, q[|q| - 1].folder)} else {}
  }

  /** The keywords that deleted rows may have missed, because a user moved the copy meanwhile. */
  ghost function LooseDeleted(o: Opts, s: Sys, q: seq<PendingOp>): map<nat, set<string>> {
    map i | i in s.apps :: Of(s.loose, i) + if i in s.refiled then RowKeywords(o, q, s.apps[i].key) else {}
  }

  /** And those a backfill has missed. */
  ghost function LooseFilled(o: Opts, s: Sys): map<nat, set<string>> {
    map i | i in s.apps ::
      Of(s.loose, i) + if i in s.refiled then KeywordsOf(o, s.db, s.apps[i].key) - s.apps[i].flags else {}
  }

  /** New members of a folder rebuilt from nothing: their changes queued no operation. */
  ghost function Unqueued(s: Sys, f: Folder, changes: seq<Change>): set<Key> {
    if f in s.virgin then set k | k in ChangedKeys(changes) && (f, k) !in s.db.members else {}
  }

  ghost function Do(o: Opts, s: Sys, st: Step): Sys {
    match st
    case Env(src, watched, apps) =>
      s.(src := src, watched := watched, apps := apps, names := s.names + NamesIn(src),
         arrived := s.arrived + LandedIds(apps), observed := s.observed + LandedKeys(apps),
         distinct := (set f | f in s.distinct && f in watched && KeysDistinct(watched[f])),
         refiled := s.refiled + Moved(s.apps, apps), placed := s.placed - Moved(s.apps, apps),
         retagged := WithEdits(s.retagged, s.apps, apps), loose := WithEdits(s.loose, s.apps, apps))
    case NewEpoch(src, watched) =>
      s.(src := src, watched := watched,
         blank := if src.validity == s.src.validity then s.blank else {},
         names := (if src.validity == s.src.validity then s.names else {}) + NamesIn(src),
         distinct := (set f | f in watched && KeysDistinct(watched[f])
                              && (f in s.distinct || FreshFolder(s, f, watched[f].validity))))
    case Begin => s.(busy := true)
    case End => SessionOver(s)
    case Rollback(db) => s.(db := db, placed := {}, tagged := {})
    case Clear(keys) => s.(cleared := keys)
    case Issue(id, key, folder, flags) =>
      s.(apps := s.apps[id := App(key, folder, flags, false)], live := s.live[id := key], cleared := s.cleared - {key})
    case Confirm(id) => s.(confirmed := s.confirmed + {id})
    case Reject(id) =>
      var key := if id in s.live then s.live[id] else "";
      s.(apps := s.apps - {id}, live := s.live - {id}, rejected := s.rejected + {key},
         cleared := if K.IsRealMessageID(key) then s.cleared + {key} else s.cleared)
    case Record(ids, records) =>
      var gone := set i | i in ids;
      Commit(s, s.db.(copied := Recorded(s.db.copied, records)))
      .(live := s.live - gone, confirmed := s.confirmed - gone,
        placed := s.placed + (Tracked(s, ids) - s.refiled), tagged := s.tagged + Tracked(s, ids),
        loose := LooseWith(o, s, Tracked(s, ids)))
    case RecordSeen(records) => Commit(s, s.db.(copied := Recorded(s.db.copied, records)))
    case Stream(asked, came, complete) =>
      s.(bodies := KeysAt(asked, came),
         blank := if complete then s.blank + KeysAt(asked, asked.Keys - came) else s.blank)
    case ResetMark => Commit(s, s.db.(lastUid := 0))
    case Adopt => Commit(s, s.db.(uidValidity := s.src.validity))
    case Mark(stop) => Commit(s, s.db.(lastUid := stop))
    case FirstScan(f) => s.(virgin := s.virgin + {f})
    case Members(f, changes) =>
      Commit(s, ApplyChanges(s.db, f, changes))
      .(labels := if IsRoutingFolder(o, f) then s.labels else s.labels + {f},
        placed := PlacedAfter(o, s, f, changes), loose := LooseAfter(o, s, f, changes))
    case MarkFolder(f, stop) =>
      if f in s.watched
      then Commit(s, s.db.(folders := s.db.folders[f := FolderMark(s.watched[f].validity, stop)]))
      else s
    case MoveCopies(ids, to) => s.(apps := Refiled(s.apps, ids, to))
    case StoreKeyword(ids, op) =>
      s.(apps := if op.add then Tagged(s.apps, ids, {Kw(o, op.folder)})
                 else Untagged(s.apps, ids, {Kw(o, op.folder)}))
    case AddKeywords(ids, kws) => s.(apps := Tagged(s.apps, ids, kws))
    case DeleteRows(n) =>
      if n <= |s.db.pending|
      then Commit(s, s.db.(pending := s.db.pending[n..])).(loose := LooseDeleted(o, s, s.db.pending[..n]))
      else s
    case AdoptFingerprint => Commit(s, s.db.(fingerprint := Fingerprint(o))).(loose := LooseFilled(o, s))
  }

  // -------------------------------------------------------------------- runs

  /** A run: its states, one more than its steps. */
  datatype Run = Run(states: seq<Sys>, steps: seq<Step>)

  ghost predicate Stepwise(o: Opts, r: Run) {
    && |r.states| == |r.steps| + 1
    && Init(o, r.states[0])
    && (forall n :: 0 <= n < |r.steps| ==>
          Enabled(o, r.states[n], r.steps[n]) && r.states[n + 1] == Do(o, r.states[n], r.steps[n]))
  }

  /** Legal runs are mentioned nearly everywhere, while their steps are needed in a few places.
      Legal therefore says Stepwise behind a quantifier that only Look triggers: the verifier
      unfolds it where LegalIs is called, and nowhere else. */
  ghost predicate Look(n: nat) { true }

  ghost predicate Legal(o: Opts, r: Run) {
    |r.states| > 0 && forall n: nat {:trigger Look(n)} :: Look(n) ==> Stepwise(o, r)
  }

  lemma LegalIs(o: Opts, r: Run)
    requires Legal(o, r)
    ensures Stepwise(o, r)
  {
    assert Look(0);
  }

  lemma FirstState(o: Opts, r: Run)
    requires Legal(o, r)
    ensures Init(o, r.states[0]) && |r.states| == |r.steps| + 1
  {
    LegalIs(o, r);
  }

  lemma StepAt(o: Opts, r: Run, n: nat)
    requires Legal(o, r) && 0 < n < |r.states|
    ensures n <= |r.steps| && Enabled(o, r.states[n - 1], r.steps[n - 1])
    ensures r.states[n] == Do(o, r.states[n - 1], r.steps[n - 1])
  {
    LegalIs(o, r);
  }

  ghost function Last(r: Run): Sys
    requires |r.states| > 0
  {
    r.states[|r.states| - 1]
  }

  ghost function Then(o: Opts, r: Run, st: Step): Run
    requires |r.states| > 0
  {
    Run(r.states + [Do(o, Last(r), st)], r.steps + [st])
  }

  /** A run may go on with any enabled step. */
  lemma LegalThen(o: Opts, r: Run, st: Step)
    requires Legal(o, r) && Enabled(o, Last(r), st)
    ensures Legal(o, Then(o, r, st)) && Last(Then(o, r, st)) == Do(o, Last(r), st)
  {
    LegalIs(o, r);
    var r' := Then(o, r, st);
    forall n | 0 <= n < |r'.steps|
      ensures Enabled(o, r'.states[n], r'.steps[n]) && r'.states[n + 1] == Do(o, r'.states[n], r'.steps[n])
    {
      if n < |r.steps| {
        assert r'.states[n] == r.states[n] && r'.steps[n] == r.steps[n] && r'.states[n + 1] == r.states[n + 1];
      } else {
        assert r'.states[n] == Last(r) && r'.steps[n] == st;
      }
    }
    assert r'.states[0] == r.states[0];
  }

  /** No two copies, landed or in flight, share a searchable Message-ID, except those that did
      when the mirror was new. */
  ghost predicate Unique(s: Sys) {
    forall i, j ::
      i in s.apps && j in s.apps && K.IsRealMessageID(s.apps[i].key) && s.apps[i].key == s.apps[j].key ==>
        i == j || (i in s.origin && j in s.origin)
  }

  /** The destination holds one copy of key at most. */
  ghost predicate Alone(s: Sys, key: Key) {
    forall i, j :: i in s.apps && j in s.apps && s.apps[i].key == key && s.apps[j].key == key ==> i == j
  }

  /** The keys of all copies, landed or open. */
  function AppKeys(apps: map<nat, App>): set<Key> {
    set i | i in apps :: apps[i].key
  }

  /** A store as a mirror may find it at first: new, or carried over from a version that knew
      no pending operations, its scan states cleared and its mark honest. */
  ghost predicate Fresh(db: Db, src: Mailbox, seen: set<Key>) {
    && db.folders == map[] && db.pending == []
    && db.copied.Keys <= seen
    && (db.uidValidity == src.validity ==> Covered(src, db.copied, {}, db.lastUid))
  }

  ghost function LabelsIn(o: Opts, db: Db): set<Folder> {
    set fk | fk in db.members && !IsRoutingFolder(o, fk.0) :: fk.0
  }

  /** A mirror at its start; seen are the keys observed at the destination so far. */
  ghost function Start(o: Opts, src: Mailbox, watched: map<Folder, Mailbox>, db: Db, apps: map<nat, App>,
                       seen: set<Key>): Sys {
    Sys(src, watched, db, {EMPTY, db}, apps,
        false, {}, {}, {}, map[], map[], {}, {}, {},
        LandedIds(apps), seen, {}, (set f | f in watched && KeysDistinct(watched[f])), LabelsIn(o, db), {}, {}, map[],
        apps.Keys, NamesIn(src))
  }

  /** A start: a fresh store, any source mailboxes, any copies in the buckets. */
  ghost predicate Init(o: Opts, s: Sys) {
    && ConfigOk(o)
    && MailOk(o, s.src) && MailsOk(o, s.watched)
    && Fresh(s.db, s.src, s.observed)
    && (forall i :: i in s.apps ==> s.apps[i].landed && s.apps[i].folder in Buckets(o))
    && LandedKeys(s.apps) <= s.observed
    && s == Start(o, s.src, s.watched, s.db, s.apps, s.observed)
  }
}
