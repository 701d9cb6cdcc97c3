/** Options of one mirror and the pure rules derived from them: routing, label keywords,
    gating of queued operations and the backfill fingerprint
    (internal/reconcile/membership.go). */
module Placement {
  import opened Wrappers
  import opened State
  import Labels
  import K = Key

  datatype Opts = Opts(
    uidBatch: nat,
    destGuard: bool,
    syncLabels: bool,
    sourceFolder: Folder,
    labelExclude: set<Folder>,
    destFolder: Folder,
    archiveRouting: bool,
    sourceInbox: Folder,
    archiveFolder: Folder,
    sentRouting: bool,
    sentSrcFolder: Folder,
    sentFolder: Folder,
    labelPropagate: bool,
    keywordPrefix: string,
    keywordReplacement: string)

  /** What configuration validation guarantees (internal/config/config.go). */
  predicate ConfigOk(o: Opts) {
    && 1 <= o.uidBatch < 0x8000_0000
    && (o.labelPropagate ==> o.syncLabels)
    && (o.archiveRouting ==> o.archiveFolder != o.destFolder)
    && (o.sentRouting ==> o.sentFolder != o.destFolder)
    && (o.archiveRouting && o.sentRouting ==> o.sentFolder != o.archiveFolder)
  }

  predicate Routing(o: Opts) { o.archiveRouting || o.sentRouting }

  predicate IsRoutingFolder(o: Opts, folder: Folder) {
    folder == o.sourceInbox || (o.sentRouting && folder == o.sentSrcFolder)
  }

  /** A listed folder that counts as a label: not the mirrored folder, INBOX or an excluded one. */
  predicate IsLabelFolder(o: Opts, special: set<Folder>, folder: Folder) {
    folder != o.sourceFolder && Labels.Lower(folder) != "inbox" && folder !in o.labelExclude && folder !in special
  }

  function LabelFolders(o: Opts, special: set<Folder>, listed: set<Folder>): set<Folder> {
    if o.syncLabels then set f | f in listed && !IsRoutingFolder(o, f) && IsLabelFolder(o, special, f) else {}
  }

  function RoutingFolders(o: Opts): seq<Folder> {
    (if Routing(o) then [o.sourceInbox] else []) + (if o.sentRouting then [o.sentSrcFolder] else [])
  }

  /** The source folders whose membership is watched, of those listed. */
  predicate Watched(o: Opts, special: set<Folder>, listed: set<Folder>, f: Folder) {
    f in LabelFolders(o, special, listed) || f in RoutingFolders(o)
  }

  /** Priority: inbox, then sent, then archive, then the primary folder. */
  function DestFor(o: Opts, db: Db, key: Key): Folder {
    if Routing(o) && (o.sourceInbox, key) in db.members then o.destFolder
    else if o.sentRouting && (o.sentSrcFolder, key) in db.members then o.sentFolder
    else if o.archiveRouting then o.archiveFolder
    else o.destFolder
  }

  function Buckets(o: Opts): seq<Folder> {
    [o.destFolder]
    + (if o.sentRouting then [o.sentFolder] else [])
    + (if o.archiveRouting then [o.archiveFolder] else [])
  }

  lemma DestIsBucket(o: Opts, db: Db, key: Key)
    ensures DestFor(o, db, key) in Buckets(o)
  {
  }

  /** The keyword of a label folder as the destination stores it: flags compare
      case-insensitively (RFC 3501, section 2.3.2), so the canonical form is lower case. */
  function Kw(o: Opts, folder: Folder): string {
    Labels.Lower(Labels.LabelKeyword(folder, o.keywordPrefix, o.keywordReplacement))
  }

  predicate IsLabelOf(o: Opts, db: Db, folder: Folder, key: Key) {
    (folder, key) in db.members && !IsRoutingFolder(o, folder)
  }

  function KeywordsOf(o: Opts, db: Db, key: Key): set<string> {
    if !o.syncLabels then {}
    else set fk | fk in db.members && fk.1 == key && !IsRoutingFolder(o, fk.0) && Kw(o, fk.0) != "" :: Kw(o, fk.0)
  }

  /** The kind of operation a change of the watched folder asks for. */
  function KindFor(o: Opts, folder: Folder): Option<Kind> {
    if IsRoutingFolder(o, folder) then Some(Move)
    else if o.labelPropagate then Some(Keyword)
    else None
  }

  /** No destination operation unless the message is mirrored and locatable. */
  function Gate(db: Db, key: Key, kind: Option<Kind>): Option<Kind> {
    if kind == None || !K.IsRealMessageID(key) then None
    else if key in db.copied then kind
    else None
  }

  function Bool(b: bool): string { if b then "true" else "false" }

  function Fingerprint(o: Opts): string {
    "routing=" + Bool(o.archiveRouting) + ";inbox=" + o.sourceInbox + ";dest=" + o.destFolder
    + ";archive=" + o.archiveFolder + ";sent=" + Bool(o.sentRouting) + ";sentsrc=" + o.sentSrcFolder
    + ";sentdst=" + o.sentFolder + ";labels=" + Bool(o.syncLabels) + ";kwprefix=" + o.keywordPrefix
    + ";kwrepl=" + o.keywordReplacement
  }

  predicate Stale(o: Opts, db: Db) { db.fingerprint != Fingerprint(o) }
}
