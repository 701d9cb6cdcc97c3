# Umleiter's reconcile engine

Umleiter copies mail from one IMAP account into another and keeps the copies
where the source's folders say they belong. One reconcile pass chains a
membership scan of the watched source folders, a reset of the high-water mark
when the source's UIDVALIDITY changes, a placement and keyword backfill, a
windowed mirror with pipelined appends, and a durable queue of pending
destination operations. Any write can be the last one before a crash. This
project models that engine and proves its promises for every run.

## How it is built

- `Protocol` is the engine as a transition system over three stores: the
  source mailboxes, the SQLite tables with every state ever committed, and the
  destination copies, landed or still in flight. Users and servers, crashes, a
  lost or rolled-back state file and new UIDVALIDITY epochs are steps as well.
  `Safety`, `Convergence`, `Tracking` and `Rows` hold inductive invariants,
  proved step by step; `Guarantees` puts them together for whole runs.
- `World` holds the objects the program works on: the store, the two
  connections, the summary, the consumer's ring and buffers. Its methods are
  the IMAP commands; before each of them the environment may do anything the
  protocol lets it do, and each may fail, before or after it took effect.
  Every effect is logged as a step, and `World.World.Valid` says that the log
  is a run of the protocol. So a method that keeps `Valid` never does anything
  the invariants do not allow, at no point of its execution, whatever call
  turns out to be the last. Commands and statements may fail at any point; a
  world that is `healthy` is one in which none does, and in it a pass gets through
  (`Reconcile.Run`).
- `Mirror`, `Scan`, `Sync`, `Queue`, `Backfill` and `Reconcile` are the
  imperative code of the engine, proved to keep `Valid` and to achieve what a
  successful return promises.
- `OpLog` gives the pending queue its meaning as a log of operations and proves
  that replaying it is idempotent. `Promises` states the results about every
  run; `Failures` gives runs that show where the promises end, and says exactly
  when they do.
- `Pipeline` is the producer and the consumer goroutine of `copyPipeline` as a
  concurrent system; its consumer transitions are those `Mirror` performs.
- `State`, `Migrate`, `Placement`, `Labels`, `Key`, `Windows` and `Search` are
  the store, its migrations and the self-contained algorithms.

`dafny verify dfyconfig.toml` checks everything.

## What is assumed of the environment

The guards of the environment's steps are the assumptions. Within an epoch UIDs
are not reused and lie below UIDNEXT, a new epoch has a UIDVALIDITY that no
committed state has stored, and UIDVALIDITY is never 0 (section 2.3.1.1 of RFC
3501). UIDNEXT leaves room for one more window below 2^32; `Windows.PassesIff`
says exactly what happens otherwise. An append whose session is over lands or
dies before the next guard search, a tagged NO or BAD means that nothing was
stored, and there is a single writer: while one guard search goes over the
buckets copies may vanish and change their flags, but none moves between
buckets. A watched folder neither appears nor disappears within a session. A
body stream delivers each body it was asked for once or not at all; which ones
it delivers if it runs to its end is foretold by a function `delivers` of the
fetch and the UID, about which nothing is assumed. Users
may delete, refile between buckets and retag landed copies at any time, but do
not put copies of their own into the buckets; a copy moved out of them counts as
deleted and does not come back. Only
the results on seeding ask for users who keep still meanwhile (`calm`).
Deduplication keys are never empty (`Key.DedupKeyNotEmpty`). The destination may
hold any copies at first, several of one Message-ID included.

## What is tracked

Where a copy ends up is claimed for tracked copies. A copy is tracked from the
moment its append is recorded, with the guard on or off, if its key is
searchable, was not recorded before and has no other copy then; with the guard
on that is every searchable one. Its placement and each of its keywords are
tracked on their own. A user's move ends the tracking of the placement, until
the next queued move; a keyword that a user sets or clears ends that of this
keyword, until the next row about it; a refused labelled append that of the
keywords refused; a silent addition to a label that of this label's keyword,
and one to a routing folder that of the placement. A move during a session
also excuses the keywords whose rows are deleted, or whose backfill ends, in
the same session: the search goes from bucket to bucket and may miss the copy.
A state that goes back to an earlier one ends all tracking.
`Promises.PlacementEndsIff` and `Promises.KeywordEndsIff` say that nothing else
does, and `Promises.PlacedAtLast` and `Promises.TaggedAtLast` what that means for
a copy from its recording on. The sets `refiled` and `retagged` hold what users
have done in a session.

## What turned out

- With the guard on, no run adds a second copy of a Message-ID
  (`Promises.AtMostOnce`, `Promises.CopiesNeverGrow`). The guard cannot search for
  messages without one: `Failures.GuardIff` shows that a key gets two copies in some
  run if and only if the guard is off or the key is not a real Message-ID, whatever
  the seeding policy `empty` does. A crash between the append and its record is
  enough. So the header of internal/reconcile/reconcile.go ("impossible even across
  crashes") and `docs/adr/0007-synthesized-dedup-keys-for-missing-message-id.md`
  ("idempotency holds for Message-ID-less mail across restarts") promise more than
  the code keeps, and so does
  `docs/adr/0002-message-id-dedup-destination-is-source-of-truth.md`, which says that
  seeding alone guarantees no duplicates.
- "Nothing skipped" holds up to bodies that never came. The comment at
  internal/imapx/client.go:387 says that the next reconcile retries a message
  whose body came back empty; it does not, because the mark is committed at
  internal/reconcile/reconcile.go:205 all the same. Exactly: a key of a window is
  recorded afterwards if and only if it was before, or the guard found a copy, or
  the body of the first message with this key in the window was delivered
  (`Scan.MirrorWindow`). `Failures.SkippedForever` is a run in which a message
  whose body was never asked for stays behind the mark, because the earlier one
  of the same window and key vanished before its body came.
- An incremental sync remembers one uid per key. Where a folder holds a key
  twice and the message remembered leaves, the member goes, although the other
  message is still there (`Sync.DuplicateForgotten`). Over rows that held exactly
  the folder's keys, the sync leaves exactly its keys later on if and only if
  each key of a message scanned earlier still has its stored message, or another
  one above the mark (`Sync.SyncExactIff`). A rebuild is exact for all folders,
  and a pass that has nothing to do is quiet on all of them.
- A rebuild that finds nothing stored adds its members silently. Two runs show a
  member without its keyword and nothing left to do (`Failures.SilentReAdd`): the
  removal of the last member was queued, and the mirror crashed before the folder's
  scan state was stored, either with the row still in the queue, which then takes the
  keyword off, or after the row was carried out. Exactly (`Failures.SilentReAddIff`):
  the last row of the queue that concerns the keyword decides it; without one it is
  on the copy if and only if it was on it before. In the same way a copy ends in its
  bucket if and only if the queue holds a move of it or it is there already
  (`Failures.SilentRouteIff`; `Failures.SilentMisplaced` is a run in which it is not).
  No crash is needed: where a label folder is created when the fingerprint is current,
  its first scan is silent, and copies already made never get its keyword
  (`Failures.NewLabelUnset`).
- A copy whose key the guard records has no operations queued: changes of membership
  between its append and that moment are lost on it. Draining the queue leaves a copy
  that nobody edited right if and only if membership asks for the same bucket and the
  same keywords as when it was appended (`Failures.GuardRecordsIff`); in
  `Failures.GuardMisplaced` it stays in the wrong bucket.
- A key that has a second copy when it is recorded is not tracked, and need not
  converge (`Failures.TwinLeft`, possible with the guard off only). The search for the
  copies of a key ends with the first bucket that holds any. So a move brings all of
  them to the bucket desired if and only if those elsewhere lie in one bucket
  (`Failures.TwinsMovedIff`), and a keyword row leaves all of them as it says if and
  only if those outside the first bucket are so already (`Failures.TwinsTaggedIff`).
- A user who moves a copy while a row about it is carried out may make the mirror miss
  it for good: in `Failures.MovedMeanwhile` a keyword stays on a copy that the mirror
  has tracked and whose keywords no user has changed.
- Contrary to internal/reconcile/labels.go:49, labels with the same keyword are not
  harmless once propagation is on: taking a message from one of them takes the keyword
  off, which is right if and only if the message has no other label with it
  (`Failures.SharedKeywordIff`, and `Failures.SharedKeywordLost` for a run).
- The mark must be reset before a new UIDVALIDITY is adopted: in
  `Failures.AdoptFirstSkips` the other order would skip a message.
- `scanWindows` covers exactly the UIDs meant if and only if its loop variable
  does not wrap around (`Windows.PassesIff`); a wrapped loop starts over.
- `keywordFor` is idempotent for all labels exactly if the replacement is no
  lower-case letter (`Labels.SlugIdempotentAlwaysIff`); lower-casing can create
  such a letter at an edge, where a second application trims it.
- A Message-ID that itself begins with `synth-sha256:` is not treated as real
  (`Key.RealKeyIff`), so the guard does not search for it.

## Model

| member | source | states |
|---|---|---|
| Promises.AtMostOnce | internal/reconcile/reconcile.go:297-331 | with the destination guard on, in every state of every run (crashes, rollbacks of the state, new epochs, landed or lost in-flight appends, retries, moves) two different copies of a real Message-ID, open appends included, were both there when the mirror was new |
| Promises.CopiesNeverGrow | internal/reconcile/reconcile.go:297-331 | whatever the destination held at first: with the guard on, in every state of every run the copies of a real Message-ID number at most one, or are a subset of those at the start |
| Failures.GuardIff | internal/reconcile/reconcile.go:347-371 | for every key: some run of a mirror with a store that was not empty and at most one copy of the key at its start ends with two landed ones, if and only if the guard is off or the key is not a real Message-ID |
| Promises.NothingSkipped | internal/reconcile/reconcile.go:198-213 | in every state of every run and for every state ever committed: if the stored UIDVALIDITY is the source's, each message at or below the mark that is still there has its key recorded, or a body stream of this epoch that ran to its end was asked for a message with this key and left it out |
| Promises.BlankMeans | internal/imapx/client.go:385-388 | in every run the keys excused from "nothing skipped" are exactly those of messages for whose bodies a complete stream of this epoch was asked and which it did not deliver |
| Promises.RecordedWasSeen | internal/reconcile/reconcile.go:354-357 | every recorded key of every committed state had a landed copy at some earlier point of the run: state stays behind reality, never ahead |
| Promises.CrashWindow | internal/reconcile/reconcile.go:347-371 | at every point of every run at most 53 appends are issued and unrecorded, at most 1 with the guard off |
| Promises.CutOff | internal/reconcile/reconcile.go:145-148 | a run may be cut off after any step and continued from any state ever committed; the result is a run again, so all promises hold across crashes and restores |
| Promises.NeverLost | internal/reconcile/membership.go:362-366 | no step of the mirror deletes a landed copy or changes its key, moves it anywhere but to the bucket of its membership, or takes a keyword off, except by a queued removal |
| Promises.Converged | internal/reconcile/membership.go:211-236 | in every run, guard on or off, once the queue is empty and no backfill is due: each copy whose placement is tracked is in the bucket of its membership; it carries the tracked keyword of each label of its own exactly if it is a member; and tracked keywords it carries are those of scanned labels |
| Promises.PlacementEndsIff | internal/reconcile/membership.go:111-149 | in every state that satisfies the invariants: a step ends the tracking of the placement of a copy that is still there if and only if it goes back to an earlier state, is a user's move of this copy, or adds its message to a routing folder silently with no backfill due and no operation queued |
| Promises.KeywordEndsIff | internal/reconcile/membership.go:111-149 | a step ends the tracking of one keyword of a copy that is still there if and only if it goes back to an earlier state, is a user's change of this keyword on this copy, or adds its message silently to a label with this keyword, with no backfill due or with a row about it queued; or, where a user has moved the copy in this session, deletes rows about this keyword or ends a backfill without it |
| Promises.PlacedAtLast | internal/reconcile/membership.go:211-236 | over whole runs: a copy that was the only one of its key when it was recorded, and that no user had moved in that session, lies in the bucket of its membership whenever the queue is empty and no backfill is due, unless one of these steps came in between |
| Promises.TaggedAtLast | internal/reconcile/membership.go:153-193 | likewise it carries the keyword of a label of its own exactly if it is a member, if its append was not refused and no user had changed the keyword, unless one of the steps that end its tracking came in between |
| Failures.SilentReAdd | internal/reconcile/membership.go:120-128 | for every label with a keyword there are two legal runs, without any user touching the copy, that start with a tagged copy of a member and end with the message a member, the queue empty, no backfill due and the keyword gone: one rebuilds the folder while the removal is queued, the other with an empty queue |
| Failures.SilentReAddIff | internal/reconcile/membership.go:120-128 | in every state in which nothing is stored of a folder: once its rebuild has re-added a message, draining the queue leaves the keyword on its copy as the last row that concerns it says, and without one if and only if it was there before; for a keyword of one label only, where the queue names scanned labels only, as in every run, the rows of that label decide |
| Failures.NewLabelUnset | internal/reconcile/membership.go:120-128 | for every label with a keyword a legal run, without a crash or any user touching a copy: the message was recorded and the fingerprint current before the label folder was created; it ends with the folder followed, the message a member of it, nothing left to do and the keyword not set |
| Failures.SilentRouteIff | internal/reconcile/membership.go:120-128 | after a silent re-add, draining the queue brings the copy to the bucket of its membership if and only if the queue holds a move of it, with routing on, or it lies there already |
| Failures.SilentMisplaced | internal/reconcile/membership.go:120-128 | a legal run, without any user touching the copy, that ends with a member of the inbox whose copy lies in the archive and nothing left to do |
| Failures.SharedKeywordIff | internal/reconcile/labels.go:43-50 | removing messages from a label makes the queue take its keyword off each recorded one; the result agrees with membership if and only if no other label of the message has the same keyword |
| Failures.SharedKeywordLost | internal/reconcile/labels.go:43-50 | for every two labels with the same keyword a legal run that ends with a member of one of them without the keyword and nothing left to do |
| Failures.GuardRecordsIff | internal/reconcile/membership.go:182-193 | when the guard or the seed records a key for the first time, and the queue concerns recorded keys only, as in every run: draining the queue leaves a copy as it was appended, whatever the tables were then, in its bucket with its keywords if and only if the same bucket and the same keywords are asked for now as were then |
| Failures.GuardMisplaced | internal/reconcile/reconcile.go:320-331 | a legal run, with the guard on and without any user touching the copy, in which a message joins the inbox between its append and its recording by the guard, and which ends with its copy in the archive and nothing left to do |
| Failures.RowOnOne | internal/reconcile/membership.go:295-344 | at a destination at rest, the search from bucket to bucket has on the only copy of a key exactly the effect that the row means |
| Failures.TwinsMovedIff | internal/reconcile/membership.go:297-321 | at a destination at rest a move leaves all copies of its key in the bucket of their membership if and only if all those in other buckets lie in the same one |
| Failures.TwinsTaggedIff | internal/reconcile/membership.go:322-340 | at a destination at rest a keyword row leaves all copies of its key as it says if and only if those outside the first bucket that holds any are so already |
| Failures.TwinLeft | internal/reconcile/membership.go:322-340 | with the guard off, for every label with a keyword: a legal run, without any user touching a copy, in which a key is recorded when a second copy of it is appended, and which ends with nothing left to do and the keyword missing on the first copy |
| Failures.MovedMeanwhile | internal/reconcile/membership.go:322-340 | with archive routing on, for every label with a keyword: a legal run in which a user moves a copy while its row is carried out, no user ever changes a keyword, and the copy, appended and recorded by the mirror, keeps the keyword of a label the message has left, with nothing left to do |
| Failures.SkippedForever | internal/reconcile/reconcile.go:263-283 | a legal run in which a message at or below the mark is unrecorded although no body stream was ever asked for it |
| Failures.AdoptFirstSkips | internal/reconcile/reconcile.go:181-189 | a legal run that reaches a state in which adopting the epoch before the reset of the mark would skip a message |
| Guarantees.RunKeeps | internal/reconcile/reconcile.go:145-221 | every state of every run satisfies all invariants of safety, row agreement, placement, keywords and tracking |
| Guarantees.StepInv | internal/reconcile/reconcile.go:145-221 | each of the 23 kinds of step keeps the conjunction of all invariants |
| Safety.CopyStep | internal/reconcile/reconcile.go:297-331 | every step keeps that equal searchable keys mean the same copy, those of the start aside, and that cleared keys have no copy |
| Safety.LiveStep | internal/reconcile/reconcile.go:401-445 | every step keeps the append window, that confirmed appends arrived and that copies lie in buckets only |
| Safety.HistStep | internal/reconcile/reconcile.go:172-210 | every step keeps, for every committed state, that its mark skips nothing, its keys were observed and its queue is ordered |
| Convergence.PlaceStep | internal/reconcile/membership.go:184-236 | every step keeps, guard on or off: a copy whose placement is tracked is in its bucket, or a move of it is queued, or the backfill is due |
| Convergence.TagStep | internal/reconcile/membership.go:153-193 | every step keeps, guard on or off: for each tracked keyword of a copy that is of one label only, the queue's last row about it agrees with membership, and without a row the keyword does, up to additions by a due backfill |
| Convergence.LastAddsSplit | internal/reconcile/membership.go:322-340 | of two queues in a row the later one decides a keyword if it mentions it, else the earlier one |
| Rows.RowStep | internal/reconcile/membership.go:70-108 | every step, and so every interruption of a sync, keeps for every committed state: the rows of a followed folder have uids of its messages with their keys, no two the same, and where the folder never held a key twice each message up to the mark has its row |
| Tracking.TrackStep | internal/reconcile/reconcile.go:401-436 | every step keeps: tracked copies have landed and are the only ones of their keys, guard on or off, and no user has moved in this session a copy whose placement is tracked |
| OpLog.ReplayTwice | internal/reconcile/membership.go:263-293 | applying any prefix of the queue and then the whole queue comes to the same copy as the whole queue once |
| OpLog.ReplayMoves | internal/reconcile/membership.go:296-321 | replay brings a copy to the bucket of its current membership if the queue holds a move of it, else leaves it |
| OpLog.ReplayFlags | internal/reconcile/membership.go:322-340 | replay leaves a keyword as the last row that concerns it says, and untouched without one |
| OpLog.LabelDecides | internal/reconcile/membership.go:322-340 | for a keyword of one label only, the last row of that label is the one that decides |
| OpLog.ReplayedIsApplied | internal/reconcile/membership.go:275-291 | rows that were replayed may be deleted for good, even while the row after them has taken effect in part and failed |
| OpLog.ReplayConverges | internal/reconcile/membership.go:115-193 | in every state that satisfies the invariants and has no backfill due, guard on or off, draining the queue brings each copy whose placement is tracked to its bucket, and gives each copy the tracked keywords of labels of their own exactly as it is a member |
| Reconcile.Run | internal/reconcile/reconcile.go:145-221 | a run in which no command fails, with the routing folders there and room at the destination, succeeds. A successful run leaves the source recorded up to where it was at the start, the watched folders followed, no backfill due and the queue empty; each key the run leaves out is that of a message whose body some fetch of the run asked for and did not get; each searchable key newly recorded had a copy at the start, or all its copies are tracked, guard on or off, in what users have left alone and the server has not refused; a run with nothing to do changes neither store nor destination and returns an all-zero summary |
| Reconcile.RunTwice | internal/reconcile/reconcile.go:145-221 | on unchanged sources, duplicate keys or not, a run right after a successful one leaves everything to the environment: the same store, no append, no move, no keyword, an all-zero summary; where no command fails both runs succeed, the second one if there is still room at the destination |
| Reconcile.CompleteIsQuiet | internal/reconcile/reconcile.go:145-221 | what a successful run leaves on unchanged sources is a state with nothing to do, whatever the folders hold |
| Reconcile.CompleteConverges | internal/reconcile/reconcile.go:215-219 | after a successful run, guard on or off, each copy whose placement is tracked is in its bucket, and has the tracked keyword of each label of its own exactly if it is a member |
| Reconcile.AdoptEpoch | internal/reconcile/reconcile.go:172-189 | a changed UIDVALIDITY resets the mark and is then adopted, with a crash possible in between; an unchanged one writes nothing |
| Reconcile.MirrorMain | internal/reconcile/reconcile.go:159-220 | select, reset, backfill, mirror and propagate in this order; success means the mark has reached the end, the fingerprint is current and the queue is empty |
| Reconcile.Pass | internal/reconcile/reconcile.go:148-221 | the pass within one session: without a failing command it succeeds; success means Complete, with each key left out that of a message whose body a fetch of this pass asked for and did not get, and each searchable key newly recorded one that had a copy before or is tracked, guard on or off; nothing to do means that only the environment moved |
| Reconcile.End | internal/reconcile/reconcile.go:145-148 | after the end of a session, by a crash or not, only the stores and the open appends remain |
| Reconcile.MaybeSeed | internal/mirror/mirror.go:207-230 | seeding runs for `always`, and for `empty` exactly if no key is recorded; then, where users keep still, every landed copy has its key recorded |
| Reconcile.Restore | internal/reconcile/reconcile.go:145-148 | any state ever committed, or an empty one, may replace the stored one between sessions |
| Reconcile.Reopen | internal/reconcile/reconcile.go:172-176 | between sessions a mailbox may go on or start a new epoch under a UIDVALIDITY that was never stored |
| World.World.constructor | internal/reconcile/reconcile.go:137-143 | a mirror may start over an empty or migrated store, any source mailboxes and any copies in the buckets |
| Scan.ScanMain | internal/reconcile/reconcile.go:198-213 | on success, which is certain without a failing command, the mark has reached UIDNEXT - 1 and every candidate counted was copied or skipped unless some body never came; each key left out is that of a message whose body a fetch of this scan asked for and did not get; each searchable key newly recorded had a copy before or is tracked, guard on or off; if the mark is there already nothing happens |
| Scan.ScanWindow | internal/reconcile/reconcile.go:200-210 | one window: its mark is committed only when each message of it is recorded, or has a key for whose body the fetch of this window asked without getting it |
| Scan.MirrorWindow | internal/reconcile/reconcile.go:257-295 | on success, exactly: a key of the window is recorded if and only if it was before, or the guard found it, or the body of its first message in the window was delivered; what the guard found had a copy when the window began, other searchable keys had none after the search; only undelivered keys become excused, and candidates = copied + skipped unless one is |
| Scan.Classify | internal/reconcile/reconcile.go:262-283 | the candidates are the first messages of their keys in the window, distinct, unrecorded and routed; together with the recorded keys they account for every message of the window |
| Scan.Guard | internal/reconcile/reconcile.go:297-331 | a candidate that is dropped had a copy when the guard began and is recorded and counted as skipped; a searchable one that is kept has none now and is cleared for appending |
| Scan.SearchBuckets | internal/reconcile/reconcile.go:310-319 | every copy with a queried id is found, whatever bucket it is in and although copies may vanish or be retagged meanwhile, and what is found had a copy when the search began |
| Scan.Compact | internal/reconcile/reconcile.go:320-330 | compaction in place keeps exactly the candidates not found, in order, and collects records of the others |
| Scan.KeptOrHit | internal/reconcile/reconcile.go:320-330 | each candidate is kept or recorded, never both, and none is lost |
| Scan.KeptDistinct | internal/reconcile/reconcile.go:320-330 | what is kept still holds no key twice |
| Scan.MarkReady | internal/reconcile/reconcile.go:200-210 | a window that is done may be marked, although messages came and went meanwhile |
| Scan.SpansOf | internal/reconcile/reconcile.go:225-244 | the windows follow one another from first to UIDNEXT without gap or overlap |
| Scan.SeedFromDest | internal/reconcile/reconcile.go:514-528 | where users keep still, after seeding every landed copy's key is recorded; only observed keys ever are |
| Scan.SeedFolder | internal/reconcile/reconcile.go:530-549 | the same for one bucket |
| Mirror.CopyPipeline | internal/reconcile/reconcile.go:358-496 | on a nil return a candidate is recorded if and only if its body was delivered, exactly the delivered ones are counted, the others are excused, each recorded one is tracked, guard on or off, unless it is not searchable or had a copy before, and no append is open; after an error only undelivered candidates are excused |
| Mirror.Consume | internal/reconcile/reconcile.go:378-470 | the consumer: the recorded keys are a prefix of those delivered, all of them unless it failed, and at any error the store holds these, what it held before, and nothing else; each of them is tracked, guard on or off, unless it is not searchable or had a copy before |
| Mirror.SettleOldest | internal/reconcile/reconcile.go:399-435 | confirms the oldest append and flushes a full buffer, keeping ring and records as the exact account of open appends |
| Mirror.AwaitOldest | internal/reconcile/reconcile.go:401-421 | a second append is issued only after a refusal of one with keywords, once and without them; an unknown outcome never leads to one |
| Mirror.FlushRecords | internal/reconcile/reconcile.go:389-398 | the records buffer is stored as a whole and emptied, or kept with the error |
| Mirror.Fits | internal/reconcile/reconcile.go:347-371 | open appends are no more than ring and records hold, below the crash window |
| Mirror.KeywordsFor | internal/reconcile/reconcile.go:441-452 | the keywords of a copy are those of exactly its label memberships |
| Mirror.LabelsFor | internal/reconcile/membership.go:195-203 | the labels of a message are its watched-folder memberships minus the routing folders |
| World.World.Await | internal/reconcile/reconcile.go:405-421 | the three answers to an append and what each tells about the copy |
| World.World.BeginAppend | internal/imapx/client.go:429-445 | an append is issued, or it failed and the server may have received it all the same |
| World.World.FetchBodies | internal/imapx/client.go:360-400 | one body fetch for unrecorded, guarded candidates: complete, it delivers exactly those foretold and excuses the others; broken off, it delivers some of them and excuses none |
| World.World.SearchMessageIDsIn | internal/imapx/client.go:280-319 | an id is reported if and only if the bucket holds a copy with exactly that Message-ID |
| World.ListRange | internal/imapx/client.go:232-236 | the metadata of a UID range is complete, exact and ascending |
| World.EnvDrifts | internal/reconcile/reconcile.go:172-176 | what users and servers may do to mailboxes and copies is a step of the protocol and changes nothing of the mirror's own |
| Sync.SyncMembership | internal/reconcile/membership.go:21-56 | on success every watched folder is followed up to where it was; folders with nothing to do, duplicate keys or not, cause no write and no queued operation |
| Sync.SyncWatchedFolder | internal/reconcile/membership.go:58-109 | on success, if the folder is still as it was, each row is one of its messages, with no key held twice the rows are exactly its messages, and an incremental sync leaves exactly the members with their stored message there and the keys above the mark; a rebuild gives exact membership and the exact gated difference |
| Sync.SyncIncrementally | internal/reconcile/membership.go:74-108 | removals by uid, then windows above the mark: on an unchanged folder the members are exactly those whose stored message is there and the keys above the mark, from any state that earlier interrupted syncs may have left |
| Sync.RebuildWatchedFolder | internal/reconcile/membership.go:111-149 | from any stored rows, placeholders and duplicates included, the members become the folder's key set, and the keys queued are exactly the gated symmetric difference, none on a first scan |
| Sync.IncrementalStore | internal/reconcile/membership.go:98-106 | one window: rows first, then the mark; the rows are sound again and, without duplicate keys, cover the folder |
| Sync.RecordAdditions | internal/reconcile/membership.go:151-164 | the batch stored is the one of the gated additions, as a whole or not at all |
| Sync.RecordRemovals | internal/reconcile/membership.go:166-180 | the batch stored is the one of the gated removals, as a whole or not at all |
| Sync.GoneKeys | internal/reconcile/membership.go:83-92 | reports only members whose stored uid is gone, and all of them if no two rows share a uid |
| Sync.MemberUidKeys | internal/state/store.go:283-298 | the stored members by uid, placeholders left out |
| Sync.WatchList | internal/reconcile/membership.go:23-48 | exactly the label folders and the routing folders are watched |
| Sync.WindowAgrees | internal/reconcile/membership.go:98-106 | a recorded window keeps the rows sound and, without duplicate keys, extends what they cover to its end |
| Sync.ProgressWindow | internal/reconcile/membership.go:122-135 | a window of a rebuild extends the keys seen, the agreement of their rows and the exactness of what was queued |
| Sync.FinishRows | internal/reconcile/membership.go:139-147 | removing what was not seen completes the queued difference exactly |
| Sync.BatchRows | internal/reconcile/membership.go:182-193 | a batch queues exactly the keys the gate lets through |
| Sync.AdditionsOk | internal/reconcile/membership.go:151-164 | the additions of a window above the mark are allowed changes |
| Sync.RemovalsOk | internal/reconcile/membership.go:166-180 | keys whose stored uids are gone are allowed removals |
| Sync.NeverDifferent | internal/reconcile/membership.go:58-62 | a mailbox that ends as it began was never different in between |
| Sync.MatchIsRescan | internal/reconcile/membership.go:111-149 | rows that match leave the same members as a rescan from scratch |
| Sync.SyncExactIff | internal/reconcile/membership.go:74-108 | over rows that held exactly the keys of a folder, an incremental sync leaves exactly its keys later on if and only if each key of a message scanned earlier has its stored message still there, or a message above the mark |
| Sync.DuplicateForgotten | internal/reconcile/membership.go:83-95 | a concrete folder with a key twice: when the message remembered leaves, the sync forgets the member although the other one is there; when the other one leaves, it does not |
| Queue.Propagate | internal/reconcile/membership.go:263-293 | on success the queue is empty and every landed copy, the only one of its key, that no user has moved is what the whole queue makes of it, apart from keywords a user has changed; after an error a suffix of the queue remains; an empty queue causes nothing; what is tracked stays so but for what users do |
| Queue.ProcessPage | internal/reconcile/membership.go:268-291 | a page's rows are applied in order; exactly the applied prefix is deleted, also after an error, or nothing if the deletion fails; of the next row at most part has happened |
| Queue.DeleteDone | internal/reconcile/membership.go:275-291 | rows are deleted from the front only, once their operations show |
| Queue.ApplyPending | internal/reconcile/membership.go:295-344 | a row has its effect on the copy of its key, where there is one of it and no user has moved it, apart from keywords a user has changed; copies of other keys, and what the row does not concern, stay as they are, even on an error |
| Queue.ApplyMove | internal/reconcile/membership.go:297-321 | the copy ends in the bucket recomputed from current membership, from whichever bucket held it |
| Queue.ApplyKeyword | internal/reconcile/membership.go:322-340 | the keyword is set or cleared on the copy in whichever bucket holds it |
| Queue.MoveMessageID | internal/imapx/client.go:473-485 | moves the copy found, or reports that the bucket does not hold it |
| Queue.StoreKeywordByMessageID | internal/imapx/client.go:503-518 | sets or clears one keyword of the copy found, or reports that the bucket does not hold it |
| Backfill.MaybeBackfill | internal/reconcile/membership.go:362-384 | a completed backfill leaves every copy that no user has moved sorted, apart from keywords a user has changed, and only then stores the fingerprint; an interrupted one does not; a current fingerprint causes nothing |
| Backfill.BackfillDestFolder | internal/reconcile/membership.go:388-455 | every copy of the bucket ends in its bucket with all its label keywords, whatever the order of the groups; copies of other buckets rest; on an error each copy is somewhere between |
| Backfill.SortedAgain | internal/reconcile/membership.go:362-384 | from wherever it was interrupted a backfill reaches the same end, and its end is a fixed point |
| Backfill.PlanSorts | internal/reconcile/membership.go:402-453 | keywords first, then moves: a plan that covers the bucket, carried out, sorts it |
| Backfill.PlanCopy | internal/reconcile/membership.go:404-425 | a copy is planned under its missing keywords and its desired bucket, and nothing planned is forgotten |
| Backfill.StoreKeywordsUids | internal/imapx/client.go:520-527 | keywords are added to the copies that are still in the selected bucket, nothing else changes |
| Backfill.MoveUids | internal/imapx/client.go:487-501 | copies still in the bucket are moved to where they belong, nothing else changes |
| Backfill.FilledMore | internal/reconcile/membership.go:375-382 | sorting bucket after bucket: a bucket sorted earlier stays sorted |
| Placement.DestIsBucket | internal/reconcile/membership.go:238-249 | routing only ever chooses a bucket that the guard searches |
| Pipeline.CallResult | internal/reconcile/reconcile.go:354-496 | for every interleaving: the records are a prefix of what was sent, at most 53 (or 1) appends are open, and a nil return means that everything is recorded except empty bodies |
| Pipeline.CallKeeps | internal/reconcile/reconcile.go:373-496 | every interleaving keeps FIFO order and the bounds, is no longer than the rank of its start, and ends with both sides stopped |
| Pipeline.NoDeadlock | internal/reconcile/reconcile.go:373-487 | until both goroutines have stopped one of them can move, also after failures, cancellation and with a full channel |
| Pipeline.RankDrops | internal/reconcile/reconcile.go:373-487 | every move makes progress, so a call always ends |
| Pipeline.PipeStep | internal/reconcile/reconcile.go:378-485 | every move of either goroutine keeps order, sizes and control |
| Pipeline.CallConserves | internal/reconcile/reconcile.go:472-486 | every body requested is sent, in hand, skipped as empty or still to come |
| Windows.PassesIff | internal/reconcile/reconcile.go:225-244 | in 32-bit arithmetic the loop runs exactly the windows meant and ends, if and only if first plus a batch for each window, first + batch * ceil((UIDNEXT - first) / batch), is below 2^32 |
| Windows.RoomIsEnough | internal/reconcile/reconcile.go:229-230 | it does not if UIDNEXT plus one batch is at most 2^32 |
| Windows.SpansCover | internal/reconcile/reconcile.go:223-244 | the windows are ascending, disjoint, at most a batch wide and cover exactly first to UIDNEXT - 1 |
| Windows.ScanWindows | internal/reconcile/reconcile.go:225-244 | the wrapping loop computes these windows |
| Search.Client.SearchMessageIDsIn | internal/imapx/client.go:280-319 | on success an id is found if and only if a message with exactly this Message-ID is there, despite substring search; chunks only shrink, and a server that refuses only searches above its limit is always satisfied |
| Search.OrTreeLeaves | internal/imapx/client.go:327-340 | the OR tree asks for exactly the given ids, in order |
| Search.OrTreeDepth | internal/imapx/client.go:327-340 | its nesting grows with the logarithm of their number |
| Search.DefaultHalvings | internal/imapx/client.go:277-278 | from the initial chunk size a session halves at most six times |
| Search.ChunkFound | internal/imapx/client.go:304-316 | a substring search never misses an exact header |
| Key.PreimageRoundTrip | internal/reconcile/key.go:23-27 | time, From, Subject and size can be parsed back from the hashed text, whatever bytes they hold |
| Key.SynthesizedKeysIff | internal/reconcile/key.go:19-29 | under an injective digest two messages without Message-ID share a key if and only if all four fields agree |
| Key.RealKeyIff | internal/reconcile/key.go:31-35 | exactly when a key counts as a real Message-ID |
| Key.RealKeysApart | internal/reconcile/key.go:19-35 | a synthesized key is never that of a message with a real Message-ID |
| Key.DedupKeyNotEmpty | internal/reconcile/key.go:19-29 | a key is never empty |
| Labels.KeywordFor | internal/reconcile/labels.go:50-69 | the loop computes the slug |
| Labels.SlugIsAtom | internal/reconcile/labels.go:43-50 | with a configured replacement a slug consists of lower-case letters, digits, '-' and '_' |
| Labels.SlugEmptyIff | internal/reconcile/labels.go:49-50 | a slug is empty if and only if each character is dropped or equals the replacement |
| Labels.SlugFixedIff | internal/reconcile/labels.go:43-69 | the labels that are their own slug |
| Labels.SlugIdempotentIff | internal/reconcile/labels.go:43-69 | slugging a label twice is slugging it once exactly if its slug has no replacement at an edge |
| Labels.SlugIdempotentAlwaysIff | internal/reconcile/labels.go:43-69 | this holds for all labels if and only if the replacement is not a lower-case letter |
| Labels.CollectKeywords | internal/reconcile/labels.go:81-94 | the loop computes the keywords of the labels |
| Labels.LabelKeywordsAre | internal/reconcile/labels.go:81-94 | these are exactly the non-empty keywords of the labels, each once |
| State.Store.RecordKeys | internal/state/store.go:173-180 | a batch of keys is recorded as a whole or not at all |
| State.Store.MemberChangeBatch | internal/state/store.go:221-262 | membership changes and their operations are stored together or not at all |
| State.Store.DeletePendingBatch | internal/state/store.go:334-337 | rows are deleted together or not at all |
| State.RecordedAdds | internal/state/store.go:173-180 | recording adds exactly the batch's keys and never replaces a record |
| State.RecordedTwice | internal/state/store.go:173-180 | recording again changes nothing |
| State.ChangesFrame | internal/state/store.go:221-262 | a batch changes only the named keys of its folder and appends to the queue |
| State.AddsEffect | internal/state/store.go:243-250 | each added key is a member under the uid of its last change in the batch |
| State.QueuedRowsStem | internal/state/store.go:254-258 | each queued row stems from a change that asked for it, under increasing ids |
| State.QueuedRowsCover | internal/state/store.go:254-258 | each change that asks for an operation gets its row |
| State.DeletePrefix | internal/state/store.go:314-337 | deleting the ids of the oldest rows drops exactly that prefix of the queue |
| Migrate.File.Migrate | internal/state/migrate.go:73-89 | a newer file is refused unchanged; otherwise the file reaches the current version, and a failed attempt leaves one from which the same tables are reached |
| Migrate.LatestIs | internal/state/migrate.go:20-25 | keys, marks and metadata survive, exactly the labels become members under uid 0, and no scan state is left |
| Migrate.MigratedIsFresh | internal/state/migrate.go:20-25 | a migrated file is a store from which the proved runs may start; it follows no folder, so each is rebuilt first |

## Left out

- The IMAP wire protocol, TLS, login, IDLE, LOGOUT and header parsing: only select, search, fetch, append, move and store remain, as atomic effects that may fail before or after they happen.
- MOVE on servers without it: the fallback by COPY, STORE and EXPUNGE can be cut off half-way and leave two copies; the model moves at once.
- Queue.MoveMessageID: the source searches by substring and does not check the headers it finds; the model assumes that no Message-ID of a copy occurs within that of another. The same holds for Queue.StoreKeywordByMessageID.
- Scan.SearchBuckets: no copy moves between buckets during one guard search, because the program relies on being the single writer there; deletions, retags and source arrivals go on.
- UIDs of the destination: a copy keeps its identity when it is moved, instead of getting a new UID, and copies that enter a bucket after it was selected may or may not be shown.
- Keyword flags are compared in lower case; the Seen flag, which appends may carry over, is not modelled.
- SHA-256 is an injective function given as a parameter; whitespace trimming is that of ASCII.
- SQLite itself: tables are maps and sequences, a transaction is one assignment, and timestamps are left out.
- The other columns of the summary: the split of moves by target, and the progress reports.
- Order of arrival: appends that were refused and retried arrive later than appends issued after them; only the order of issuing and recording is FIFO.
- Mirror.CopyPipeline: the bodies are consumed after the stream, item by item and in whatever order they came; all interleavings of the two goroutines are in Pipeline, over the same transitions of the consumer.
- Configuration changes in the middle of a history, apart from a fingerprint that is out of date: the options are fixed for a run.
- Labels whose folder is deleted or excluded later: their rows stay, as in the source, and nothing is claimed about them.
- Promises.Converged: claims nothing about copies whose keys were recorded by the guard or by seeding, or had a second copy when they were recorded; nor, of one copy, about its placement or a keyword after a step of Promises.PlacementEndsIff or Promises.KeywordEndsIff. Failures.GuardRecordsIff, Failures.TwinsMovedIff, Failures.TwinsTaggedIff, Failures.SilentReAddIff and Failures.SilentRouteIff say exactly what becomes of them. Of keywords, it speaks of those of one label only.
- Messages without a Message-ID cannot be searched for: as docs/adr/0011-membership-propagation-archive-and-labels.md says, their copies get a bucket and keywords when they are appended, and no operation later; nothing is claimed about them after that, guard on or off.
- Sync.SyncWatchedFolder: of a folder with a key twice only the rebuild leaves all keys; the incremental sync is followed as it is, with Sync.SyncExactIff.
- Watching loops, back-off, heartbeats, configuration parsing, the process lock and the command line.
