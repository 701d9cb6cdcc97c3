/** What is known of the copies whose placement and keywords are tracked: they have landed, are
    the only ones of their keys, and what a user did to them in this session is excused. */
module Tracking {
  import opened State
  import opened Placement
  import opened Protocol
  import opened Safety
  import opened Convergence

  ghost predicate Followed(s: Sys, i: nat) { i in s.placed || i in s.tagged }

  ghost predicate TrackInv(s: Sys) {
    && s.placed !! s.refiled
    && (forall i :: i in s.apps && Followed(s, i) ==> s.apps[i].landed && Alone(s, s.apps[i].key))
  }

  /** What a user has changed in this session is excused; only copies that have landed have
      excuses, and open ones no others, unless a user has moved them. */
  ghost predicate EditInv(s: Sys) {
    TrackedEdits(s) && s.refiled <= s.arrived && forall i :: EditOk(s, i)
  }

  ghost predicate EditOk(s: Sys, i: nat) {
    && (i !in s.arrived ==> Of(s.retagged, i) == {} == Of(s.loose, i))
    && (i in s.live && i !in s.refiled ==> Of(s.loose, i) <= Of(s.retagged, i))
  }

  // ------------------------------------------------------------- TrackInv

  lemma TrackStep(o: Opts, s: Sys, st: Step)
    requires TrackInv(s) && LiveInv(o, s) && KnownKeys(s) && Enabled(o, s, st)
    ensures TrackInv(Do(o, s, st))
  {
    if st.Record? {
      TrackRecord(o, s, st);
    } else if st.Members? {
      TrackMembers(o, s, st);
    } else if st.Env? {
      TrackEnv(o, s, st);
    } else if st.Issue? || st.Reject? {
      TrackAppend(o, s, st);
    } else if TouchesCopies(st) {
      ChangedFrame(o, s, st);
      TrackFewer(s, Do(o, s, st));
    } else {
      TrackIdle(o, s, st);
      TrackFewer(s, Do(o, s, st));
    }
  }

  lemma TrackFewer(s: Sys, s': Sys)
    requires TrackInv(s) && s'.apps.Keys == s.apps.Keys
    requires forall i :: i in s.apps ==> s'.apps[i].key == s.apps[i].key && s'.apps[i].landed == s.apps[i].landed
    requires s'.placed <= s.placed && s'.tagged <= s.tagged && s'.refiled <= s.refiled
    ensures TrackInv(s')
  {
  }

  lemma TrackIdle(o: Opts, s: Sys, st: Step)
    requires !TouchesCopies(st) && !st.Record? && !st.Members?
    ensures var s' := Do(o, s, st);
            && s'.apps == s.apps && s'.arrived == s.arrived && s'.live.Keys <= s.live.Keys
            && s'.placed <= s.placed && s'.tagged <= s.tagged && s'.refiled <= s.refiled
  {
  }

  lemma TrackEnv(o: Opts, s: Sys, st: Step)
    requires TrackInv(s) && Enabled(o, s, st) && st.Env?
    ensures TrackInv(Do(o, s, st))
  {
    EnvFrame(o, s, st);
  }

  lemma TrackAppend(o: Opts, s: Sys, st: Step)
    requires TrackInv(s) && KnownKeys(s) && LiveInv(o, s) && Enabled(o, s, st) && (st.Issue? || st.Reject?)
    ensures TrackInv(Do(o, s, st))
  {
  }

  lemma TrackRecord(o: Opts, s: Sys, st: Step)
    requires TrackInv(s) && LiveInv(o, s) && Enabled(o, s, st) && st.Record?
    ensures TrackInv(Do(o, s, st))
  {
    var s' := Do(o, s, st);
    RecordFrame(o, s, st);
    forall i | i in s'.apps && Followed(s', i) ensures s'.apps[i].landed && Alone(s', s'.apps[i].key) {
      if i in Tracked(s, st.ids) { assert i in st.ids && i in s.arrived; }
      assert Alone(s, s.apps[i].key);
    }
  }

  lemma TrackMembers(o: Opts, s: Sys, st: Step)
    requires TrackInv(s) && Enabled(o, s, st) && st.Members?
    ensures TrackInv(Do(o, s, st))
  {
    MembersFrame(o, s, st);
  }

  lemma MembersFrame(o: Opts, s: Sys, st: Step)
    requires st.Members?
    ensures var s' := Do(o, s, st);
            && s'.apps == s.apps && s'.arrived == s.arrived && s'.refiled == s.refiled && s'.retagged == s.retagged
            && s'.placed == PlacedAfter(o, s, st.folder, st.changes) && s'.tagged == s.tagged
            && s'.loose == LooseAfter(o, s, st.folder, st.changes) && s'.live == s.live
  {
  }

  // -------------------------------------------------------------- EditInv

  lemma EditStep(o: Opts, s: Sys, st: Step)
    requires EditInv(s) && LiveInv(o, s) && Enabled(o, s, st)
    ensures EditInv(Do(o, s, st))
  {
    if st.Record? {
      EditRecord(o, s, st);
    } else if st.Members? {
      EditMembers(o, s, st);
    } else if st.Env? {
      EditEnv(o, s, st);
    } else if st.Issue? || st.Reject? {
      EditAppend(o, s, st);
    } else if st.DeleteRows? || st.AdoptFingerprint? {
      EditMissed(o, s, st);
    } else {
      EditIdle(o, s, st);
    }
  }

  lemma EditRecord(o: Opts, s: Sys, st: Step)
    requires EditInv(s) && LiveInv(o, s) && Enabled(o, s, st) && st.Record?
    ensures EditInv(Do(o, s, st))
  {
    var s' := Do(o, s, st);
    RecordFrame(o, s, st);
    forall i ensures EditOk(s', i) && (i in s'.apps ==> Of(s'.retagged, i) <= Of(s'.loose, i)) {
      assert EditOk(s, i);
      LooseWithAt(o, s, Tracked(s, st.ids), i);
      if i in Tracked(s, st.ids) { assert i in st.ids && i in s.arrived; }
    }
  }

  lemma EditMembers(o: Opts, s: Sys, st: Step)
    requires EditInv(s) && LiveInv(o, s) && Enabled(o, s, st) && st.Members?
    ensures EditInv(Do(o, s, st))
  {
    var s' := Do(o, s, st);
    MembersFrame(o, s, st);
    forall i ensures EditOk(s', i) {
      assert EditOk(s, i);
    }
    forall i | i in s'.apps ensures Of(s'.retagged, i) <= Of(s'.loose, i) {
      assert Of(s.retagged, i) <= Of(s.loose, i);
    }
  }

  lemma EditEnv(o: Opts, s: Sys, st: Step)
    requires EditInv(s) && LiveInv(o, s) && Enabled(o, s, st) && st.Env?
    ensures EditInv(Do(o, s, st))
  {
    var s' := Do(o, s, st);
    EnvFrame(o, s, st);
    forall i ensures EditOk(s', i) && (i in s'.apps ==> Of(s'.retagged, i) <= Of(s'.loose, i)) {
      assert EditOk(s, i);
      EditOne(o, s, s', i);
    }
  }

  lemma EnvFrame(o: Opts, s: Sys, st: Step)
    requires st.Env?
    ensures var s' := Do(o, s, st);
            && s'.apps == st.apps && s'.live == s.live && s'.arrived == s.arrived + LandedIds(st.apps)
            && s'.refiled == s.refiled + Moved(s.apps, st.apps)
            && s'.placed == s.placed - Moved(s.apps, st.apps) && s'.tagged == s.tagged
            && s'.retagged == WithEdits(s.retagged, s.apps, st.apps)
            && s'.loose == WithEdits(s.loose, s.apps, st.apps)
  {
  }

  lemma EditOne(o: Opts, s: Sys, s': Sys, i: nat)
    requires EditInv(s) && LiveInv(o, s) && AppsLater(o, s.apps, s.live.Keys, s'.apps)
    requires s'.live == s.live && s.arrived <= s'.arrived && s.refiled <= s'.refiled
    requires s'.retagged == WithEdits(s.retagged, s.apps, s'.apps) && s'.loose == WithEdits(s.loose, s.apps, s'.apps)
    ensures EditOk(s', i) && (i in s'.apps ==> Of(s'.retagged, i) <= Of(s'.loose, i))
  {
    assert EditOk(s, i);
    if i in s'.apps { assert !Edited(s.apps[i], s'.apps[i]) || i in s.arrived; }
  }

  lemma EditAppend(o: Opts, s: Sys, st: Step)
    requires EditInv(s) && LiveInv(o, s) && Enabled(o, s, st) && (st.Issue? || st.Reject?)
    ensures EditInv(Do(o, s, st))
  {
    var s' := Do(o, s, st);
    forall i ensures EditOk(s', i) && (i in s'.apps ==> Of(s'.retagged, i) <= Of(s'.loose, i)) {
      assert EditOk(s, i);
    }
  }

  lemma EditMissed(o: Opts, s: Sys, st: Step)
    requires EditInv(s) && LiveInv(o, s) && Enabled(o, s, st) && (st.DeleteRows? || st.AdoptFingerprint?)
    ensures EditInv(Do(o, s, st))
  {
    var s' := Do(o, s, st);
    MissedFrame(o, s, st);
    forall i ensures EditOk(s', i) && (i in s'.apps ==> Of(s'.retagged, i) <= Of(s'.loose, i)) {
      assert EditOk(s, i);
    }
  }

  /** Excuses only grow, and only for copies that users have moved. */
  lemma MissedFrame(o: Opts, s: Sys, st: Step)
    requires st.DeleteRows? || st.AdoptFingerprint?
    ensures var s' := Do(o, s, st);
            && s'.apps == s.apps && s'.arrived == s.arrived && s'.live == s.live
            && s'.refiled == s.refiled && s'.retagged == s.retagged
            && (forall i :: i in s.apps ==> Of(s.loose, i) <= Of(s'.loose, i))
            && (forall i :: i !in s.refiled || i !in s.apps ==> Of(s'.loose, i) <= Of(s.loose, i))
  {
  }

  lemma EditIdle(o: Opts, s: Sys, st: Step)
    requires EditInv(s) && Enabled(o, s, st)
    requires !st.Record? && !st.Members? && !st.Env? && !st.Issue? && !st.Reject?
    requires !st.DeleteRows? && !st.AdoptFingerprint?
    ensures EditInv(Do(o, s, st))
  {
    var s' := Do(o, s, st);
    forall i ensures EditOk(s', i) {
      assert EditOk(s, i);
    }
  }
}
