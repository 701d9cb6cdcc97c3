/** The promises of the mirror, as statements about every state of every run. */
module Guarantees {
  import opened Placement
  import opened Protocol
  import opened Safety
  import opened Convergence
  import opened Rows
  import opened Tracking

  ghost predicate RunInv(o: Opts, s: Sys) {
    && SafeInv(o, s) && RowInv(s) && LabelInv(o, s) && KnownKeys(s) && IssuedInv(o, s)
    && TrackInv(s) && EditInv(s)
    && SoleInv(o, s) && PlaceInv(o, s) && (o.labelPropagate ==> TagInv(o, s))
  }

  lemma InitInv(o: Opts, s: Sys)
    requires Init(o, s)
    ensures RunInv(o, s)
  {
    InitSafe(o, s);
    InitHist(o, s);
  }

  lemma InitSafe(o: Opts, s: Sys)
    requires Init(o, s)
    ensures MailsInv(o, s) && LiveInv(o, s) && CopyInv(o, s)
  {
  }

  /** What concerns the store holds: it is fresh. */
  lemma InitHist(o: Opts, s: Sys)
    requires Init(o, s)
    ensures HistInv(s) && RowInv(s) && LabelInv(o, s)
  {
  }

  lemma StepInv(o: Opts, s: Sys, st: Step)
    requires RunInv(o, s) && Enabled(o, s, st)
    ensures RunInv(o, Do(o, s, st))
  {
    SafeStep(o, s, st);
    RowStep(o, s, st);
    LabelStep(o, s, st);
    KnownKeysStep(o, s, st);
    IssuedStep(o, s, st);
    TrackStep(o, s, st);
    EditStep(o, s, st);
    SoleStep(o, s, st);
    PlaceStep(o, s, st);
    if o.labelPropagate {
      TagStep(o, s, st);
    }
  }

  /** The first n + 1 states of a run. */
  ghost predicate KeptUpTo(o: Opts, r: Run, n: nat) {
    forall m :: 0 <= m <= n && m < |r.states| ==> RunInv(o, r.states[m])
  }

  lemma {:induction false} RunKept(o: Opts, r: Run, n: nat)
    requires Legal(o, r) && n < |r.states|
    ensures KeptUpTo(o, r, n)
  {
    if n == 0 {
      StartsWell(o, r);
    } else {
      RunKept(o, r, n - 1);
      GoesWell(o, r, n - 1);
    }
  }

  lemma StartsWell(o: Opts, r: Run)
    requires Legal(o, r)
    ensures KeptUpTo(o, r, 0)
  {
    FirstState(o, r);
    InitInv(o, r.states[0]);
  }

  lemma GoesWell(o: Opts, r: Run, n: nat)
    requires Legal(o, r) && n + 1 < |r.states| && KeptUpTo(o, r, n)
    ensures KeptUpTo(o, r, n + 1)
  {
    LegalIs(o, r);
    StepInv(o, r.states[n], r.steps[n]);
  }

  /** Every state of every run, so every point at which it may be cut off, keeps them all. */
  lemma RunKeeps(o: Opts, r: Run, n: nat)
    requires Legal(o, r) && n < |r.states|
    ensures RunInv(o, r.states[n])
  {
    RunKept(o, r, n);
  }
}
