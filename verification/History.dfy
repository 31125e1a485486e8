/** What a run has recorded stays recorded: committed cleanups, relay-wide resets and first revisions. */
module History {
  import opened RelayTypes
  import opened Manifest
  import opened ControlPlane
  import D = RootDeletion
  import C = PlatformConfig

  /** The step records nothing. */
  ghost predicate Silent(s: State, s': State) {
    s' == s'.(cleaned := s.cleaned, resets := s.resets, revisions := s.revisions)
  }

  /** Histories are only extended. */
  ghost predicate Grows(s: State, s': State) {
    && s.cleaned <= s'.cleaned && s.resets <= s'.resets
    && forall j | j in s.revisions :: j in s'.revisions && s'.revisions[j] == s.revisions[j]
  }

  lemma SilentGrows(s: State, s': State)
    requires Silent(s, s')
    ensures Grows(s, s')
  {
  }

  lemma GrowsFurther(s: State, s': State, s'': State)
    requires Grows(s, s') && Grows(s', s'')
    ensures Grows(s, s'')
  {
  }

  // ---- leases, start and upload ----------------------------------------------------------------------

  lemma LeaseStepIsSilent(s: State, a: LeaseAction)
    ensures Silent(s, DoLease(s, a))
  {
  }

  lemma InsertedIsSilent(s: State, t: Token, id: JobId, files: Snapshot)
    requires t in s.creates
    ensures Silent(s, Inserted(s, t, id, files))
  {
  }

  lemma InsertJobIsSilent(s: State, t: Token, id: JobId, manifest: Snapshot, unreadable: set<Path>, limited: bool)
    requires Acting(s, t) && t in s.creates
    ensures Silent(s, InsertJob(s, t, id, manifest, unreadable, limited))
  {
    InsertedIsSilent(s, t, id, Graft(Stored(s.snapshots, s.creates[t].root), manifest, unreadable));
    assert Silent(s, s.(creates := s.creates - {t}));
  }

  lemma UnbegunIsSilent(s: State, j: JobId, creates: map<Token, CreateOp>)
    requires j in s.jobs
    ensures Silent(s, Unbegun(s, j).(creates := creates)) && Silent(s, Stripped(s, j).(creates := creates))
  {
  }

  lemma FailBegunIsSilent(s: State, t: Token, recorded: bool)
    requires t in s.creates && s.creates[t].stage.Aborted?
    ensures Silent(s, FailBegun(s, t, recorded))
  {
    if HitBy(s.jobs, s.creates[t]) { UnbegunIsSilent(s, s.creates[t].stage.job, s.creates - {t}); }
    assert Silent(s, s.(creates := s.creates - {t}));
  }

  lemma UploadStepIsSilent(s: State, a: UploadAction)
    ensures Silent(s, DoUpload(s, a))
  {
    if UploadEnabled(s, a) {
      match a
      case InsertJobA(t, id, manifest, unreadable, limited) => InsertJobIsSilent(s, t, id, manifest, unreadable, limited);
      case FailBegunA(t, recorded) => FailBegunIsSilent(s, t, recorded);
      case _ =>
    }
  }

  // ---- completion and reconciliation ---------------------------------------------------------------------

  lemma RecordRevisionGrows(s: State, t: Token, stored: bool)
    requires Acting(s, t) && t in s.publishers && s.publishers[t].stage.Answered?
    ensures Grows(s, RecordRevision(s, t, stored))
  {
  }

  lemma CommitSnapshotGrows(s: State, t: Token)
    requires Acting(s, t) && t in s.publishers && s.publishers[t].stage.Confirmed?
    ensures Grows(s, CommitSnapshot(s, t))
  {
  }

  lemma OtherPublishStepIsSilent(s: State, a: PublishAction)
    requires !a.RecordRevisionA? && !a.CommitSnapshotA?
    ensures Silent(s, DoPublish(s, a))
  {
  }

  lemma PublishStepGrows(s: State, a: PublishAction)
    ensures Grows(s, DoPublish(s, a))
  {
    match a
    case RecordRevisionA(t, stored) => if PublishEnabled(s, a) { RecordRevisionGrows(s, t, stored); }
    case CommitSnapshotA(t) => if PublishEnabled(s, a) { CommitSnapshotGrows(s, t); }
    case _ => OtherPublishStepIsSilent(s, a);
  }

  // ---- failure, heartbeat, sweep, dismissal ------------------------------------------------------------------

  lemma EndingStepIsSilent(s: State, a: EndingAction)
    ensures Silent(s, DoEnding(s, a))
  {
  }

  // ---- deletion and configuration ------------------------------------------------------------------------------

  lemma CleanupGrows(s: State, t: Token)
    requires Acting(s, t) && t in s.deletes && s.deletes[t].stage.ReceiptRead? && D.Current(s.deletions, s.deletes[t].claim, s.now)
    ensures Grows(s, FinishDeletion(s, t))
  {
  }

  lemma StaleCleanupIsSilent(s: State, t: Token)
    requires Acting(s, t) && t in s.deletes && s.deletes[t].stage.ReceiptRead? && !D.Current(s.deletions, s.deletes[t].claim, s.now)
    ensures Silent(s, FinishDeletion(s, t))
  {
  }

  lemma OtherDeletionStepIsSilent(s: State, a: DeletionAction)
    requires !a.FinishDeletionA?
    ensures Silent(s, DoDeletion(s, a))
  {
  }

  lemma DeletionStepGrows(s: State, a: DeletionAction)
    ensures Grows(s, DoDeletion(s, a))
  {
    if !a.FinishDeletionA? {
      OtherDeletionStepIsSilent(s, a);
    } else if DeletionEnabled(s, a) {
      if D.Current(s.deletions, s.deletes[a.t].claim, s.now) { CleanupGrows(s, a.t); } else { StaleCleanupIsSilent(s, a.t); }
    }
  }

  lemma ResetGrows(s: State, claim: C.Claim, receipt: C.Receipt)
    requires C.Settles(s.configs, claim, receipt, s.now) && C.ClearsRelay(claim, receipt)
    ensures Grows(s, SettleConfig(s, claim, receipt))
  {
  }

  lemma OtherSettlementIsSilent(s: State, claim: C.Claim, receipt: C.Receipt)
    requires !(C.Settles(s.configs, claim, receipt, s.now) && C.ClearsRelay(claim, receipt))
    ensures Silent(s, SettleConfig(s, claim, receipt))
  {
    var s' := SettleConfig(s, claim, receipt);
    assert s' == s.(configs := s'.configs);
  }

  lemma OtherConfigStepIsSilent(s: State, a: ConfigAction)
    requires !a.SettleConfigA?
    ensures Silent(s, DoConfig(s, a))
  {
  }

  lemma ConfigStepGrows(s: State, a: ConfigAction)
    ensures Grows(s, DoConfig(s, a))
  {
    if !a.SettleConfigA? {
      OtherConfigStepIsSilent(s, a);
    } else if ConfigEnabled(s, a) {
      if C.Settles(s.configs, a.claim, a.outcome, s.now) && C.ClearsRelay(a.claim, a.outcome) {
        ResetGrows(s, a.claim, a.outcome);
      } else {
        OtherSettlementIsSilent(s, a.claim, a.outcome);
      }
    }
  }

  lemma StepGrows(s: State, a: Action)
    ensures Grows(s, Do(s, a))
  {
    match a
    case LeaseStep(x) => LeaseStepIsSilent(s, x); SilentGrows(s, DoLease(s, x));
    case UploadStep(x) => UploadStepIsSilent(s, x); SilentGrows(s, DoUpload(s, x));
    case PublishStep(x) => PublishStepGrows(s, x);
    case EndingStep(x) => EndingStepIsSilent(s, x); SilentGrows(s, DoEnding(s, x));
    case DeletionStep(x) => DeletionStepGrows(s, x);
    case ConfigStep(x) => ConfigStepGrows(s, x);
    case CloudStep(x) =>
  }

  lemma NextGrows(states: seq<State>, actions: seq<Action>, n: nat)
    requires IsRun(states, actions) && n < |actions|
    ensures Grows(states[n], states[n + 1])
  {
    assert states[n + 1] == Do(states[n], actions[n]);
    StepGrows(states[n], actions[n]);
  }

  /** Between any two states of a run. */
  lemma {:induction false} RunGrows(states: seq<State>, actions: seq<Action>, m: nat, n: nat)
    requires IsRun(states, actions) && m <= n <= |actions|
    ensures Grows(states[m], states[n])
  {
    if m < n {
      RunGrows(states, actions, m, n - 1);
      NextGrows(states, actions, n - 1);
      GrowsFurther(states[m], states[n - 1], states[n]);
    }
  }
}
