/** What the results assume of a run is needed: for each kind of lapse a run from an initial
    account, with a single tab, that keeps every other condition and breaks a result. */
module VaultHypotheses {
  import opened Basics
  import opened VaultTerms
  import opened VaultServer
  import opened VaultTab
  import opened VaultProtocol
  import opened VaultSafety
  import opened VaultSettling
  import opened VaultTheorems
  import opened VaultRuns

  // ---- A new account ------------------------------------------------------------------

  const NEW_ACCOUNT := System(Server(Row(1, None, None), []), [], map[0 := NEW_TAB], None)
  const REGISTER := [StartRegister("m", "k", 1), ServeFlowPut, TakeFlowAnswer]

  const FIRST := Blob(Vek(1), FRESH_DOC)
  const MASTER_WRAP := Wrap(Derived("m"), KekTag, 1)
  const KIT_WRAP := Wrap(Recovery("k"), RecoveryTag, 1)
  const HOME := Holding(NEW_TAB, FRESH_DOC, Vek(1), 1, Idle, 1, EMPTY)
  const REGISTERED := System(Server(Row(1, Some(MASTER_WRAP), Some(KIT_WRAP)), [Snapshot(1, FIRST)]), [FIRST],
                             map[0 := HOME], None)

  const REGISTERING := NEW_TAB.(flow := Putting(Register, 1, FIRST, MASTER_WRAP, Some(KIT_WRAP)))
  const FIRST_STORED := REGISTERED.(tabs := map[0 := NEW_TAB.(flow := Replied(Register, 1, FIRST, Accepted(1)))])

  lemma {:induction false} RegisterStarts(l: Lapse, tidy: bool)
    ensures Path(l, tidy, NEW_ACCOUNT, [StartRegister("m", "k", 1)], With(NEW_ACCOUNT, REGISTERING))
  {
    hide Path;
    To(l, tidy, NEW_ACCOUNT, StartRegister("m", "k", 1), REGISTERING);
  }

  lemma {:induction false} FirstPutRuns(l: Lapse, tidy: bool)
    ensures Path(l, tidy, With(NEW_ACCOUNT, REGISTERING), [ServeFlowPut], FIRST_STORED)
  {
    hide Path;
    Serving(l, tidy, With(NEW_ACCOUNT, REGISTERING), ServeFlowPut, FIRST_STORED);
  }

  lemma {:induction false} RegisterAnswered(l: Lapse, tidy: bool)
    ensures Path(l, tidy, FIRST_STORED, [TakeFlowAnswer], REGISTERED)
  {
    hide Path;
    To(l, tidy, FIRST_STORED, TakeFlowAnswer, HOME);
  }

  lemma {:induction false} RegisterRuns(l: Lapse, tidy: bool)
    ensures Initial(NEW_ACCOUNT)
    ensures Path(l, tidy, NEW_ACCOUNT, REGISTER, REGISTERED)
  {
    hide Path, With, Holding;
    RegisterStarts(l, tidy);
    FirstPutRuns(l, tidy);
    RegisterAnswered(l, tidy);
    Three(l, tidy, NEW_ACCOUNT, StartRegister("m", "k", 1), With(NEW_ACCOUNT, REGISTERING), ServeFlowPut, FIRST_STORED,
          TakeFlowAnswer, REGISTERED);
  }

  // ---- An unlock while an upload of the same tab is unanswered ------------------------

  const LATE_ANSWER :=
    REGISTER + [EditContents(A), FireTimer] + [LockVault] + ([StartUnlock(MasterPassword("m"))] + ASK)
    + [TakeUnlock(1)] + [ServeUpload, TakeUploadAnswer] + [FireTimer] + [ServeUpload]

  const EDITED := Blob(Vek(1), D_A)
  const SENT := Sending(NEW_TAB, D_A, Vek(1), 1, 1, EMPTY)
  const META_1 := Meta(REGISTERED.server.row, Some(Snapshot(1, FIRST)))
  const REOPENED := SENT.(store := Store(false, FRESH_DOC, Some(Vek(1)), 1, Idle, 2))
  const LATE := Holding(NEW_TAB, FRESH_DOC, Vek(1), 2, Saved, 2, A)

  lemma {:induction false} LateUnlockRuns()
    ensures Path(UnlockDuringUpload, false, With(REGISTERED, Shut(SENT).(flow := Got(MasterPassword("m"), META_1))),
                 [TakeUnlock(1)], With(REGISTERED, REOPENED))
  {
    hide Path;
    To(UnlockDuringUpload, false, With(REGISTERED, Shut(SENT).(flow := Got(MasterPassword("m"), META_1))),
       TakeUnlock(1), REOPENED);
  }

  lemma {:induction false} LateAnswerRuns()
    ensures Path(UnlockDuringUpload, false, With(REGISTERED, REOPENED), [ServeUpload, TakeUploadAnswer],
                 Grown(REGISTERED, EDITED, None, LATE))
  {
    hide Path, Put;
    var l := UnlockDuringUpload;
    var s := With(REGISTERED, REOPENED);
    var answered := Grown(s, EDITED, None, REOPENED.(upload := Answered(2, EDITED, Accepted(2))));
    UploadServed(l, false, s);
    To(l, false, answered, TakeUploadAnswer, LATE);
    Two(l, false, s, ServeUpload, answered, TakeUploadAnswer, With(answered, LATE));
  }

  lemma {:induction false} LateUploadRuns()
    ensures Path(UnlockDuringUpload, false, Grown(REGISTERED, EDITED, None, LATE), [FireTimer],
                 Grown(REGISTERED, EDITED, None, Sending(NEW_TAB, FRESH_DOC, Vek(1), 2, 2, A)))
    ensures Path(UnlockDuringUpload, false,
                 Grown(REGISTERED, EDITED, None, Sending(NEW_TAB, FRESH_DOC, Vek(1), 2, 2, A)),
                 [ServeUpload], LateEnd())
  {
    hide Path, Put;
    var s := Grown(REGISTERED, EDITED, None, LATE);
    var sending := Grown(REGISTERED, EDITED, None, Sending(NEW_TAB, FRESH_DOC, Vek(1), 2, 2, A));
    FireRuns(UnlockDuringUpload, false, s, NEW_TAB, FRESH_DOC, Vek(1), 2, Saved, 2, A);
    UploadServed(UnlockDuringUpload, false, sending);
  }

  function LateEnd(): System {
    Grown(Grown(REGISTERED, EDITED, None, LATE), FIRST, None,
          Sending(NEW_TAB, FRESH_DOC, Vek(1), 2, 2, A).(upload := Answered(3, FIRST, Accepted(3))))
  }

  lemma {:induction false} LateStartRuns()
    ensures Path(UnlockDuringUpload, false, NEW_ACCOUNT,
                 REGISTER + [EditContents(A), FireTimer] + [LockVault] + ([StartUnlock(MasterPassword("m"))] + ASK),
                 With(REGISTERED, Shut(SENT).(flow := Got(MasterPassword("m"), META_1))))
  {
    hide Path;
    var l := UnlockDuringUpload;
    RegisterRuns(l, false);
    SendRuns(l, false, REGISTERED, NEW_TAB, FRESH_DOC, Vek(1), 1, Idle, 1, EMPTY, A);
    LockRuns(l, false, REGISTERED, SENT);
    AskRuns(l, false, REGISTERED, Shut(SENT), MasterPassword("m"));
    assert FRESH_DOC.Changed(0, A) == D_A && With(REGISTERED, HOME) == REGISTERED;
    hide Holding, Sending;
    PathJoins(l, false, NEW_ACCOUNT, REGISTER, REGISTERED, [EditContents(A), FireTimer], With(REGISTERED, SENT));
    PathJoins(l, false, NEW_ACCOUNT, REGISTER + [EditContents(A), FireTimer], With(REGISTERED, SENT), [LockVault],
              With(REGISTERED, Shut(SENT)));
    PathJoins(l, false, NEW_ACCOUNT, REGISTER + [EditContents(A), FireTimer] + [LockVault],
              With(REGISTERED, Shut(SENT)),
              [StartUnlock(MasterPassword("m"))] + ASK,
                  With(REGISTERED, Shut(SENT).(flow := Got(MasterPassword("m"), META_1))));
  }

  /** An unlock that completes while the tab's own upload is unanswered loses an accepted
      edit: the late answer moves the version under contents that never had the edit. */
  lemma {:induction false} LateAnswerLosesAnEdit() returns (e: System)
    ensures Initial(NEW_ACCOUNT) && Path(UnlockDuringUpload, false, NEW_ACCOUNT, LATE_ANSWER, e)
    ensures |e.log| == 3 && !(e.log[1].doc.trail <= e.log[2].doc.trail)
  {
    hide Path;
    var l := UnlockDuringUpload;
    RegisterRuns(l, false);
    LateStartRuns();
    LateUnlockRuns();
    LateAnswerRuns();
    LateUploadRuns();
    var got := With(REGISTERED, Shut(SENT).(flow := Got(MasterPassword("m"), META_1)));
    var sending := Grown(REGISTERED, EDITED, None, Sending(NEW_TAB, FRESH_DOC, Vek(1), 2, 2, A));
    var p := REGISTER + [EditContents(A), FireTimer] + [LockVault] + ([StartUnlock(MasterPassword("m"))] + ASK);
    e := LateEnd();
    assert |e.log| == 3 && e.log[1] == EDITED && e.log[2] == FIRST;
    hide Holding, Sending, Grown, LateEnd, With, Shut;
    PathJoins(l, false, NEW_ACCOUNT, p, got, [TakeUnlock(1)], With(REGISTERED, REOPENED));
    PathJoins(l, false, NEW_ACCOUNT, p + [TakeUnlock(1)], With(REGISTERED, REOPENED), [ServeUpload, TakeUploadAnswer],
              Grown(REGISTERED, EDITED, None, LATE));
    PathJoins(l, false, NEW_ACCOUNT, p + [TakeUnlock(1)] + [ServeUpload, TakeUploadAnswer],
              Grown(REGISTERED, EDITED, None, LATE),
              [FireTimer], sending);
    PathJoins(l, false, NEW_ACCOUNT, p + [TakeUnlock(1)] + [ServeUpload, TakeUploadAnswer] + [FireTimer], sending,
              [ServeUpload], e);
  }

  // ---- Wrapping an overwritten raw key --------------------------------------------------

  const RECOVER := [LockVault] + ([StartUnlock(SecretKey("k"))] + ASK) + [TakeUnlock(1)]
  const FAILED_REWRAP := [StartNewMaster("n"), DropFlow, TakeKeysAnswer]
  const RETRY := REGISTER + RECOVER + FAILED_REWRAP + [StartNewMaster("n")] + [ServeKeys]

  const RECOVERED := Holding(NEW_TAB, FRESH_DOC, Vek(1), 1, Idle, 2, EMPTY).(pendingRaw := Some(1))
  const EMPTIED := RECOVERED.(pendingRaw := Some(ZEROED))
  const RETRIED_WRAP := Wrap(Derived("n"), KekTag, ZEROED)

  lemma {:induction false} RecoveryOpens(l: Lapse)
    ensures Path(l, false, With(REGISTERED, Shut(HOME).(flow := Got(SecretKey("k"), META_1))), [TakeUnlock(1)],
                 With(REGISTERED, RECOVERED))
  {
    hide Path;
    To(l, false, With(REGISTERED, Shut(HOME).(flow := Got(SecretKey("k"), META_1))), TakeUnlock(1), RECOVERED);
  }

  lemma {:induction false} RecoverRuns(l: Lapse)
    ensures Path(l, false, REGISTERED, RECOVER, With(REGISTERED, RECOVERED))
  {
    hide Path;
    var got := Shut(HOME).(flow := Got(SecretKey("k"), META_1));
    LockRuns(l, false, REGISTERED, HOME);
    AskRuns(l, false, REGISTERED, Shut(HOME), SecretKey("k"));
    RecoveryOpens(l);
    assert With(REGISTERED, HOME) == REGISTERED;
    hide Holding, Shut, With;
    PathJoins(l, false, REGISTERED, [LockVault], With(REGISTERED, Shut(HOME)), [StartUnlock(SecretKey("k"))] + ASK,
              With(REGISTERED, got));
    PathJoins(l, false, REGISTERED, [LockVault] + ([StartUnlock(SecretKey("k"))] + ASK), With(REGISTERED, got),
              [TakeUnlock(1)], With(REGISTERED, RECOVERED));
  }

  const REWRAPPING := EMPTIED.(flow := Rewrapping(Some(Wrap(Derived("n"), KekTag, 1)), None, true))

  lemma {:induction false} RewrapRuns(l: Lapse)
    ensures Path(l, false, With(REGISTERED, RECOVERED), [StartNewMaster("n")], With(REGISTERED, REWRAPPING))
  {
    hide Path;
    To(l, false, With(REGISTERED, RECOVERED), StartNewMaster("n"), REWRAPPING);
  }

  lemma {:induction false} RewrapDropped(l: Lapse)
    ensures Path(l, false, With(REGISTERED, REWRAPPING), [DropFlow],
                 With(REGISTERED, EMPTIED.(flow := Rewrapped(false, true))))
  {
    hide Path;
    To(l, false, With(REGISTERED, REWRAPPING), DropFlow, EMPTIED.(flow := Rewrapped(false, true)));
  }

  lemma {:induction false} FailedRewrapRuns(l: Lapse)
    ensures Path(l, false, With(REGISTERED, RECOVERED), FAILED_REWRAP, With(REGISTERED, EMPTIED))
  {
    hide Path;
    var lost := EMPTIED.(flow := Rewrapped(false, true));
    RewrapRuns(l);
    RewrapDropped(l);
    To(l, false, With(REGISTERED, lost), TakeKeysAnswer, EMPTIED);
    Three(l, false, With(REGISTERED, RECOVERED), StartNewMaster("n"), With(REGISTERED, REWRAPPING), DropFlow,
          With(REGISTERED, lost), TakeKeysAnswer, With(REGISTERED, EMPTIED));
  }

  lemma {:induction false} RetryStarts()
    ensures Path(WrapOverwritten, false, With(REGISTERED, EMPTIED), [StartNewMaster("n")],
                 With(REGISTERED, EMPTIED.(flow := Rewrapping(Some(RETRIED_WRAP), None, true))))
  {
    hide Path;
    To(WrapOverwritten, false, With(REGISTERED, EMPTIED), StartNewMaster("n"),
       EMPTIED.(flow := Rewrapping(Some(RETRIED_WRAP), None, true)));
  }

  lemma {:induction false} RetryRuns() returns (e: System)
    ensures var asked := EMPTIED.(flow := Rewrapping(Some(RETRIED_WRAP), None, true));
            && Path(WrapOverwritten, false, With(REGISTERED, EMPTIED), [StartNewMaster("n")], With(REGISTERED, asked))
            && Path(WrapOverwritten, false, With(REGISTERED, asked), [ServeKeys], e)
    ensures e.server.row.kek == Some(RETRIED_WRAP) && e.log == [FIRST]
  {
    hide Path;
    var asked := EMPTIED.(flow := Rewrapping(Some(RETRIED_WRAP), None, true));
    RetryStarts();
    e := System(Server(REGISTERED.server.row.(kek := Some(RETRIED_WRAP)), REGISTERED.server.snapshots), [FIRST],
                map[0 := asked.(flow := Rewrapped(true, true))], None);
    Serving(WrapOverwritten, false, With(REGISTERED, asked), ServeKeys, e);
  }

  /** After a recovery whose re-wrap request failed, the retry stores a wrap of the
      overwritten buffer: no password opens the stored wrap to the key of the newest
      snapshot any more. */
  lemma {:induction false} RetriedRewrapLocksOut() returns (e: System)
    ensures Initial(NEW_ACCOUNT) && Path(WrapOverwritten, false, NEW_ACCOUNT, RETRY, e)
    ensures e.log != [] && e.server.row.kek.Some?
    ensures forall key, raw :: Unwrap(key, e.server.row.kek.value, KekTag) == Some(raw) ==>
                                 Open(Vek(raw), e.log[|e.log| - 1]).None?
  {
    hide Path;
    var l := WrapOverwritten;
    var asked := EMPTIED.(flow := Rewrapping(Some(RETRIED_WRAP), None, true));
    RegisterRuns(l, false);
    RecoverRuns(l);
    FailedRewrapRuns(l);
    e := RetryRuns();
    hide Holding, With;
    PathJoins(l, false, NEW_ACCOUNT, REGISTER, REGISTERED, RECOVER, With(REGISTERED, RECOVERED));
    PathJoins(l, false, NEW_ACCOUNT, REGISTER + RECOVER, With(REGISTERED, RECOVERED), FAILED_REWRAP,
              With(REGISTERED, EMPTIED));
    PathJoins(l, false, NEW_ACCOUNT, REGISTER + RECOVER + FAILED_REWRAP, With(REGISTERED, EMPTIED),
              [StartNewMaster("n")], With(REGISTERED, asked));
    PathJoins(l, false, NEW_ACCOUNT, REGISTER + RECOVER + FAILED_REWRAP + [StartNewMaster("n")],
              With(REGISTERED, asked), [ServeKeys], e);
  }

  // ---- A legacy account -------------------------------------------------------------------

  const OLD := Blob(Derived("p"), FRESH_DOC)
  const OLD_META := Meta(Row(1, None, None), Some(Snapshot(1, OLD)))
  const OLD_ACCOUNT := System(Server(Row(1, None, None), [Snapshot(1, OLD)]), [OLD], map[0 := NEW_TAB], None)
  const OLD_TAB := Holding(NEW_TAB, FRESH_DOC, Derived("p"), 1, Idle, 1, EMPTY)

  /** In the settings, with metadata fetched. */
  const SETTINGS := NEW_TAB.(meta := Some(OLD_META), metaEra := 1)
  const LEGACY := Holding(SETTINGS, FRESH_DOC, Derived("p"), 1, Idle, 1, EMPTY)
  const FETCH_META := [AskMeta, ServeMetaRow, ServeMetaNewest]
  const COME_IN := ([StartUnlock(MasterPassword("p"))] + ASK) + [TakeUnlock(1)] + FETCH_META

  lemma {:induction false} MetaArrives(l: Lapse, tidy: bool)
    ensures Path(l, tidy, With(OLD_ACCOUNT, OLD_TAB.(fetch := FetchingNewest(Row(1, None, None), 1))),
                 [ServeMetaNewest],
                 With(OLD_ACCOUNT, LEGACY))
  {
    hide Path, Newest;
    NewestOfConsecutive([Snapshot(1, OLD)]);
    To(l, tidy, With(OLD_ACCOUNT, OLD_TAB.(fetch := FetchingNewest(Row(1, None, None), 1))), ServeMetaNewest, LEGACY);
  }

  lemma {:induction false} MetaAsked(l: Lapse, tidy: bool)
    ensures Path(l, tidy, With(OLD_ACCOUNT, OLD_TAB), [AskMeta], With(OLD_ACCOUNT, OLD_TAB.(fetch := Fetching(1))))
  {
    hide Path;
    To(l, tidy, With(OLD_ACCOUNT, OLD_TAB), AskMeta, OLD_TAB.(fetch := Fetching(1)));
  }

  lemma {:induction false} FetchRuns(l: Lapse, tidy: bool)
    ensures Path(l, tidy, With(OLD_ACCOUNT, OLD_TAB), FETCH_META, With(OLD_ACCOUNT, LEGACY))
  {
    hide Path, Newest;
    var asked := OLD_TAB.(fetch := Fetching(1));
    var half := OLD_TAB.(fetch := FetchingNewest(Row(1, None, None), 1));
    MetaAsked(l, tidy);
    To(l, tidy, With(OLD_ACCOUNT, asked), ServeMetaRow, half);
    MetaArrives(l, tidy);
    Three(l, tidy, With(OLD_ACCOUNT, OLD_TAB), AskMeta, With(OLD_ACCOUNT, asked), ServeMetaRow, With(OLD_ACCOUNT, half),
          ServeMetaNewest, With(OLD_ACCOUNT, LEGACY));
  }

  lemma {:induction false} LegacyUnlocks(l: Lapse, tidy: bool)
    ensures Path(l, tidy, With(OLD_ACCOUNT, NEW_TAB.(flow := Got(MasterPassword("p"), OLD_META))), [TakeUnlock(1)],
                 With(OLD_ACCOUNT, OLD_TAB))
  {
    hide Path;
    To(l, tidy, With(OLD_ACCOUNT, NEW_TAB.(flow := Got(MasterPassword("p"), OLD_META))), TakeUnlock(1), OLD_TAB);
  }

  lemma {:induction false} ComeInRuns(l: Lapse, tidy: bool)
    ensures Initial(OLD_ACCOUNT)
    ensures Path(l, tidy, OLD_ACCOUNT, COME_IN, With(OLD_ACCOUNT, LEGACY))
  {
    hide Path;
    var got := With(OLD_ACCOUNT, NEW_TAB.(flow := Got(MasterPassword("p"), OLD_META)));
    AskRuns(l, tidy, OLD_ACCOUNT, NEW_TAB, MasterPassword("p"));
    LegacyUnlocks(l, tidy);
    assert With(OLD_ACCOUNT, NEW_TAB) == OLD_ACCOUNT;
    FetchRuns(l, tidy);
    hide Holding, With;
    PathJoins(l, tidy, OLD_ACCOUNT, [StartUnlock(MasterPassword("p"))] + ASK, got, [TakeUnlock(1)],
              With(OLD_ACCOUNT, OLD_TAB));
    PathJoins(l, tidy, OLD_ACCOUNT, ([StartUnlock(MasterPassword("p"))] + ASK) + [TakeUnlock(1)],
              With(OLD_ACCOUNT, OLD_TAB),
              FETCH_META, With(OLD_ACCOUNT, LEGACY));
  }

  // ---- An upgrade with metadata from before the last rekey ---------------------------------

  /** The legacy tab under way to upgrade: what it sends depends on the store it then reads. */
  const NEW_WRAP := Wrap(Derived("q"), KekTag, 1)
  const BEGIN := [StartUpgrade("p", "q", 1)]
  const BEGUN := SETTINGS.(flow := Preparing(NEW_WRAP, 1))

  function SentUpgrade(version: int, doc: Doc): Flow {
    Putting(Upgrade, version, Blob(Vek(1), doc), NEW_WRAP, None)
  }

  lemma {:induction false} BeginRuns(l: Lapse, tidy: bool, s: System, doc: Doc, version: int, sync: SyncState,
                                     sent: Contents)
    ensures Path(l, tidy, With(s, Holding(SETTINGS, doc, Derived("p"), version, sync, 1, sent)), BEGIN,
                 With(s, Holding(BEGUN, doc, Derived("p"), version, sync, 1, sent)))
  {
    hide Path;
    To(l, tidy, With(s, Holding(SETTINGS, doc, Derived("p"), version, sync, 1, sent)), StartUpgrade("p", "q", 1),
       Holding(BEGUN, doc, Derived("p"), version, sync, 1, sent));
  }

  lemma {:induction false} SendUpgradeRuns(l: Lapse, tidy: bool, s: System, doc: Doc, version: int, sync: SyncState,
                                           sent: Contents)
    requires l.UpgradeUnsynced? || sent == doc.Text() || !tidy
    ensures Path(l, tidy, With(s, Holding(BEGUN, doc, Derived("p"), version, sync, 1, sent)), [SendUpgrade],
                 With(s, Holding(SETTINGS.(flow := SentUpgrade(version + 1, doc)), doc, Derived("p"), version, sync, 1,
                                 sent)))
  {
    hide Path;
    To(l, tidy, With(s, Holding(BEGUN, doc, Derived("p"), version, sync, 1, sent)), SendUpgrade,
       Holding(SETTINGS.(flow := SentUpgrade(version + 1, doc)), doc, Derived("p"), version, sync, 1, sent));
  }

  lemma {:induction false} UpgradeStarts(l: Lapse, tidy: bool, s: System, doc: Doc, version: int, sync: SyncState,
                                         sent: Contents)
    requires l.UpgradeUnsynced? || sent == doc.Text() || !tidy
    ensures Path(l, tidy, With(s, Holding(SETTINGS, doc, Derived("p"), version, sync, 1, sent)), BEGIN + [SendUpgrade],
                 With(s, Holding(SETTINGS.(flow := SentUpgrade(version + 1, doc)), doc, Derived("p"), version, sync, 1,
                                 sent)))
  {
    hide Path, Holding, With;
    BeginRuns(l, tidy, s, doc, version, sync, sent);
    SendUpgradeRuns(l, tidy, s, doc, version, sync, sent);
    PathJoins(l, tidy, With(s, Holding(SETTINGS, doc, Derived("p"), version, sync, 1, sent)), BEGIN,
              With(s, Holding(BEGUN, doc, Derived("p"), version, sync, 1, sent)), [SendUpgrade],
              With(s, Holding(SETTINGS.(flow := SentUpgrade(version + 1, doc)), doc, Derived("p"), version, sync, 1,
                              sent)));
  }

  /** The answer of an accepted upgrade, in an unlocked tab. */
  lemma {:induction false} UpgradeAnswered(l: Lapse, tidy: bool, s: System, t: Tab, sent: Doc, version: int, doc: Doc,
                                           now: int, sync: SyncState, era: nat, last: Contents)
    requires version >= 1
    ensures var replied := t.(flow := Replied(Upgrade, version, Blob(Vek(1), sent), Accepted(version)));
            Path(l, tidy, With(s, Holding(replied, doc, Derived("p"), now, sync, era, last)), [TakeFlowAnswer],
                 With(s, Holding(t.(flow := NoFlow), doc, Vek(1), version, sync, era + 1, last)))
  {
    hide Path;
    var replied := t.(flow := Replied(Upgrade, version, Blob(Vek(1), sent), Accepted(version)));
    To(l, tidy, With(s, Holding(replied, doc, Derived("p"), now, sync, era, last)), TakeFlowAnswer,
       Holding(t.(flow := NoFlow), doc, Vek(1), version, sync, era + 1, last));
  }

  /** An upgrade sent from an unlocked tab is accepted and answered. */
  lemma {:induction false} UpgradeRuns(l: Lapse, tidy: bool, s: System, t: Tab, sent: Doc, doc: Doc, now: int,
                                       sync: SyncState, era: nat, last: Contents)
    requires Stores(s.server, s.log) && s.log != []
    ensures var v := |s.log| + 1;
            Path(l, tidy, With(s, Holding(t.(flow := SentUpgrade(v, sent)), doc, Derived("p"), now, sync, era, last)),
                 [ServeFlowPut, TakeFlowAnswer],
                 Grown(s, Blob(Vek(1), sent), Some(NEW_WRAP),
                       Holding(t.(flow := NoFlow), doc, Vek(1), v, sync, era + 1, last)))
  {
    hide Path, Stores, Put;
    var v, blob := |s.log| + 1, Blob(Vek(1), sent);
    var begun := With(s, Holding(t.(flow := SentUpgrade(v, sent)), doc, Derived("p"), now, sync, era, last));
    var answered := Holding(t.(flow := Replied(Upgrade, v, blob, Accepted(v))), doc, Derived("p"), now, sync, era,
                            last);
    var end := Holding(t.(flow := NoFlow), doc, Vek(1), v, sync, era + 1, last);
    UpgradeServed(l, tidy, begun);
    var grown := Grown(s, blob, Some(NEW_WRAP), answered);
    UpgradeAnswered(l, tidy, grown, t, sent, v, doc, now, sync, era, last);
    assert With(grown, answered) == grown && With(grown, end) == Grown(s, blob, Some(NEW_WRAP), end);
    Two(l, tidy, begun, ServeFlowPut, grown, TakeFlowAnswer, Grown(s, blob, Some(NEW_WRAP), end));
  }

  const FIRST_UPGRADE := COME_IN + (BEGIN + [SendUpgrade]) + [ServeFlowPut, TakeFlowAnswer]
  const SECOND_UPGRADE := [StartUpgrade("p", "r", 2)] + [SendUpgrade] + [ServeFlowPut]
  const SECOND_WRAP := Wrap(Derived("r"), KekTag, 2)
  const REKEYED := Holding(SETTINGS, FRESH_DOC, Vek(1), 2, Idle, 2, EMPTY)
  const UPGRADED := Grown(OLD_ACCOUNT, Blob(Vek(1), FRESH_DOC), Some(NEW_WRAP), REKEYED)

  lemma {:induction false} FirstUpgradeRuns(l: Lapse)
    ensures Path(l, false, OLD_ACCOUNT, FIRST_UPGRADE, UPGRADED)
  {
    hide Path, With;
    var sent := Holding(SETTINGS.(flow := SentUpgrade(2, FRESH_DOC)), FRESH_DOC, Derived("p"), 1, Idle, 1, EMPTY);
    ComeInRuns(l, false);
    UpgradeStarts(l, false, OLD_ACCOUNT, FRESH_DOC, 1, Idle, EMPTY);
    UpgradeRuns(l, false, OLD_ACCOUNT, SETTINGS, FRESH_DOC, FRESH_DOC, 1, Idle, 1, EMPTY);
    assert SETTINGS.(flow := NoFlow) == SETTINGS;
    hide Holding, Grown;
    PathJoins(l, false, OLD_ACCOUNT, COME_IN, With(OLD_ACCOUNT, LEGACY), BEGIN + [SendUpgrade],
              With(OLD_ACCOUNT, sent));
    PathJoins(l, false, OLD_ACCOUNT, COME_IN + (BEGIN + [SendUpgrade]), With(OLD_ACCOUNT, sent),
              [ServeFlowPut, TakeFlowAnswer], UPGRADED);
  }

  lemma {:induction false} SecondBegins()
    ensures var preparing := With(UPGRADED, REKEYED.(flow := Preparing(SECOND_WRAP, 1)));
            var putting := With(UPGRADED,
                                REKEYED.(flow := Putting(Upgrade, 3, Blob(Vek(2), FRESH_DOC), SECOND_WRAP, None)));
            && Path(UpgradeOutdated, false, UPGRADED, [StartUpgrade("p", "r", 2)], preparing)
            && Path(UpgradeOutdated, false, preparing, [SendUpgrade], putting)
  {
    hide Path;
    var preparing := REKEYED.(flow := Preparing(SECOND_WRAP, 1));
    To(UpgradeOutdated, false, UPGRADED, StartUpgrade("p", "r", 2), preparing);
    To(UpgradeOutdated, false, With(UPGRADED, preparing), SendUpgrade,
       REKEYED.(flow := Putting(Upgrade, 3, Blob(Vek(2), FRESH_DOC), SECOND_WRAP, None)));
  }

  /** A second upgrade, begun with the metadata from before the first, is accepted too and
      replaces the key inside the kek_wrap: whoever holds the first key is shut out. */
  lemma {:induction false} OutdatedUpgradeReplacesKey() returns (mid: System, e: System)
    ensures Initial(OLD_ACCOUNT)
    ensures Path(UpgradeOutdated, false, OLD_ACCOUNT, FIRST_UPGRADE, mid)
            && Path(UpgradeOutdated, false, mid, SECOND_UPGRADE, e)
    ensures VekOf(mid.server.row) == Some(1) && VekOf(e.server.row) == Some(2)
    ensures Newest(e.server.snapshots).Some? && Open(Vek(1), Newest(e.server.snapshots).value.blob).None?
  {
    hide Path, Newest, Put;
    var l := UpgradeOutdated;
    ComeInRuns(l, false);
    FirstUpgradeRuns(l);
    SecondBegins();
    mid := UPGRADED;
    var preparing := With(UPGRADED, REKEYED.(flow := Preparing(SECOND_WRAP, 1)));
    var putting := With(UPGRADED, REKEYED.(flow := Putting(Upgrade, 3, Blob(Vek(2), FRESH_DOC), SECOND_WRAP, None)));
    UpgradeServed(l, false, putting);
    e := Grown(putting, Blob(Vek(2), FRESH_DOC), Some(SECOND_WRAP),
               REKEYED.(flow := Replied(Upgrade, 3, Blob(Vek(2), FRESH_DOC), Accepted(3))));
    assert Stores(e.server, e.log);
    NextVersion(e.server, e.log);
    PathJoins(l, false, mid, [StartUpgrade("p", "r", 2)], preparing, [SendUpgrade], putting);
    PathJoins(l, false, mid, [StartUpgrade("p", "r", 2)] + [SendUpgrade], putting, [ServeFlowPut], e);
  }

  // ---- An upgrade from a locked store ---------------------------------------------------

  const FROM_LOCKED := COME_IN + [EditContents(A), FireTimer] + [LockVault] + [ServeUpload, TakeUploadAnswer] + BEGIN
                       + [SendUpgrade] + [ServeFlowPut]

  const OLD_EDITED := Blob(Derived("p"), D_A)
  const OLD_SENT := Sending(SETTINGS, D_A, Derived("p"), 1, 1, EMPTY)
  /** The late answer gave the locked store a version. */
  const LOCKED_AT_2 := SETTINGS.(store := Store(true, FRESH_DOC, None, 2, Saved, 1),
                                 refs := Refs(false, Some(A), false, false))
  const SYNCED_LOCKED := Grown(OLD_ACCOUNT, OLD_EDITED, None, LOCKED_AT_2)

  lemma {:induction false} AnswerReachesLockedStore(l: Lapse)
    ensures Path(l, false, With(OLD_ACCOUNT, Shut(OLD_SENT)), [ServeUpload, TakeUploadAnswer], SYNCED_LOCKED)
  {
    hide Path, Put;
    var s := With(OLD_ACCOUNT, Shut(OLD_SENT));
    var answered := Grown(s, OLD_EDITED, None, Shut(OLD_SENT).(upload := Answered(2, OLD_EDITED, Accepted(2))));
    UploadServed(l, false, s);
    To(l, false, answered, TakeUploadAnswer, LOCKED_AT_2);
    Two(l, false, s, ServeUpload, answered, TakeUploadAnswer, With(answered, LOCKED_AT_2));
  }

  lemma {:induction false} LockedUpgradeRuns() returns (e: System)
    ensures Path(UpgradeWhileLocked, false, SYNCED_LOCKED, BEGIN + [SendUpgrade] + [ServeFlowPut], e)
    ensures e.log == [OLD, OLD_EDITED, Blob(Vek(1), FRESH_DOC)]
  {
    hide Path, Put;
    var l := UpgradeWhileLocked;
    var preparing := With(SYNCED_LOCKED, LOCKED_AT_2.(flow := Preparing(NEW_WRAP, 1)));
    var putting := With(SYNCED_LOCKED, LOCKED_AT_2.(flow := SentUpgrade(3, FRESH_DOC)));
    To(l, false, SYNCED_LOCKED, StartUpgrade("p", "q", 1), preparing.tabs[0]);
    To(l, false, preparing, SendUpgrade, putting.tabs[0]);
    UpgradeServed(l, false, putting);
    e := Grown(putting, Blob(Vek(1), FRESH_DOC), Some(NEW_WRAP),
               putting.tabs[0].(flow := Replied(Upgrade, 3, Blob(Vek(1), FRESH_DOC), Accepted(3))));
    PathJoins(l, false, SYNCED_LOCKED, BEGIN, preparing, [SendUpgrade], putting);
    PathJoins(l, false, SYNCED_LOCKED, BEGIN + [SendUpgrade], putting, [ServeFlowPut], e);
  }

  lemma {:induction false} ToLockedRuns(l: Lapse)
    ensures Path(l, false, OLD_ACCOUNT, COME_IN + [EditContents(A), FireTimer] + [LockVault]
                 + [ServeUpload, TakeUploadAnswer],
                 SYNCED_LOCKED)
  {
    hide Path;
    ComeInRuns(l, false);
    SendRuns(l, false, OLD_ACCOUNT, SETTINGS, FRESH_DOC, Derived("p"), 1, Idle, 1, EMPTY, A);
    LockRuns(l, false, OLD_ACCOUNT, OLD_SENT);
    AnswerReachesLockedStore(l);
    assert FRESH_DOC.Changed(0, A) == D_A;
    hide Holding, Sending, With, Grown, Shut;
    PathJoins(l, false, OLD_ACCOUNT, COME_IN, With(OLD_ACCOUNT, LEGACY), [EditContents(A), FireTimer],
              With(OLD_ACCOUNT, OLD_SENT));
    PathJoins(l, false, OLD_ACCOUNT, COME_IN + [EditContents(A), FireTimer], With(OLD_ACCOUNT, OLD_SENT),
              [LockVault], With(OLD_ACCOUNT, Shut(OLD_SENT)));
    PathJoins(l, false, OLD_ACCOUNT, COME_IN + [EditContents(A), FireTimer] + [LockVault],
              With(OLD_ACCOUNT, Shut(OLD_SENT)),
              [ServeUpload, TakeUploadAnswer], SYNCED_LOCKED);
  }

  /** An upgrade sent from a locked store whose version a late answer restored replaces the
      whole vault by empty contents. */
  lemma {:induction false} UpgradeFromLockedStoreEmptiesVault() returns (e: System)
    ensures Initial(OLD_ACCOUNT) && Path(UpgradeWhileLocked, false, OLD_ACCOUNT, FROM_LOCKED, e)
    ensures |e.log| == 3 && e.log[1].doc == D_A && e.log[2].doc == FRESH_DOC
  {
    hide Path;
    var l := UpgradeWhileLocked;
    ComeInRuns(l, false);
    ToLockedRuns(l);
    e := LockedUpgradeRuns();
    var p := COME_IN + [EditContents(A), FireTimer] + [LockVault] + [ServeUpload, TakeUploadAnswer];
    PathJoins(l, false, OLD_ACCOUNT, p, SYNCED_LOCKED, BEGIN + [SendUpgrade] + [ServeFlowPut], e);
    assert p + (BEGIN + [SendUpgrade] + [ServeFlowPut]) == FROM_LOCKED;
  }

  // ---- An unlock while an upgrade of the same tab is unanswered ---------------------------

  const PUT_2 := SentUpgrade(2, D_A)
  const UNSYNCED := Holding(SETTINGS.(flow := PUT_2), D_A, Derived("p"), 1, Idle, 1, EMPTY)
  const TO_UNLOCK_PAGE := COME_IN + [EditContents(A)] + (BEGIN + [SendUpgrade]) + [LockVault] + [TurnTo(0)]
                          + ([StartUnlock(MasterPassword("p"))] + ASK)
  const OVERTAKEN := TO_UNLOCK_PAGE + [TakeUnlock(1)] + [TurnTo(0)] + [ServeFlowPut, TakeFlowAnswer]
                     + [EditContents(B), FireTimer] + [ServeUpload]

  /** Locked, on the unlock page, the settings handler still waiting. */
  const WAITING := Shut(UNSYNCED).(flow := NoFlow, parked := [PUT_2])
  const OLD_AGAIN := Holding(SETTINGS.(parked := [PUT_2]), FRESH_DOC, Derived("p"), 1, Idle, 2, EMPTY)
  const PUT_RESUMES := Holding(SETTINGS.(flow := PUT_2, parked := [NoFlow]), FRESH_DOC, Derived("p"), 1, Idle, 2, EMPTY)
  const BEHIND_UPGRADE := Holding(SETTINGS.(parked := [NoFlow]), FRESH_DOC, Vek(1), 2, Idle, 3, EMPTY)
  const UPGRADED_A := Grown(OLD_ACCOUNT, Blob(Vek(1), D_A), Some(NEW_WRAP), BEHIND_UPGRADE)

  lemma {:induction false} ToUnlockPageRuns(l: Lapse)
    ensures Path(l, false, OLD_ACCOUNT, TO_UNLOCK_PAGE,
                 With(OLD_ACCOUNT, WAITING.(flow := Got(MasterPassword("p"), OLD_META))))
  {
    hide Path;
    ComeInRuns(l, false);
    EditRuns(l, false, OLD_ACCOUNT, SETTINGS, FRESH_DOC, Derived("p"), 1, Idle, 1, EMPTY, A);
    assert FRESH_DOC.Changed(0, A) == D_A;
    UpgradeStarts(l, false, OLD_ACCOUNT, D_A, 1, Idle, EMPTY);
    LockRuns(l, false, OLD_ACCOUNT, UNSYNCED);
    To(l, false, With(OLD_ACCOUNT, Shut(UNSYNCED)), TurnTo(0), WAITING);
    AskRuns(l, false, OLD_ACCOUNT, WAITING, MasterPassword("p"));
    hide Holding, With, Shut;
    var edited := With(OLD_ACCOUNT, Holding(SETTINGS, D_A, Derived("p"), 1, Idle, 1, EMPTY));
    PathJoins(l, false, OLD_ACCOUNT, COME_IN, With(OLD_ACCOUNT, LEGACY), [EditContents(A)], edited);
    PathJoins(l, false, OLD_ACCOUNT, COME_IN + [EditContents(A)], edited, BEGIN + [SendUpgrade],
              With(OLD_ACCOUNT, UNSYNCED));
    PathJoins(l, false, OLD_ACCOUNT, COME_IN + [EditContents(A)] + (BEGIN + [SendUpgrade]), With(OLD_ACCOUNT, UNSYNCED),
              [LockVault], With(OLD_ACCOUNT, Shut(UNSYNCED)));
    PathJoins(l, false, OLD_ACCOUNT, COME_IN + [EditContents(A)] + (BEGIN + [SendUpgrade]) + [LockVault],
              With(OLD_ACCOUNT, Shut(UNSYNCED)), [TurnTo(0)], With(OLD_ACCOUNT, WAITING));
    PathJoins(l, false, OLD_ACCOUNT, COME_IN + [EditContents(A)] + (BEGIN + [SendUpgrade]) + [LockVault] + [TurnTo(0)],
              With(OLD_ACCOUNT, WAITING), [StartUnlock(MasterPassword("p"))] + ASK,
              With(OLD_ACCOUNT, WAITING.(flow := Got(MasterPassword("p"), OLD_META))));
  }

  lemma {:induction false} UnlocksOldRuns()
    ensures Path(UnlockDuringUpgrade, false, With(OLD_ACCOUNT, WAITING.(flow := Got(MasterPassword("p"), OLD_META))),
                 [TakeUnlock(1)], With(OLD_ACCOUNT, OLD_AGAIN))
  {
    hide Path;
    To(UnlockDuringUpgrade, false, With(OLD_ACCOUNT, WAITING.(flow := Got(MasterPassword("p"), OLD_META))),
       TakeUnlock(1), OLD_AGAIN);
  }

  lemma {:induction false} PutResumes()
    ensures Path(UnlockDuringUpgrade, false, With(OLD_ACCOUNT, OLD_AGAIN), [TurnTo(0)], With(OLD_ACCOUNT, PUT_RESUMES))
  {
    hide Path;
    To(UnlockDuringUpgrade, false, With(OLD_ACCOUNT, OLD_AGAIN), TurnTo(0), PUT_RESUMES);
  }

  lemma {:induction false} OvertakenRuns() returns (e: System)
    ensures Path(UnlockDuringUpgrade, false, UPGRADED_A, [EditContents(B), FireTimer],
                 With(UPGRADED_A, Sending(SETTINGS.(parked := [NoFlow]), D_B, Vek(1), 2, 3, EMPTY)))
    ensures Path(UnlockDuringUpgrade, false,
                 With(UPGRADED_A, Sending(SETTINGS.(parked := [NoFlow]), D_B, Vek(1), 2, 3, EMPTY)),
                 [ServeUpload], e)
    ensures |e.log| == 3 && e.log[1].doc == D_A && e.log[2].doc == D_B
  {
    hide Path, Put;
    var t := SETTINGS.(parked := [NoFlow]);
    SendRuns(UnlockDuringUpgrade, false, UPGRADED_A, t, FRESH_DOC, Vek(1), 2, Idle, 3, EMPTY, B);
    assert FRESH_DOC.Changed(0, B) == D_B && With(UPGRADED_A, BEHIND_UPGRADE) == UPGRADED_A;
    var sending := With(UPGRADED_A, Sending(t, D_B, Vek(1), 2, 3, EMPTY));
    UploadServed(UnlockDuringUpgrade, false, sending);
    e := Grown(sending, Blob(Vek(1), D_B), None,
               sending.tabs[0].(upload := Answered(3, Blob(Vek(1), D_B), Accepted(3))));
  }

  /** An unlock that completes while the tab's own upgrade is unanswered loses an accepted
      edit: the answer rekeys contents that never had it. */
  lemma {:induction false} OvertakenUpgradeLosesAnEdit() returns (e: System)
    ensures Initial(OLD_ACCOUNT) && Path(UnlockDuringUpgrade, false, OLD_ACCOUNT, OVERTAKEN, e)
    ensures |e.log| == 3 && !(e.log[1].doc.trail <= e.log[2].doc.trail)
  {
    hide Path;
    var l := UnlockDuringUpgrade;
    ComeInRuns(l, false);
    ToUnlockPageRuns(l);
    UnlocksOldRuns();
    PutResumes();
    UpgradeRuns(l, false, OLD_ACCOUNT, SETTINGS.(parked := [NoFlow]), D_A, FRESH_DOC, 1, Idle, 2, EMPTY);
    assert SETTINGS.(parked := [NoFlow]).(flow := NoFlow) == SETTINGS.(parked := [NoFlow]);
    assert SETTINGS.(parked := [NoFlow]).(flow := PUT_2) == SETTINGS.(flow := PUT_2, parked := [NoFlow]);
    e := OvertakenRuns();
    assert D_A.trail[0] != D_B.trail[0];
    OvertakenJoins(e);
  }

  lemma {:induction false} OvertakenJoins(e: System)
    requires Path(UnlockDuringUpgrade, false, OLD_ACCOUNT, TO_UNLOCK_PAGE,
                  With(OLD_ACCOUNT, WAITING.(flow := Got(MasterPassword("p"), OLD_META))))
    requires Path(UnlockDuringUpgrade, false,
                  With(OLD_ACCOUNT, WAITING.(flow := Got(MasterPassword("p"), OLD_META))), [TakeUnlock(1)],
                 With(OLD_ACCOUNT, OLD_AGAIN))
    requires Path(UnlockDuringUpgrade, false, With(OLD_ACCOUNT, OLD_AGAIN), [TurnTo(0)], With(OLD_ACCOUNT, PUT_RESUMES))
    requires Path(UnlockDuringUpgrade, false, With(OLD_ACCOUNT, PUT_RESUMES), [ServeFlowPut, TakeFlowAnswer],
                  UPGRADED_A)
    requires Path(UnlockDuringUpgrade, false, UPGRADED_A, [EditContents(B), FireTimer],
                 With(UPGRADED_A, Sending(SETTINGS.(parked := [NoFlow]), D_B, Vek(1), 2, 3, EMPTY)))
    requires Path(UnlockDuringUpgrade, false,
                  With(UPGRADED_A, Sending(SETTINGS.(parked := [NoFlow]), D_B, Vek(1), 2, 3, EMPTY)),
                 [ServeUpload], e)
    ensures Path(UnlockDuringUpgrade, false, OLD_ACCOUNT, OVERTAKEN, e)
  {
    hide Path, Holding, Sending, With, Shut, Grown, SentUpgrade;
    var l := UnlockDuringUpgrade;
    var sending := With(UPGRADED_A, Sending(SETTINGS.(parked := [NoFlow]), D_B, Vek(1), 2, 3, EMPTY));
    PathJoins(l, false, OLD_ACCOUNT, TO_UNLOCK_PAGE,
              With(OLD_ACCOUNT, WAITING.(flow := Got(MasterPassword("p"), OLD_META))),
              [TakeUnlock(1)], With(OLD_ACCOUNT, OLD_AGAIN));
    PathJoins(l, false, OLD_ACCOUNT, TO_UNLOCK_PAGE + [TakeUnlock(1)], With(OLD_ACCOUNT, OLD_AGAIN), [TurnTo(0)],
              With(OLD_ACCOUNT, PUT_RESUMES));
    PathJoins(l, false, OLD_ACCOUNT, TO_UNLOCK_PAGE + [TakeUnlock(1)] + [TurnTo(0)], With(OLD_ACCOUNT, PUT_RESUMES),
              [ServeFlowPut, TakeFlowAnswer], UPGRADED_A);
    PathJoins(l, false, OLD_ACCOUNT, TO_UNLOCK_PAGE + [TakeUnlock(1)] + [TurnTo(0)]
              + [ServeFlowPut, TakeFlowAnswer], UPGRADED_A,
              [EditContents(B), FireTimer], sending);
    PathJoins(l, false, OLD_ACCOUNT, TO_UNLOCK_PAGE + [TakeUnlock(1)] + [TurnTo(0)] + [ServeFlowPut, TakeFlowAnswer]
              + [EditContents(B), FireTimer], sending, [ServeUpload], e);
  }

  // ---- Quiet tabs that are not saved: each run is tidy but for one lapse -------------------

  /** The tab is quiet, at a version since which no accepted snapshot shows what it shows. */
  ghost predicate Stranded(e: System) {
    0 in e.tabs && !e.tabs[0].store.isLocked && IsQuiet(e.tabs[0])
    && !AcceptedSince(e.log, e.tabs[0].store.serverVersion, e.tabs[0].store.doc.Text())
  }

  lemma {:induction false} StrandedAt(s: System, t: Tab, key: Key, version: int, sync: SyncState, era: nat)
    requires version == |s.log| && version != 0 && s.log[version - 1].doc.Text() == A && !sync.Failed?
    ensures Stranded(With(s, Holding(t, D_AE, key, version, sync, era, EMPTY)))
  {
    assert A != EMPTY by { assert A.items != EMPTY.items; }
  }

  lemma {:induction false} UndoRuns(l: Lapse, s: System, t: Tab, key: Key, version: int, sync: SyncState, era: nat)
    requires version != 0
    ensures Path(l, true, With(s, Holding(t, D_A, key, version, sync, era, EMPTY)), [EditContents(EMPTY)],
                 With(s, Holding(t, D_AE, key, version, sync, era, EMPTY)))
  {
    hide Path;
    EditRuns(l, true, s, t, D_A, key, version, sync, era, EMPTY, EMPTY);
    assert D_A.Changed(0, EMPTY) == D_AE;
  }

  // -- an unlock while unlocked

  const TWICE := REGISTER + [EditContents(A), FireTimer] + [ServeUpload] + [DropUpload, TakeUploadAnswer]
                 + ([StartUnlock(MasterPassword("m"))] + ASK) + [TakeUnlock(1)] + [EditContents(EMPTY)]
  const LOST := NEW_TAB.(store := Store(false, D_A, Some(Vek(1)), 1, Failed, 1),
                         refs := Refs(false, Some(EMPTY), true, false))
  const TAKEN := Grown(REGISTERED, EDITED, None, SENT.(upload := Answered(2, EDITED, Accepted(2))))
  const META_2 := Meta(TAKEN.server.row, Some(Snapshot(2, EDITED)))
  const UNLOCKED_TWICE := Holding(NEW_TAB, D_A, Vek(1), 2, Idle, 2, EMPTY)

  const DROPPED := SENT.(upload := Answered(2, EDITED, Refused))

  lemma {:induction false} AnswerLost(l: Lapse)
    ensures Path(l, true, TAKEN, [DropUpload], With(TAKEN, DROPPED))
  {
    hide Path;
    To(l, true, TAKEN, DropUpload, DROPPED);
  }

  lemma {:induction false} LostAnswerRuns(l: Lapse)
    ensures Path(l, true, TAKEN, [DropUpload, TakeUploadAnswer], With(TAKEN, LOST))
  {
    hide Path;
    AnswerLost(l);
    To(l, true, With(TAKEN, DROPPED), TakeUploadAnswer, LOST);
    Two(l, true, TAKEN, DropUpload, With(TAKEN, DROPPED), TakeUploadAnswer, With(TAKEN, LOST));
  }

  lemma {:induction false} TakenRuns(l: Lapse)
    ensures Path(l, true, With(REGISTERED, SENT), [ServeUpload], TAKEN)
    ensures Stores(TAKEN.server, TAKEN.log) && TAKEN.log == [FIRST, EDITED]
  {
    hide Path, Put;
    UploadServed(l, true, With(REGISTERED, SENT));
  }

  lemma {:induction false} SecondUnlockRuns()
    ensures Path(UnlockWhileUnlocked, true, With(TAKEN, LOST.(flow := Got(MasterPassword("m"), META_2))),
                 [TakeUnlock(1)],
                 With(TAKEN, UNLOCKED_TWICE))
  {
    hide Path;
    To(UnlockWhileUnlocked, true, With(TAKEN, LOST.(flow := Got(MasterPassword("m"), META_2))), TakeUnlock(1),
       UNLOCKED_TWICE);
  }

  /** Unlocking again while unlocked does not seed `lastSent` again. */
  lemma {:induction false} UnlockTwiceStrands() returns (e: System)
    ensures Initial(NEW_ACCOUNT) && Path(UnlockWhileUnlocked, true, NEW_ACCOUNT, TWICE, e) && Stranded(e)
  {
    hide Path, Stranded;
    var l := UnlockWhileUnlocked;
    RegisterRuns(l, true);
    SendRuns(l, true, REGISTERED, NEW_TAB, FRESH_DOC, Vek(1), 1, Idle, 1, EMPTY, A);
    assert FRESH_DOC.Changed(0, A) == D_A && With(REGISTERED, HOME) == REGISTERED;
    TakenRuns(l);
    LostAnswerRuns(l);
    AskRuns(l, true, TAKEN, LOST, MasterPassword("m"));
    SecondUnlockRuns();
    UndoRuns(l, TAKEN, NEW_TAB, Vek(1), 2, Idle, 2);
    StrandedAt(TAKEN, NEW_TAB, Vek(1), 2, Idle, 2);
    e := With(TAKEN, Holding(NEW_TAB, D_AE, Vek(1), 2, Idle, 2, EMPTY));
    hide Holding, Sending, With, Grown;
    var p := REGISTER + [EditContents(A), FireTimer] + [ServeUpload] + [DropUpload, TakeUploadAnswer];
    var got := With(TAKEN, LOST.(flow := Got(MasterPassword("m"), META_2)));
    PathJoins(l, true, NEW_ACCOUNT, REGISTER, REGISTERED, [EditContents(A), FireTimer], With(REGISTERED, SENT));
    PathJoins(l, true, NEW_ACCOUNT, REGISTER + [EditContents(A), FireTimer], With(REGISTERED, SENT), [ServeUpload],
              TAKEN);
    PathJoins(l, true, NEW_ACCOUNT, REGISTER + [EditContents(A), FireTimer] + [ServeUpload], TAKEN,
              [DropUpload, TakeUploadAnswer], With(TAKEN, LOST));
    PathJoins(l, true, NEW_ACCOUNT, p, With(TAKEN, LOST), [StartUnlock(MasterPassword("m"))] + ASK, got);
    PathJoins(l, true, NEW_ACCOUNT, p + ([StartUnlock(MasterPassword("m"))] + ASK), got, [TakeUnlock(1)],
              With(TAKEN, UNLOCKED_TWICE));
    PathJoins(l, true, NEW_ACCOUNT, p + ([StartUnlock(MasterPassword("m"))] + ASK) + [TakeUnlock(1)],
              With(TAKEN, UNLOCKED_TWICE),
              [EditContents(EMPTY)], e);
  }

  // -- an upgrade with unsynced edits

  const UNSYNCED_RUN := COME_IN + [EditContents(A)] + (BEGIN + [SendUpgrade]) + [EditContents(EMPTY)]
      + [ServeFlowPut, TakeFlowAnswer]

  /** Upgrading while an edit is unsynced and then undoing it strands the tab. */
  lemma {:induction false} UnsyncedUpgradeStrands() returns (e: System)
    ensures Initial(OLD_ACCOUNT) && Path(UpgradeUnsynced, true, OLD_ACCOUNT, UNSYNCED_RUN, e) && Stranded(e)
  {
    hide Path, Stranded;
    var l := UpgradeUnsynced;
    var t := SETTINGS.(flow := PUT_2);
    ComeInRuns(l, true);
    EditRuns(l, true, OLD_ACCOUNT, SETTINGS, FRESH_DOC, Derived("p"), 1, Idle, 1, EMPTY, A);
    assert FRESH_DOC.Changed(0, A) == D_A;
    UpgradeStarts(l, true, OLD_ACCOUNT, D_A, 1, Idle, EMPTY);
    UndoRuns(l, OLD_ACCOUNT, t, Derived("p"), 1, Idle, 1);
    UpgradeRuns(l, true, OLD_ACCOUNT, SETTINGS, D_A, D_AE, 1, Idle, 1, EMPTY);
    assert SETTINGS.(flow := NoFlow) == SETTINGS;
    var undone := With(OLD_ACCOUNT, Holding(t, D_AE, Derived("p"), 1, Idle, 1, EMPTY));
    e := Grown(OLD_ACCOUNT, Blob(Vek(1), D_A), Some(NEW_WRAP), Holding(SETTINGS, D_AE, Vek(1), 2, Idle, 2, EMPTY));
    StrandedAt(e, SETTINGS, Vek(1), 2, Idle, 2);
    assert With(e, Holding(SETTINGS, D_AE, Vek(1), 2, Idle, 2, EMPTY)) == e;
    hide Holding, With, Grown;
    var edited := With(OLD_ACCOUNT, Holding(SETTINGS, D_A, Derived("p"), 1, Idle, 1, EMPTY));
    PathJoins(l, true, OLD_ACCOUNT, COME_IN, With(OLD_ACCOUNT, LEGACY), [EditContents(A)], edited);
    PathJoins(l, true, OLD_ACCOUNT, COME_IN + [EditContents(A)], edited, BEGIN + [SendUpgrade],
              With(OLD_ACCOUNT, UNSYNCED));
    PathJoins(l, true, OLD_ACCOUNT, COME_IN + [EditContents(A)] + (BEGIN + [SendUpgrade]), With(OLD_ACCOUNT, UNSYNCED),
              [EditContents(EMPTY)], undone);
    PathJoins(l, true, OLD_ACCOUNT, COME_IN + [EditContents(A)] + (BEGIN + [SendUpgrade]) + [EditContents(EMPTY)],
              undone,
              [ServeFlowPut, TakeFlowAnswer], e);
  }

  // -- a lock while an upgrade is unanswered

  const LOCK_EARLY := COME_IN + ([EditContents(A), FireTimer] + [ServeUpload, TakeUploadAnswer])
      + (BEGIN + [SendUpgrade])
                      + [LockVault] + [ServeFlowPut] + [TakeFlowAnswer] + ([StartUnlock(MasterPassword("q"))] + ASK)
                      + [TakeUnlock(1)] + [EditContents(EMPTY)]
  const SYNCED_A := Grown(OLD_ACCOUNT, OLD_EDITED, None, Holding(SETTINGS, D_A, Derived("p"), 2, Saved, 1, A))
  const PUT_3 := SentUpgrade(3, D_A)
  const LOCKED_PUT := Shut(Holding(SETTINGS.(flow := PUT_3), D_A, Derived("p"), 2, Saved, 1, A))
  const UPGRADED_3 := Grown(SYNCED_A, Blob(Vek(1), D_A), Some(NEW_WRAP),
                            LOCKED_PUT.(flow := Replied(Upgrade, 3, Blob(Vek(1), D_A), Accepted(3))))
  /** The answer wrote a key and a version into the locked store, and seeded `lastSent`. */
  const KEYED_LOCKED := SETTINGS.(store := Store(true, FRESH_DOC, Some(Vek(1)), 3, Idle, 2),
                                  refs := Refs(false, Some(EMPTY), true, false))
  const META_3 := Meta(UPGRADED_3.server.row, Some(Snapshot(3, Blob(Vek(1), D_A))))
  const UNSEEDED := Holding(SETTINGS, D_A, Vek(1), 3, Idle, 3, EMPTY)

  lemma {:induction false} SyncedRuns(l: Lapse)
    ensures Path(l, true, With(OLD_ACCOUNT, LEGACY), [EditContents(A), FireTimer] + [ServeUpload, TakeUploadAnswer],
                 SYNCED_A)
    ensures Stores(SYNCED_A.server, SYNCED_A.log) && |SYNCED_A.log| == 2
  {
    hide Path;
    SendRuns(l, true, OLD_ACCOUNT, SETTINGS, FRESH_DOC, Derived("p"), 1, Idle, 1, EMPTY, A);
    assert FRESH_DOC.Changed(0, A) == D_A;
    AnswerRuns(l, true, OLD_ACCOUNT, SETTINGS, D_A, Derived("p"), 1, 1, EMPTY);
    PathJoins(l, true, With(OLD_ACCOUNT, LEGACY), [EditContents(A), FireTimer], With(OLD_ACCOUNT, OLD_SENT),
              [ServeUpload, TakeUploadAnswer], SYNCED_A);
  }

  lemma {:induction false} LockedAnswerRuns(l: Lapse)
    ensures Path(l, true, With(SYNCED_A, LOCKED_PUT), [ServeFlowPut], UPGRADED_3)
    ensures Path(l, true, UPGRADED_3, [TakeFlowAnswer], With(UPGRADED_3, KEYED_LOCKED))
    ensures Stores(UPGRADED_3.server, UPGRADED_3.log) && |UPGRADED_3.log| == 3 && UPGRADED_3.log[2] == Blob(Vek(1), D_A)
  {
    hide Path, Put;
    UpgradeServed(l, true, With(SYNCED_A, LOCKED_PUT));
    To(l, true, UPGRADED_3, TakeFlowAnswer, KEYED_LOCKED);
  }

  lemma {:induction false} UnseededRuns(l: Lapse)
    ensures Path(l, true, With(UPGRADED_3, KEYED_LOCKED.(flow := Got(MasterPassword("q"), META_3))), [TakeUnlock(1)],
                 With(UPGRADED_3, UNSEEDED))
  {
    hide Path;
    To(l, true, With(UPGRADED_3, KEYED_LOCKED.(flow := Got(MasterPassword("q"), META_3))), TakeUnlock(1), UNSEEDED);
  }

  /** Locking while an upgrade is unanswered: the answer gives the locked store a key, so the
      next unlock does not seed `lastSent`. */
  lemma {:induction false} LockDuringUpgradeStrands() returns (e: System)
    ensures Initial(OLD_ACCOUNT) && Path(LockDuringUpgrade, true, OLD_ACCOUNT, LOCK_EARLY, e) && Stranded(e)
  {
    hide Path, Stranded;
    var l := LockDuringUpgrade;
    var sent := Holding(SETTINGS.(flow := PUT_3), D_A, Derived("p"), 2, Saved, 1, A);
    ComeInRuns(l, true);
    SyncedRuns(l);
    UpgradeStarts(l, true, SYNCED_A, D_A, 2, Saved, A);
    LockRuns(l, true, SYNCED_A, sent);
    LockedAnswerRuns(l);
    AskRuns(l, true, UPGRADED_3, KEYED_LOCKED, MasterPassword("q"));
    UnseededRuns(l);
    UndoRuns(l, UPGRADED_3, SETTINGS, Vek(1), 3, Idle, 3);
    StrandedAt(UPGRADED_3, SETTINGS, Vek(1), 3, Idle, 3);
    e := With(UPGRADED_3, Holding(SETTINGS, D_AE, Vek(1), 3, Idle, 3, EMPTY));
    assert With(SYNCED_A, Holding(SETTINGS, D_A, Derived("p"), 2, Saved, 1, A)) == SYNCED_A;
    LockEarlyJoins(e);
  }

  lemma {:induction false} LockEarlyJoins(e: System)
    requires Path(LockDuringUpgrade, true, OLD_ACCOUNT, COME_IN, With(OLD_ACCOUNT, LEGACY))
    requires Path(LockDuringUpgrade, true, With(OLD_ACCOUNT, LEGACY), [EditContents(A), FireTimer]
                  + [ServeUpload, TakeUploadAnswer], SYNCED_A)
    requires Path(LockDuringUpgrade, true, SYNCED_A, BEGIN + [SendUpgrade],
                  With(SYNCED_A, Holding(SETTINGS.(flow := PUT_3), D_A, Derived("p"), 2, Saved, 1, A)))
    requires Path(LockDuringUpgrade, true,
                  With(SYNCED_A, Holding(SETTINGS.(flow := PUT_3), D_A, Derived("p"), 2, Saved, 1, A)),
                  [LockVault], With(SYNCED_A, LOCKED_PUT))
    requires Path(LockDuringUpgrade, true, With(SYNCED_A, LOCKED_PUT), [ServeFlowPut], UPGRADED_3)
    requires Path(LockDuringUpgrade, true, UPGRADED_3, [TakeFlowAnswer], With(UPGRADED_3, KEYED_LOCKED))
    requires Path(LockDuringUpgrade, true, With(UPGRADED_3, KEYED_LOCKED), [StartUnlock(MasterPassword("q"))] + ASK,
                  With(UPGRADED_3, KEYED_LOCKED.(flow := Got(MasterPassword("q"), META_3))))
    requires Path(LockDuringUpgrade, true,
                  With(UPGRADED_3, KEYED_LOCKED.(flow := Got(MasterPassword("q"), META_3))), [TakeUnlock(1)],
                  With(UPGRADED_3, UNSEEDED))
    requires Path(LockDuringUpgrade, true, With(UPGRADED_3, UNSEEDED), [EditContents(EMPTY)], e)
    ensures Path(LockDuringUpgrade, true, OLD_ACCOUNT, LOCK_EARLY, e)
  {
    hide Path, Holding, Sending, With, Shut, Grown, SentUpgrade;
    var l := LockDuringUpgrade;
    var sent := With(SYNCED_A, Holding(SETTINGS.(flow := PUT_3), D_A, Derived("p"), 2, Saved, 1, A));
    var got := With(UPGRADED_3, KEYED_LOCKED.(flow := Got(MasterPassword("q"), META_3)));
    var p1 := COME_IN + ([EditContents(A), FireTimer] + [ServeUpload, TakeUploadAnswer]);
    var p2 := p1 + (BEGIN + [SendUpgrade]) + [LockVault];
    var p3 := p2 + [ServeFlowPut] + [TakeFlowAnswer];
    var p4 := p3 + ([StartUnlock(MasterPassword("q"))] + ASK);
    PathJoins(l, true, OLD_ACCOUNT, COME_IN, With(OLD_ACCOUNT, LEGACY), [EditContents(A), FireTimer]
              + [ServeUpload, TakeUploadAnswer], SYNCED_A);
    PathJoins(l, true, OLD_ACCOUNT, p1, SYNCED_A, BEGIN + [SendUpgrade], sent);
    PathJoins(l, true, OLD_ACCOUNT, p1 + (BEGIN + [SendUpgrade]), sent, [LockVault], With(SYNCED_A, LOCKED_PUT));
    PathJoins(l, true, OLD_ACCOUNT, p2, With(SYNCED_A, LOCKED_PUT), [ServeFlowPut], UPGRADED_3);
    PathJoins(l, true, OLD_ACCOUNT, p2 + [ServeFlowPut], UPGRADED_3, [TakeFlowAnswer], With(UPGRADED_3, KEYED_LOCKED));
    PathJoins(l, true, OLD_ACCOUNT, p3, With(UPGRADED_3, KEYED_LOCKED), [StartUnlock(MasterPassword("q"))] + ASK, got);
    PathJoins(l, true, OLD_ACCOUNT, p4, got, [TakeUnlock(1)], With(UPGRADED_3, UNSEEDED));
    PathJoins(l, true, OLD_ACCOUNT, p4 + [TakeUnlock(1)], With(UPGRADED_3, UNSEEDED), [EditContents(EMPTY)], e);
  }

  // ---- A kit in flight in a tab that holds the old key --------------------------------------

  const STALE := Got(MasterPassword("p"), OLD_META)
  const IN_TWO_PAGES := Holding(SETTINGS.(parked := [STALE]), FRESH_DOC, Derived("p"), 1, Idle, 1, EMPTY)
  const BEGIN_BESIDE := ([StartUnlock(MasterPassword("p"))] + ASK) + [TurnTo(0)] + BEGIN + [SendUpgrade]
  const UPGRADED_BESIDE := Grown(OLD_ACCOUNT, Blob(Vek(1), FRESH_DOC), Some(NEW_WRAP),
                                 Holding(SETTINGS.(parked := [STALE]), FRESH_DOC, Vek(1), 2, Idle, 2, EMPTY))
  const V2 := Holding(SETTINGS.(parked := [STALE]), FRESH_DOC, Vek(1), 2, Idle, 2, EMPTY)
  const ROW_2 := Row(2, Some(NEW_WRAP), None)
  const V2_SETTINGS := V2.(meta := Some(Meta(ROW_2, Some(Snapshot(2, Blob(Vek(1), FRESH_DOC))))), metaEra := 2)
  const KIT := Rewrapping(None, Some(Wrap(Recovery("x"), RecoveryTag, 1)), false)
  const KIT_OUT := V2_SETTINGS.(flow := KIT)
  const STALE_AGAIN := KIT_OUT.(flow := STALE, parked := [KIT])
  const STALE_KIT := COME_IN + BEGIN_BESIDE + [ServeFlowPut, TakeFlowAnswer] + FETCH_META + [StartKit("x")]
                     + [TurnTo(0)] + [TakeUnlock(1)]

  lemma {:induction false} BesideBegins()
    ensures Path(NoLapse, false, With(OLD_ACCOUNT, LEGACY.(flow := STALE)), [TurnTo(0)],
                 With(OLD_ACCOUNT, IN_TWO_PAGES))
    ensures Path(NoLapse, false, With(OLD_ACCOUNT, IN_TWO_PAGES), BEGIN,
                 With(OLD_ACCOUNT, IN_TWO_PAGES.(flow := Preparing(NEW_WRAP, 1))))
  {
    hide Path;
    To(NoLapse, false, With(OLD_ACCOUNT, LEGACY.(flow := STALE)), TurnTo(0), IN_TWO_PAGES);
    To(NoLapse, false, With(OLD_ACCOUNT, IN_TWO_PAGES), StartUpgrade("p", "q", 1),
       IN_TWO_PAGES.(flow := Preparing(NEW_WRAP, 1)));
  }

  lemma {:induction false} BesideSends()
    ensures Path(NoLapse, false, With(OLD_ACCOUNT, IN_TWO_PAGES.(flow := Preparing(NEW_WRAP, 1))), [SendUpgrade],
                 With(OLD_ACCOUNT, IN_TWO_PAGES.(flow := SentUpgrade(2, FRESH_DOC))))
  {
    hide Path;
    To(NoLapse, false, With(OLD_ACCOUNT, IN_TWO_PAGES.(flow := Preparing(NEW_WRAP, 1))), SendUpgrade,
       IN_TWO_PAGES.(flow := SentUpgrade(2, FRESH_DOC)));
  }

  lemma {:induction false} BesideRuns()
    ensures Path(NoLapse, false, OLD_ACCOUNT, COME_IN + BEGIN_BESIDE + [ServeFlowPut, TakeFlowAnswer], UPGRADED_BESIDE)
  {
    hide Path;
    var two := SETTINGS.(parked := [STALE]);
    ComeInRuns(NoLapse, false);
    AskRuns(NoLapse, false, OLD_ACCOUNT, LEGACY, MasterPassword("p"));
    BesideBegins();
    BesideSends();
    UpgradeRuns(NoLapse, false, OLD_ACCOUNT, two, FRESH_DOC, FRESH_DOC, 1, Idle, 1, EMPTY);
    assert two.(flow := NoFlow) == two;
    hide Holding, With, Grown, SentUpgrade;
    var asked := With(OLD_ACCOUNT, LEGACY.(flow := STALE));
    var home, preparing := With(OLD_ACCOUNT, LEGACY), With(OLD_ACCOUNT, IN_TWO_PAGES.(flow := Preparing(NEW_WRAP, 1)));
    var sent := With(OLD_ACCOUNT, IN_TWO_PAGES.(flow := SentUpgrade(2, FRESH_DOC)));
    var ask := [StartUnlock(MasterPassword("p"))] + ASK;
    PathJoins(NoLapse, false, home, ask, asked, [TurnTo(0)], With(OLD_ACCOUNT, IN_TWO_PAGES));
    PathJoins(NoLapse, false, home, ask + [TurnTo(0)], With(OLD_ACCOUNT, IN_TWO_PAGES), BEGIN, preparing);
    PathJoins(NoLapse, false, home, ask + [TurnTo(0)] + BEGIN, preparing, [SendUpgrade], sent);
    PathJoins(NoLapse, false, OLD_ACCOUNT, COME_IN, home, BEGIN_BESIDE, sent);
    PathJoins(NoLapse, false, OLD_ACCOUNT, COME_IN + BEGIN_BESIDE, sent, [ServeFlowPut, TakeFlowAnswer],
              UPGRADED_BESIDE);
  }

  lemma {:induction false} FreshMetaAsked()
    ensures Path(NoLapse, false, UPGRADED_BESIDE, [AskMeta], With(UPGRADED_BESIDE, V2.(fetch := Fetching(2))))
  {
    hide Path;
    To(NoLapse, false, UPGRADED_BESIDE, AskMeta, V2.(fetch := Fetching(2)));
  }

  lemma {:induction false} FreshMetaRead()
    ensures Path(NoLapse, false, With(UPGRADED_BESIDE, V2.(fetch := Fetching(2))), [ServeMetaRow],
                 With(UPGRADED_BESIDE, V2.(fetch := FetchingNewest(ROW_2, 2))))
  {
    hide Path;
    To(NoLapse, false, With(UPGRADED_BESIDE, V2.(fetch := Fetching(2))), ServeMetaRow,
       V2.(fetch := FetchingNewest(ROW_2, 2)));
  }

  lemma {:induction false} FreshMetaArrives()
    ensures Path(NoLapse, false, With(UPGRADED_BESIDE, V2.(fetch := FetchingNewest(ROW_2, 2))), [ServeMetaNewest],
                 With(UPGRADED_BESIDE, V2_SETTINGS))
  {
    hide Path, Newest;
    NewestOfConsecutive(UPGRADED_BESIDE.server.snapshots);
    To(NoLapse, false, With(UPGRADED_BESIDE, V2.(fetch := FetchingNewest(ROW_2, 2))), ServeMetaNewest, V2_SETTINGS);
  }

  lemma {:induction false} KitRuns()
    ensures Path(NoLapse, false, With(UPGRADED_BESIDE, V2_SETTINGS), [StartKit("x")], With(UPGRADED_BESIDE, KIT_OUT))
    ensures Path(NoLapse, false, With(UPGRADED_BESIDE, KIT_OUT), [TurnTo(0)], With(UPGRADED_BESIDE, STALE_AGAIN))
  {
    hide Path;
    To(NoLapse, false, With(UPGRADED_BESIDE, V2_SETTINGS), StartKit("x"), KIT_OUT);
    To(NoLapse, false, With(UPGRADED_BESIDE, KIT_OUT), TurnTo(0), STALE_AGAIN);
  }

  lemma {:induction false} StaleUnlockRuns()
    ensures Path(NoLapse, false, With(UPGRADED_BESIDE, STALE_AGAIN), [TakeUnlock(1)],
                 With(UPGRADED_BESIDE, UnlockFinished(STALE_AGAIN, 1)))
    ensures HoldsDerived(UnlockFinished(STALE_AGAIN, 1).store) && UnlockFinished(STALE_AGAIN, 1).parked == [KIT]
  {
    hide Path;
    To(NoLapse, false, With(UPGRADED_BESIDE, STALE_AGAIN), TakeUnlock(1), UnlockFinished(STALE_AGAIN, 1));
  }

  /** A careful run in which a tab comes back to the old derived key, through an unlock whose
      GET came before the upgrade, while its own kit is in flight. So such a tab may well
      carry a recovery wrap; by RewrapsHoldStoredKey it is one of the stored key. */
  lemma {:induction false} KitOutlivesStaleUnlock() returns (e: System)
    ensures Initial(OLD_ACCOUNT) && Path(NoLapse, false, OLD_ACCOUNT, STALE_KIT, e)
    ensures 0 in e.tabs && HoldsDerived(e.tabs[0].store) && e.server.row.kek.Some?
    ensures exists f :: IsFlowOf(e.tabs[0], f) && f.Rewrapping? && f.newRecovery.Some?
  {
    hide Path;
    ComeInRuns(NoLapse, false);
    BesideRuns();
    FreshMetaAsked();
    FreshMetaRead();
    FreshMetaArrives();
    KitRuns();
    StaleUnlockRuns();
    e := With(UPGRADED_BESIDE, UnlockFinished(STALE_AGAIN, 1));
    assert e.tabs[0].parked[0] == KIT;
    assert IsFlowOf(e.tabs[0], KIT) && e.server.row.kek == Some(NEW_WRAP);
    hide Holding, With, Grown, UnlockFinished, IsFlowOf, HoldsDerived;
    var p := COME_IN + BEGIN_BESIDE + [ServeFlowPut, TakeFlowAnswer];
    Three(NoLapse, false, UPGRADED_BESIDE, AskMeta, With(UPGRADED_BESIDE, V2.(fetch := Fetching(2))), ServeMetaRow,
          With(UPGRADED_BESIDE, V2.(fetch := FetchingNewest(ROW_2, 2))), ServeMetaNewest,
          With(UPGRADED_BESIDE, V2_SETTINGS));
    PathJoins(NoLapse, false, OLD_ACCOUNT, p, UPGRADED_BESIDE, FETCH_META, With(UPGRADED_BESIDE, V2_SETTINGS));
    PathJoins(NoLapse, false, OLD_ACCOUNT, p + FETCH_META, With(UPGRADED_BESIDE, V2_SETTINGS), [StartKit("x")],
              With(UPGRADED_BESIDE, KIT_OUT));
    PathJoins(NoLapse, false, OLD_ACCOUNT, p + FETCH_META + [StartKit("x")], With(UPGRADED_BESIDE, KIT_OUT),
              [TurnTo(0)],
              With(UPGRADED_BESIDE, STALE_AGAIN));
    PathJoins(NoLapse, false, OLD_ACCOUNT, p + FETCH_META + [StartKit("x")] + [TurnTo(0)],
              With(UPGRADED_BESIDE, STALE_AGAIN), [TakeUnlock(1)], e);
  }

  // ---- A new recovery kit -------------------------------------------------------------------

  /** The settings page says an earlier Secret Key still works. It does not: once a
      kit is stored, only its own Secret Key opens the recovery wrap. */
  lemma {:induction false} NewKitRetiresOldKit(s: Server, t: Tab, secret: string, other: string, d: nat)
    requires t.flow.NoFlow? && BeginKit(t, secret).flow.Rewrapping?
    ensures var row := Act(s, BeginKit(t, secret), d, ServeKeys).server.row;
            ResolveWithSecret(Meta(row, Newest(s.snapshots)), other).Some? <==> other == secret
  {
    hide Newest;
    var begun := BeginKit(t, secret);
    assert begun.flow.newKek.None? && begun.flow.newRecovery.Some?;
    assert begun.flow.newRecovery.value.under == Recovery(secret);
  }
}
