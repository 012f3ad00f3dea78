/** What a tab ends with when one of its requests is answered: an upload that conflicts, is
    refused or accepted, a key upgrade, a re-wrap, a recovery and a new kit. Each is one tab's
    steps in a row, from any state of any careful run. */
module VaultConflicts {
  import opened Basics
  import opened VaultTerms
  import opened VaultServer
  import opened VaultTab
  import opened VaultProtocol
  import opened VaultSafety
  import opened VaultTheorems

  /** Actions of one tab, one after the other. */
  function InARow(s: System, d: nat, actions: seq<Action>): (e: System)
    ensures e.tabs.Keys == s.tabs.Keys
  {
    if actions == [] then s
    else Do(InARow(s, d, actions[..|actions| - 1]), OnTab(d, actions[|actions| - 1]))
  }

  /** One more action that no request waits for, when the tab has come to `before`. */
  lemma {:induction false} Then(s: System, d: nat, actions: seq<Action>, a: Action, before: Tab, after: Tab,
                                all: seq<Action>)
    requires d in s.tabs && !a.ServeUpload? && !a.ServeFlowPut? && !a.ServeKeys?
    requires InARow(s, d, actions) == s.(tabs := s.tabs[d := before])
    requires after == ReadFor(s.server, Local(before, d, a), a)
    requires all == actions + [a]
    ensures InARow(s, d, all) == s.(tabs := s.tabs[d := after])
  {
    hide ReadFor, Local, Do;
    assert all[..|actions|] == actions;
    StepAgain(s, d, a, before, after);
  }

  lemma {:induction false} Nothing(s: System, d: nat)
    requires d in s.tabs
    ensures InARow(s, d, []) == s.(tabs := s.tabs[d := s.tabs[d]])
  {
    assert s.tabs[d := s.tabs[d]] == s.tabs;
  }

  // ---- A conflict ---------------------------------------------------------------------------

  const RELOAD := [TakeUploadAnswer, ServeReloadRow, ServeReloadNewest, TakeReload, TakeDecryption]

  lemma {:induction false} ReloadIs(s: System, d: nat)
    requires d in s.tabs && s.tabs[d].upload.Answered? && s.tabs[d].upload.reply.Conflict?
    ensures var t := s.tabs[d];
            var meta := Meta(s.server.row, Newest(s.server.snapshots));
            var arrived := ReloadArrived(t.(upload := Reloaded(t.upload.version, meta)));
            InARow(s, d, RELOAD) == s.(tabs := s.tabs[d := ReloadDecrypted(arrived)])
  {
    hide ReloadArrived, ReloadDecrypted, Newest, InARow, Do;
    var t := s.tabs[d];
    var v := t.upload.version;
    var row, newest := s.server.row, Newest(s.server.snapshots);
    var asked, half := t.(upload := Reloading(v)), t.(upload := ReloadingNewest(v, row));
    var got := t.(upload := Reloaded(v, Meta(row, newest)));
    Nothing(s, d);
    Then(s, d, [], TakeUploadAnswer, t, asked, RELOAD[..1]);
    Then(s, d, RELOAD[..1], ServeReloadRow, asked, half, RELOAD[..2]);
    Then(s, d, RELOAD[..2], ServeReloadNewest, half, got, RELOAD[..3]);
    Then(s, d, RELOAD[..3], TakeReload, got, ReloadArrived(got), RELOAD[..4]);
    Then(s, d, RELOAD[..4], TakeDecryption, ReloadArrived(got), ReloadDecrypted(ReloadArrived(got)), RELOAD);
  }

  /** The tab shows the newest contents as saved; nothing is left to send. */
  ghost predicate Adopted(t: Tab, t': Tab, newest: Blob, version: int) {
    && t'.store == t.store.(doc := newest.doc, serverVersion := version, sync := Saved)
    && t'.upload == Quiet && !t'.refs.inFlight && !t'.refs.timer
    && t'.refs.lastSent == Some(newest.doc.Text())
  }

  /** The tab keeps its contents and version and shows an error; it may try again. */
  ghost predicate Stuck(t: Tab, t': Tab) {
    t' == t.(store := t.store.(sync := Failed), upload := Quiet, refs := t.refs.(inFlight := false))
  }

  lemma {:induction false} ReloadOutcome(t: Tab, v: int, row: Row, newest: Blob, n: nat)
    requires n > 0 && row.version == n
    ensures var arrived := ReloadArrived(t.(upload := Reloaded(v, Meta(row, Some(Snapshot(n, newest))))));
            var t' := ReloadDecrypted(arrived);
            && (t.store.key == Some(newest.key) ==> Adopted(t, t', newest, n))
            && (t.store.key.Some? && t.store.key.value != newest.key ==> Stuck(t, t'))
            && (t.store.key.None? ==> t' == t.(upload := Quiet, refs := t.refs.(inFlight := false)))
            && t'.flow == t.flow && t'.parked == t.parked && t'.meta == t.meta && t'.pendingRaw == t.pendingRaw
  {
    hide Doc.Text;
  }

  /** After a conflict a tab that holds the key of the newest snapshot shows that snapshot,
      at its version, as saved, with nothing to send; with any other key it keeps what it
      has and shows an error; locked, it changes nothing. The server is only read. */
  lemma {:induction false} ConflictAdoptsNewest(s: System, steps: seq<Step>, e: System, d: nat)
    requires Reaches(s, steps, e) && d in e.tabs
    requires e.tabs[d].upload.Answered? && e.tabs[d].upload.reply.Conflict?
    ensures e.log != []
    ensures var t, last := e.tabs[d], e.log[|e.log| - 1];
            var end := InARow(e, d, RELOAD);
            && end == e.(tabs := e.tabs[d := end.tabs[d]])
            && (t.store.key == Some(last.key) ==> Adopted(t, end.tabs[d], last, |e.log|))
            && (t.store.key.Some? && t.store.key.value != last.key ==> Stuck(t, end.tabs[d]))
            && (t.store.key.None? ==> end.tabs[d] == t.(upload := Quiet, refs := t.refs.(inFlight := false)))
            && end.tabs[d].flow == t.flow && end.tabs[d].parked == t.parked
  {
    hide Run, CarefulRun, Initial, InARow, ReloadArrived, ReloadDecrypted, Adopted, Stuck, Newest;
    ReachedIsSafe(s, steps, e);
    NextVersion(e.server, e.log);
    ConflictMeansLog(e, d);
    ReloadIs(e, d);
    ReloadOutcome(e.tabs[d], e.tabs[d].upload.version, e.server.row, e.log[|e.log| - 1], |e.log|);
    hide Safe;
  }

  lemma {:induction false} ConflictMeansLog(e: System, d: nat)
    requires Safe(e) && d in e.tabs && e.tabs[d].upload.Answered? && e.tabs[d].upload.reply.Conflict?
    ensures e.log != [] && e.server.row.version == |e.log|
  {
    assert TabOk(VekOf(e.server.row), e.log, e.tabs[d]);
  }

  /** An upload that conflicts was overtaken: its version is taken. */
  lemma {:induction false} ConflictMeansOvertaken(s: System, steps: seq<Step>, e: System, d: nat)
    requires Reaches(s, steps, e) && d in e.tabs
    requires e.tabs[d].upload.Answered? && e.tabs[d].upload.reply.Conflict?
    ensures e.tabs[d].upload.version <= |e.log|
  {
    ReachedIsSafe(s, steps, e);
    assert TabOk(VekOf(e.server.row), e.log, e.tabs[d]);
  }

  /** A reload always finds a snapshot, and so does an unlock of a vault that has a kek_wrap:
      what the code does otherwise is never reached. */
  lemma {:induction false} AnswersHaveSnapshots(s: System, steps: seq<Step>, e: System, d: nat, f: Flow)
    requires Reaches(s, steps, e) && d in e.tabs && IsFlowOf(e.tabs[d], f)
    ensures e.tabs[d].upload.Reloaded? ==> e.tabs[d].upload.meta.newest.Some?
    ensures f.Got? && f.meta.row.kek.Some? ==> f.meta.newest.Some?
    ensures f.Got? && f.meta.newest.None? ==> f.meta.row == Row(1, None, None)
  {
    ReachedIsSafe(s, steps, e);
    var t := e.tabs[d];
    assert TabOk(VekOf(e.server.row), e.log, t);
    assert FlowOk(VekOf(e.server.row), e.log, t.store, f);
  }

  // ---- The other answers --------------------------------------------------------------------

  /** A reload that gets lost leaves the tab with an error and its own contents. */
  lemma {:induction false} LostReloadKeepsContents(s: System, d: nat)
    requires d in s.tabs
    requires var u := s.tabs[d].upload; u.Reloading? || u.ReloadingNewest? || u.Reloaded?
    ensures var end := InARow(s, d, [DropUpload, TakeReload]);
            end == s.(tabs := s.tabs[d := end.tabs[d]]) && Stuck(s.tabs[d], end.tabs[d])
  {
    hide InARow, Doc.Text;
    var t := s.tabs[d];
    var lost := t.(upload := ReloadLost(t.upload.version));
    Nothing(s, d);
    Then(s, d, [], DropUpload, t, lost, [DropUpload]);
    Then(s, d, [DropUpload], TakeReload, lost, ReloadArrived(lost), [DropUpload, TakeReload]);
  }

  /** What a tab that is unlocked has left to send. */
  predicate Unsent(t: Tab) {
    !t.store.isLocked && t.store.key.Some? && t.refs.lastSent != Some(t.store.doc.Text())
    && !(t.store.serverVersion == 0 && t.store.doc.Text() == EMPTY)
  }

  lemma {:induction false} StepIs(s: System, d: nat, a: Action, after: Tab)
    requires d in s.tabs && !a.ServeUpload? && !a.ServeFlowPut? && !a.ServeKeys?
    requires after == ReadFor(s.server, Local(s.tabs[d], d, a), a)
    ensures Do(s, OnTab(d, a)) == s.(tabs := s.tabs[d := after])
  {
    hide Do, ReadFor, Local;
    StepOfTab(s, d, a, after);
  }

  /** A refused upload, or one whose answer is lost, leaves the contents unsaved under an
      error. */
  lemma {:induction false} RefusalKeepsContents(s: System, d: nat)
    requires d in s.tabs && s.tabs[d].upload.Answered? && s.tabs[d].upload.reply.Refused?
    ensures var end := Do(s, OnTab(d, TakeUploadAnswer));
            end == s.(tabs := s.tabs[d := end.tabs[d]]) && Stuck(s.tabs[d], end.tabs[d])
  {
    hide Do, Doc.Text;
    StepIs(s, d, TakeUploadAnswer, UploadAnswered(s.tabs[d]));
  }

  /** An upload that is lost, on its way there or back, is a refused one to the tab. */
  lemma {:induction false} LostUploadKeepsContents(s: System, d: nat)
    requires d in s.tabs && (s.tabs[d].upload.Sent? || s.tabs[d].upload.Answered?)
    ensures var end := InARow(s, d, [DropUpload, TakeUploadAnswer]);
            end == s.(tabs := s.tabs[d := end.tabs[d]]) && Stuck(s.tabs[d], end.tabs[d])
  {
    hide InARow, Doc.Text;
    var t := s.tabs[d];
    var lost := UploadDropped(t);
    Nothing(s, d);
    Then(s, d, [], DropUpload, t, lost, [DropUpload]);
    Then(s, d, [DropUpload], TakeUploadAnswer, lost, UploadAnswered(lost), [DropUpload, TakeUploadAnswer]);
  }

  /** Trying again clears the error and arms the timer exactly when something is unsent. */
  lemma {:induction false} RetryArmsTimer(s: System, d: nat)
    requires d in s.tabs && (s.tabs[d].store.key.Some? ==> s.tabs[d].refs.hadKey)
    ensures var t, end := s.tabs[d], Do(s, OnTab(d, RetrySync));
            var t' := end.tabs[d];
            && end == s.(tabs := s.tabs[d := t']) && t'.store == t.store.(sync := Idle)
            && t'.upload == t.upload && (t'.refs.timer <==> Unsent(t))
  {
    hide Do, Doc.Text;
    StepIs(s, d, RetrySync, Retried(s.tabs[d]));
  }

  /** An accepted upload moves the tab to the version it asked for; the timer is armed again
      exactly when the contents changed while it was under way. */
  lemma {:induction false} AcceptanceSaves(s: System, steps: seq<Step>, e: System, d: nat)
    requires Reaches(s, steps, e) && d in e.tabs
    requires e.tabs[d].upload.Answered? && e.tabs[d].upload.reply.Accepted?
    requires !e.tabs[d].store.isLocked && e.tabs[d].refs.hadKey
    ensures var t, end := e.tabs[d], Do(e, OnTab(d, TakeUploadAnswer));
            var t' := end.tabs[d];
            && end == e.(tabs := e.tabs[d := t'])
            && t'.store == t.store.(sync := Saved, serverVersion := t.upload.version)
            && t'.upload == Quiet && !t'.refs.inFlight && t'.refs.lastSent == Some(t.upload.blob.doc.Text())
            && (t.store.serverVersion < t.upload.version ==>
                  (t'.refs.timer <==> t.store.doc.Text() != t.upload.blob.doc.Text()))
            && 1 <= t.upload.version <= |e.log| && e.log[t.upload.version - 1] == t.upload.blob
  {
    hide Run, CarefulRun, Initial, Do, Doc.Text;
    ReachedIsSafe(s, steps, e);
    assert TabOk(VekOf(e.server.row), e.log, e.tabs[d]);
    StepIs(e, d, TakeUploadAnswer, UploadAnswered(e.tabs[d]));
  }

  /** The timer sends the tab's contents under its key as the version after its own, unless an
      upload is under way: then it only goes out. */
  lemma {:induction false} TimerSends(s: System, d: nat)
    requires d in s.tabs && s.tabs[d].refs.timer && !s.tabs[d].store.isLocked && s.tabs[d].store.key.Some?
    ensures var t, end := s.tabs[d], Do(s, OnTab(d, FireTimer));
            var st := t.store;
            end == s.(tabs := s.tabs[d :=
              if t.refs.inFlight then t.(refs := t.refs.(timer := false))
              else t.(store := st.(sync := Syncing), refs := t.refs.(timer := false, inFlight := true),
                      upload := Sent(st.serverVersion + 1, Blob(st.key.value, st.doc)))])
  {
    hide Do;
    StepIs(s, d, FireTimer, TimerFired(s.tabs[d]));
  }

  // ---- The prune ----------------------------------------------------------------------------

  /** Run through, a prune leaves exactly the newest `keep` snapshots, all of them where there
      are no more, and touches nothing else; with nothing to keep it is switched off. */
  lemma {:induction false} PruneKeepsNewest(s: System, keep: nat)
    requires Stores(s.server, s.log) && s.pruning.None?
    ensures var n := |s.server.snapshots|;
            Do(Do(s, PruneScan(keep)), PruneDelete) ==
            if keep == 0 || keep >= n then s
            else s.(server := s.server.(snapshots := s.server.snapshots[n - keep..]))
  {
    if keep > 0 { AtomicPruneKeeps(s.server, s.log, keep); }
    assert s.server.snapshots[0..] == s.server.snapshots;
  }
}
