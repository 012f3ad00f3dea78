/** Concrete runs of a single tab, put together from pieces: each action is tidy, or careful,
    but for one kind of lapse. */
module VaultRuns {
  import opened Basics
  import opened VaultTerms
  import opened VaultServer
  import opened VaultTab
  import opened VaultProtocol
  import opened VaultSafety
  import opened VaultSettling
  import opened VaultTheorems

  // ---- Runs of tab 0, alone ------------------------------------------------------------

  predicate Keeps(l: Lapse, tidy: bool, t: Tab, a: Action) {
    if tidy then TidyBut(l, t, a) else CarefulBut(l, t, a)
  }

  function After(s: System, a: Action): System {
    Do(s, OnTab(0, a))
  }

  /** The actions lead from s to e, and each is tidy, or careful, but for the lapse. */
  ghost predicate Path(l: Lapse, tidy: bool, s: System, actions: seq<Action>, e: System)
    decreases |actions|
  {
    if actions == [] then s == e
    else 0 in s.tabs && Keeps(l, tidy, s.tabs[0], actions[0]) && Path(l, tidy, After(s, actions[0]), actions[1..], e)
  }

  function Steps(actions: seq<Action>): seq<Step> {
    if actions == [] then [] else [OnTab(0, actions[0])] + Steps(actions[1..])
  }

  lemma {:induction false} PathIsRun(l: Lapse, tidy: bool, s: System, actions: seq<Action>, e: System)
    requires Path(l, tidy, s, actions, e)
    ensures e == Run(s, Steps(actions))
    decreases |actions|
  {
    hide Do, Keeps;
    if actions == [] {
    } else {
      PathIsRun(l, tidy, After(s, actions[0]), actions[1..], e);
      assert Steps(actions)[1..] == Steps(actions[1..]);
    }
  }

  lemma {:induction false} PathJoins(l: Lapse, tidy: bool, s: System, a: seq<Action>, m: System, b: seq<Action>,
                                     e: System)
    requires Path(l, tidy, s, a, m) && Path(l, tidy, m, b, e)
    ensures Path(l, tidy, s, a + b, e)
    decreases |a|
  {
    hide After, Keeps;
    if a == [] {
      assert a + b == b;
    } else {
      assert (a + b)[1..] == a[1..] + b;
      PathJoins(l, tidy, After(s, a[0]), a[1..], m, b, e);
    }
  }

  lemma {:induction false} Two(l: Lapse, tidy: bool, s0: System, a: Action, s1: System, b: Action, s2: System)
    requires Path(l, tidy, s0, [a], s1) && Path(l, tidy, s1, [b], s2)
    ensures Path(l, tidy, s0, [a, b], s2)
  {
    hide Path;
    PathJoins(l, tidy, s0, [a], s1, [b], s2);
    assert [a] + [b] == [a, b];
  }

  lemma {:induction false} Three(l: Lapse, tidy: bool, s0: System, a: Action, s1: System, b: Action, s2: System,
                                 c: Action, s3: System)
    requires Path(l, tidy, s0, [a], s1) && Path(l, tidy, s1, [b], s2) && Path(l, tidy, s2, [c], s3)
    ensures Path(l, tidy, s0, [a, b, c], s3)
  {
    hide Path;
    Two(l, tidy, s0, a, s1, b, s2);
    PathJoins(l, tidy, s0, [a, b], s2, [c], s3);
    assert [a, b] + [c] == [a, b, c];
  }

  function With(s: System, t: Tab): System {
    s.(tabs := map[0 := t])
  }

  ghost predicate Alone(s: System) {
    s.tabs.Keys == {0}
  }

  /** One action that involves no write on the server. */
  lemma {:induction false} To(l: Lapse, tidy: bool, s: System, a: Action, t: Tab)
    requires Alone(s) && Keeps(l, tidy, s.tabs[0], a) && !a.ServeUpload? && !a.ServeFlowPut? && !a.ServeKeys?
    requires t == ReadFor(s.server, Local(s.tabs[0], 0, a), a)
    ensures Path(l, tidy, s, [a], With(s, t))
  {
    hide ReadFor, Local, Keeps, Do;
    StepOfTab(s, 0, a, t);
    assert s.tabs[0 := t] == map[0 := t];
    assert [a][1..] == [];
    assert Path(l, tidy, With(s, t), [], With(s, t));
  }

  lemma {:induction false} ServeIsKept(l: Lapse, tidy: bool, t: Tab, a: Action)
    requires a.ServeUpload? || a.ServeFlowPut? || a.ServeKeys?
    ensures Keeps(l, tidy, t, a)
  {
  }

  lemma {:induction false} Serving(l: Lapse, tidy: bool, s: System, a: Action, e: System)
    requires Alone(s) && (a.ServeUpload? || a.ServeFlowPut? || a.ServeKeys?)
    requires var o := Act(s.server, s.tabs[0], 0, a);
             e == System(o.server, if o.accepted.None? then s.log else s.log + [o.accepted.value], map[0 := o.tab],
                         s.pruning)
    ensures Path(l, tidy, s, [a], e)
  {
    hide Act, Keeps;
    ServeIsKept(l, tidy, s.tabs[0], a);
    var o := Act(s.server, s.tabs[0], 0, a);
    assert s.tabs[0 := o.tab] == map[0 := o.tab];
    assert [a][1..] == [];
    assert Path(l, tidy, e, [], e);
  }

  /** The server after it accepted a snapshot. */
  function Grown(s: System, blob: Blob, kek: Option<Wrap>, t: Tab): System {
    var v := |s.log| + 1;
    System(Server(Row(v, if kek.Some? then kek else s.server.row.kek, s.server.row.recovery),
                  s.server.snapshots + [Snapshot(v, blob)]),
           s.log + [blob], map[0 := t], s.pruning)
  }

  lemma {:induction false} UploadServed(l: Lapse, tidy: bool, s: System)
    requires Alone(s) && s.tabs[0].upload.Sent? && Stores(s.server, s.log)
    requires s.tabs[0].upload.version == |s.log| + 1
    ensures var t := s.tabs[0];
            var v, blob := t.upload.version, t.upload.blob;
            Path(l, tidy, s, [ServeUpload], Grown(s, blob, None, t.(upload := Answered(v, blob, Accepted(v)))))
  {
    NextVersion(s.server, s.log);
    hide Expected, Local, ReadFor, Path;
    var t := s.tabs[0];
    Serving(l, tidy, s, ServeUpload,
            Grown(s, t.upload.blob, None,
                  t.(upload := Answered(t.upload.version, t.upload.blob, Accepted(t.upload.version)))));
  }

  lemma {:induction false} UpgradeServed(l: Lapse, tidy: bool, s: System)
    requires Alone(s) && s.tabs[0].flow.Putting? && s.tabs[0].flow.recovery.None? && Stores(s.server, s.log)
    requires s.tabs[0].flow.version == |s.log| + 1
    ensures var t := s.tabs[0];
            var v, blob := t.flow.version, t.flow.blob;
            Path(l, tidy, s, [ServeFlowPut],
                 Grown(s, blob, Some(t.flow.kek), t.(flow := Replied(t.flow.kind, v, blob, Accepted(v)))))
  {
    NextVersion(s.server, s.log);
    hide Expected, Local, ReadFor, Path;
    var f := s.tabs[0].flow;
    Serving(l, tidy, s, ServeFlowPut,
            Grown(s, f.blob, Some(f.kek), s.tabs[0].(flow := Replied(f.kind, f.version, f.blob, Accepted(f.version)))));
  }

  lemma {:induction false} RowServed(l: Lapse, tidy: bool, s: System, goal: Goal)
    requires Alone(s) && s.tabs[0].flow == Getting(goal)
    ensures Path(l, tidy, s, [ServeFlowRow], With(s, s.tabs[0].(flow := GettingNewest(goal, s.server.row))))
  {
    hide Path, Newest;
    To(l, tidy, s, ServeFlowRow, s.tabs[0].(flow := GettingNewest(goal, s.server.row)));
  }

  lemma {:induction false} NewestServed(l: Lapse, tidy: bool, s: System, goal: Goal)
    requires Alone(s)
    ensures var t, row := s.tabs[0], s.server.row;
            Path(l, tidy, With(s, t.(flow := GettingNewest(goal, row))), [ServeFlowNewest],
                 With(s, t.(flow := Got(goal, Meta(row, Newest(s.server.snapshots))))))
  {
    hide Path, Newest;
    var t, row := s.tabs[0], s.server.row;
    To(l, tidy, With(s, t.(flow := GettingNewest(goal, row))), ServeFlowNewest,
       t.(flow := Got(goal, Meta(row, Newest(s.server.snapshots)))));
  }

  /** A complete GET of the flow at hand. */
  lemma {:induction false} GetServed(l: Lapse, tidy: bool, s: System, goal: Goal)
    requires Alone(s) && s.tabs[0].flow == Getting(goal) && Stores(s.server, s.log) && s.log != []
    ensures var meta := Meta(s.server.row, Some(Snapshot(|s.log|, s.log[|s.log| - 1])));
            Path(l, tidy, s, [ServeFlowRow, ServeFlowNewest], With(s, s.tabs[0].(flow := Got(goal, meta))))
  {
    NextVersion(s.server, s.log);
    hide Path, Newest, Stores;
    var t := s.tabs[0];
    var asked := t.(flow := GettingNewest(goal, s.server.row));
    var got := t.(flow := Got(goal, Meta(s.server.row, Newest(s.server.snapshots))));
    RowServed(l, tidy, s, goal);
    NewestServed(l, tidy, s, goal);
    Two(l, tidy, s, ServeFlowRow, With(s, asked), ServeFlowNewest, With(s, got));
  }

  const A := Contents(["a"], [])
  const B := Contents(["b"], [])

  const D_A := Doc([Edit(0, A)])
  const D_AE := Doc([Edit(0, A), Edit(0, EMPTY)])
  const D_B := Doc([Edit(0, B)])

  // ---- Pieces that every run may use: they are tidy ------------------------------------

  /** t, unlocked with these contents, having last sent `sent`. */
  function Holding(t: Tab, doc: Doc, key: Key, version: int, sync: SyncState, era: nat, sent: Contents): Tab {
    t.(store := Store(false, doc, Some(key), version, sync, era),
       refs := Refs(false, Some(sent), true, sent != doc.Text()), upload := Quiet)
  }

  function Sending(t: Tab, doc: Doc, key: Key, version: int, era: nat, sent: Contents): Tab {
    t.(store := Store(false, doc, Some(key), version, Syncing, era),
       refs := Refs(true, Some(sent), true, false), upload := Sent(version + 1, Blob(key, doc)))
  }

  /** t, locked. */
  function Shut(t: Tab): Tab {
    t.(store := Store(true, FRESH_DOC, None, 0, Idle, t.store.era), refs := t.refs.(hadKey := false, timer := false))
  }

  lemma {:induction false} EditRuns(l: Lapse, tidy: bool, s: System, t: Tab, doc: Doc, key: Key, version: int,
                                    sync: SyncState, era: nat, sent: Contents, x: Contents)
    requires version != 0
    ensures Path(l, tidy, With(s, Holding(t, doc, key, version, sync, era, sent)), [EditContents(x)],
                 With(s, Holding(t, doc.Changed(0, x), key, version, sync, era, sent)))
  {
    hide Path;
    assert doc.Changed(0, x).Text() == x;
    To(l, tidy, With(s, Holding(t, doc, key, version, sync, era, sent)), EditContents(x),
       Holding(t, doc.Changed(0, x), key, version, sync, era, sent));
  }

  lemma {:induction false} FireRuns(l: Lapse, tidy: bool, s: System, t: Tab, doc: Doc, key: Key, version: int,
                                    sync: SyncState, era: nat, sent: Contents)
    requires sent != doc.Text()
    ensures Path(l, tidy, With(s, Holding(t, doc, key, version, sync, era, sent)), [FireTimer],
                 With(s, Sending(t, doc, key, version, era, sent)))
  {
    hide Path;
    To(l, tidy, With(s, Holding(t, doc, key, version, sync, era, sent)), FireTimer,
       Sending(t, doc, key, version, era, sent));
  }

  lemma {:induction false} SendRuns(l: Lapse, tidy: bool, s: System, t: Tab, doc: Doc, key: Key, version: int,
                                    sync: SyncState, era: nat, sent: Contents, x: Contents)
    requires version != 0 && sent != x
    ensures Path(l, tidy, With(s, Holding(t, doc, key, version, sync, era, sent)), [EditContents(x), FireTimer],
                 With(s, Sending(t, doc.Changed(0, x), key, version, era, sent)))
  {
    hide Path, Holding, Sending;
    var edited := Holding(t, doc.Changed(0, x), key, version, sync, era, sent);
    EditRuns(l, tidy, s, t, doc, key, version, sync, era, sent, x);
    assert doc.Changed(0, x).Text() == x;
    FireRuns(l, tidy, s, t, doc.Changed(0, x), key, version, sync, era, sent);
    Two(l, tidy, With(s, Holding(t, doc, key, version, sync, era, sent)), EditContents(x), With(s, edited), FireTimer,
        With(s, Sending(t, doc.Changed(0, x), key, version, era, sent)));
  }

  lemma {:induction false} AnswerRuns(l: Lapse, tidy: bool, s: System, t: Tab, doc: Doc, key: Key, version: int,
                                      era: nat, sent: Contents)
    requires Stores(s.server, s.log) && version == |s.log| && version != 0
    ensures Path(l, tidy, With(s, Sending(t, doc, key, version, era, sent)), [ServeUpload, TakeUploadAnswer],
                 Grown(s, Blob(key, doc), None, Holding(t, doc, key, version + 1, Saved, era, doc.Text())))
  {
    hide Path, Stores, Put;
    var sending := With(s, Sending(t, doc, key, version, era, sent));
    var blob := Blob(key, doc);
    var answered := sending.tabs[0].(upload := Answered(version + 1, blob, Accepted(version + 1)));
    var end := Holding(t, doc, key, version + 1, Saved, era, doc.Text());
    UploadServed(l, tidy, sending);
    To(l, tidy, Grown(s, blob, None, answered), TakeUploadAnswer, end);
    assert With(Grown(s, blob, None, answered), end) == Grown(s, blob, None, end);
    Two(l, tidy, sending, ServeUpload, Grown(s, blob, None, answered), TakeUploadAnswer, Grown(s, blob, None, end));
  }

  lemma {:induction false} LockRuns(l: Lapse, tidy: bool, s: System, t: Tab)
    requires Keeps(l, tidy, t, LockVault)
    ensures Path(l, tidy, With(s, t), [LockVault], With(s, Shut(t)))
  {
    hide Path;
    To(l, tidy, With(s, t), LockVault, Shut(t));
  }

  const ASK := [ServeFlowRow, ServeFlowNewest]

  /** A locked or unlocked tab asks for the vault and has it answered. */
  lemma {:induction false} AskRuns(l: Lapse, tidy: bool, s: System, t: Tab, goal: Goal)
    requires t.flow.NoFlow? && Stores(s.server, s.log) && s.log != []
    ensures var meta := Meta(s.server.row, Some(Snapshot(|s.log|, s.log[|s.log| - 1])));
            Path(l, tidy, With(s, t), [StartUnlock(goal)] + ASK, With(s, t.(flow := Got(goal, meta))))
  {
    hide Path, Stores;
    var asking := With(s, t.(flow := Getting(goal)));
    To(l, tidy, With(s, t), StartUnlock(goal), asking.tabs[0]);
    GetServed(l, tidy, asking, goal);
    var meta := Meta(s.server.row, Some(Snapshot(|s.log|, s.log[|s.log| - 1])));
    PathJoins(l, tidy, With(s, t), [StartUnlock(goal)], asking, ASK, With(s, t.(flow := Got(goal, meta))));
  }
}
