/** Account deletion: the audit trail of a deleted user is re-pointed at a tombstone
    account before the delete cascades. */
module Accounts {
  import opened Basics

  const TOMBSTONE: nat := 0
  const TOMBSTONE_EMAIL := "deleted-account@tombstone.invalid"

  datatype Role = Member | Admin | Tombstone

  datatype Account = Account(email: string, hasPassword: bool, role: Role)

  datatype Event = Event(user: nat, kind: string, deleted: Option<nat>)

  /** `rows` are those of vaults, snapshots, devices, passkeys and sessions, by owner. */
  datatype Tables = Tables(users: map<nat, Account>, events: map<nat, Event>, rows: map<nat, nat>)

  datatype Outcome = Completed | NotFound | Invalid | Unauthorized | Forbidden | Conflict | Internal

  // ---- Constraints of the schema -------------------------------------------------------

  ghost predicate References(db: Tables) {
    && (forall e :: e in db.events ==> db.events[e].user in db.users)
    && (forall r :: r in db.rows ==> db.rows[r] in db.users)
  }

  predicate EmailTaken(db: Tables, email: string) {
    exists u :: u in db.users && db.users[u].email == email
  }

  /** The tombstone has no password, and addresses are unique. */
  ghost predicate Valid(db: Tables) {
    && References(db)
    && (TOMBSTONE in db.users ==> !db.users[TOMBSTONE].hasPassword)
    && (forall u, v :: u in db.users && v in db.users && db.users[u].email == db.users[v].email ==> u == v)
  }

  // ---- Deletion ------------------------------------------------------------------------

  /** The insert gives way to an existing id, not to an existing address. */
  function WithTombstone(db: Tables): Option<Tables> {
    if TOMBSTONE in db.users then Some(db)
    else if EmailTaken(db, TOMBSTONE_EMAIL) then None
    else Some(db.(users := db.users[TOMBSTONE := Account(TOMBSTONE_EMAIL, false, Tombstone)]))
  }

  function Repointed(events: map<nat, Event>, user: nat): map<nat, Event> {
    map e | e in events :: if events[e].user == user then events[e].(user := TOMBSTONE) else events[e]
  }

  /** Deletes the row and, by the foreign keys, all that refers to it. */
  function Cascaded(db: Tables, user: nat): Tables {
    Tables(db.users - {user},
           map e | e in db.events && db.events[e].user != user :: db.events[e],
           map r | r in db.rows && db.rows[r] != user :: db.rows[r])
  }

  function Deleted(db: Tables, user: nat, record: nat, kind: string): Tables {
    Cascaded(db.(events := Repointed(db.events, user)[record := Event(TOMBSTONE, kind, Some(user))]), user)
  }

  function Logged(db: Tables, user: nat, id: nat, kind: string): Tables {
    db.(events := db.events[id := Event(user, kind, None)])
  }

  function SelfDeleted(db: Tables, user: nat, passwordOk: bool, record: nat): (Tables, Outcome) {
    if user !in db.users then (db, NotFound)
    else if !db.users[user].hasPassword then (db, Invalid)
    else if !passwordOk then (Logged(db, user, record, "ACCOUNT_DELETE_FAILED"), Unauthorized)
    else
      match WithTombstone(db)
      case None => (db, Internal)
      case Some(ready) => (Deleted(ready, user, record, "ACCOUNT_DELETED_SELF"), Completed)
  }

  function Admins(db: Tables): set<nat> {
    set u | u in db.users && db.users[u].role.Admin?
  }

  function AdminDeleted(db: Tables, admin: nat, user: nat, record: nat): (Tables, Outcome) {
    if admin !in db.users || !db.users[admin].role.Admin? then (db, Forbidden)
    else if user == admin then (db, Invalid)
    else if user !in db.users then (db, NotFound)
    else if db.users[user].role.Admin? && |Admins(db)| <= 1 then (db, Conflict)
    else
      match WithTombstone(db)
      case None => (db, Internal)
      case Some(ready) => (Deleted(ready, user, record, "ACCOUNT_DELETED_ADMIN"), Completed)
  }

  class AccountServer {
    var users: map<nat, Account>
    var events: map<nat, Event>
    var rows: map<nat, nat>

    ghost function View(): Tables
      reads this
    {
      Tables(users, events, rows)
    }

    constructor ()
      ensures View() == Tables(map[], map[], map[])
    {
      users, events, rows := map[], map[], map[];
    }

    method EnsureTombstone() returns (ok: bool)
      modifies this`users
      ensures ok <==> WithTombstone(old(View())).Some?
      ensures View() == if ok then WithTombstone(old(View())).value else old(View())
    {
      if TOMBSTONE in users { return true; }
      if exists u :: u in users && users[u].email == TOMBSTONE_EMAIL { return false; }
      users := users[TOMBSTONE := Account(TOMBSTONE_EMAIL, false, Tombstone)];
      return true;
    }

    /** The transaction: re-point, record, delete with cascades. */
    method DeleteUser(user: nat, record: nat, kind: string)
      modifies this
      ensures View() == Deleted(old(View()), user, record, kind)
    {
      events := map e | e in events :: if events[e].user == user then events[e].(user := TOMBSTONE) else events[e];
      events := events[record := Event(TOMBSTONE, kind, Some(user))];
      users := users - {user};
      events := map e | e in events && events[e].user != user :: events[e];
      rows := map r | r in rows && rows[r] != user :: rows[r];
    }

    method DeleteAccount(user: nat, passwordOk: bool, record: nat) returns (outcome: Outcome)
      modifies this
      ensures (View(), outcome) == SelfDeleted(old(View()), user, passwordOk, record)
    {
      if user !in users { return NotFound; }
      if !users[user].hasPassword { return Invalid; }
      if !passwordOk {
        events := events[record := Event(user, "ACCOUNT_DELETE_FAILED", None)];
        return Unauthorized;
      }
      var ok := EnsureTombstone();
      if !ok { return Internal; }
      DeleteUser(user, record, "ACCOUNT_DELETED_SELF");
      return Completed;
    }

    method AdminDeleteAccount(admin: nat, user: nat, record: nat) returns (outcome: Outcome)
      modifies this
      ensures (View(), outcome) == AdminDeleted(old(View()), admin, user, record)
    {
      if admin !in users || !users[admin].role.Admin? { return Forbidden; }
      if user == admin { return Invalid; }
      if user !in users { return NotFound; }
      if users[user].role.Admin? {
        var admins := set u | u in users && users[u].role.Admin?;
        assert admins == Admins(View());
        if |admins| <= 1 { return Conflict; }
      }
      var ok := EnsureTombstone();
      if !ok { return Internal; }
      DeleteUser(user, record, "ACCOUNT_DELETED_ADMIN");
      return Completed;
    }
  }

  // ---- Runs ------------------------------------------------------------------------------

  datatype Step =
    | SignUp(user: nat, account: Account)
    | AddRow(row: nat, owner: nat)
    | Log(user: nat, id: nat, kind: string)
    | SetRole(user: nat, role: Role)
    | DeleteSelf(user: nat, passwordOk: bool, record: nat)
    | DeleteOther(admin: nat, user: nat, record: nat)

  function Do(db: Tables, step: Step): (Tables, Outcome) {
    match step
    case SignUp(user, account) =>
      if user == TOMBSTONE || user in db.users || EmailTaken(db, account.email) then (db, Conflict)
      else (db.(users := db.users[user := account]), Completed)
    case AddRow(row, owner) =>
      if owner !in db.users || row in db.rows then (db, Internal) else (db.(rows := db.rows[row := owner]), Completed)
    case Log(user, id, kind) =>
      if user !in db.users || id in db.events then (db, Internal) else (Logged(db, user, id, kind), Completed)
    case SetRole(user, role) =>
      if user !in db.users then (db, NotFound)
      else (db.(users := db.users[user := db.users[user].(role := role)]), Completed)
    case DeleteSelf(user, passwordOk, record) => SelfDeleted(db, user, passwordOk, record)
    case DeleteOther(admin, user, record) => AdminDeleted(db, admin, user, record)
  }

  function Run(db: Tables, steps: seq<Step>): Tables
    decreases |steps|
  {
    if steps == [] then db else Run(Do(db, steps[0]).0, steps[1..])
  }

  /** Every event is still there: same kind, same subject, and the same user or the
      tombstone. */
  ghost predicate KeepsTrail(before: map<nat, Event>, after: map<nat, Event>) {
    forall e :: e in before ==>
      && e in after && after[e].kind == before[e].kind && after[e].deleted == before[e].deleted
      && (after[e].user == before[e].user || after[e].user == TOMBSTONE)
  }

  // ---- One deletion ------------------------------------------------------------------------

  lemma {:induction false} TombstoneIsValid(db: Tables)
    requires Valid(db) && WithTombstone(db).Some?
    ensures Valid(WithTombstone(db).value) && TOMBSTONE in WithTombstone(db).value.users
    ensures WithTombstone(db).value.events == db.events && WithTombstone(db).value.rows == db.rows
  {
  }

  lemma {:induction false} EventsAfter(db: Tables, user: nat, record: nat, kind: string)
    requires record !in db.events && user != TOMBSTONE
    ensures var after := Deleted(db, user, record, kind).events;
            KeepsTrail(db.events, after) && after.Keys == db.events.Keys + {record}
            && after[record] == Event(TOMBSTONE, kind, Some(user))
  {
    var moved := Repointed(db.events, user);
    assert forall e :: e in db.events ==> e in moved && moved[e].user != user;
  }

  lemma {:induction false} UsersAndRowsAfter(db: Tables, user: nat, record: nat, kind: string)
    ensures var after := Deleted(db, user, record, kind);
            after.users == db.users - {user}
            && (forall r :: r in after.rows <==> r in db.rows && db.rows[r] != user)
            && (forall r :: r in after.rows ==> after.rows[r] == db.rows[r])
  {
    hide Repointed;
  }

  lemma {:induction false} EventOwners(db: Tables, user: nat, record: nat, kind: string)
    requires TOMBSTONE in db.users && forall e :: e in db.events ==> db.events[e].user in db.users
    ensures var after := Deleted(db, user, record, kind);
            forall e :: e in after.events ==> after.events[e].user in db.users && after.events[e].user != user
  {
  }

  lemma {:induction false} DeletionStaysValid(db: Tables, user: nat, record: nat, kind: string)
    requires Valid(db) && TOMBSTONE in db.users
    ensures Valid(Deleted(db, user, record, kind))
  {
    hide Deleted;
    EventOwners(db, user, record, kind);
    UsersAndRowsAfter(db, user, record, kind);
  }

  /** A deletion loses no event and leaves one record more, exactly when its target is not
      the tombstone itself; it removes the user with the rows of theirs and no others. */
  lemma {:induction false} DeletionKeepsTrailExactly(db: Tables, user: nat, record: nat, kind: string)
    requires Valid(db) && TOMBSTONE in db.users && record !in db.events
    ensures var after := Deleted(db, user, record, kind);
            && (KeepsTrail(db.events, after.events) && after.events.Keys == db.events.Keys + {record} <==>
                user != TOMBSTONE)
            && after.users == db.users - {user}
            && (forall r :: r in after.rows <==> r in db.rows && db.rows[r] != user)
            && (user != TOMBSTONE ==> after.events[record] == Event(TOMBSTONE, kind, Some(user)))
            && (user == TOMBSTONE ==> record !in after.events)
            && Valid(after)
  {
    hide Deleted, Valid, KeepsTrail;
    DeletionStaysValid(db, user, record, kind);
    UsersAndRowsAfter(db, user, record, kind);
    if user == TOMBSTONE {
      RecordFalls(db, record, kind);
    } else {
      EventsAfter(db, user, record, kind);
    }
  }

  lemma {:induction false} RecordFalls(db: Tables, record: nat, kind: string)
    ensures record !in Deleted(db, TOMBSTONE, record, kind).events
  {
    hide Repointed;
  }

  /** With the right password, a self-deletion fails only when someone registered the
      tombstone's address before the tombstone existed. */
  lemma {:induction false} SelfDeletionCompletes(db: Tables, user: nat, passwordOk: bool, record: nat)
    requires Valid(db) && record !in db.events
    ensures var (after, outcome) := SelfDeleted(db, user, passwordOk, record);
            && (outcome == Completed <==> user in db.users && db.users[user].hasPassword && passwordOk
                                          && (TOMBSTONE in db.users || !EmailTaken(db, TOMBSTONE_EMAIL)))
            && (outcome == Completed <==> user in db.users && user !in after.users)
            && KeepsTrail(db.events, after.events)
  {
    if user in db.users && db.users[user].hasPassword && passwordOk && WithTombstone(db).Some? {
      TombstoneIsValid(db);
      DeletionKeepsTrailExactly(WithTombstone(db).value, user, record, "ACCOUNT_DELETED_SELF");
    }
  }

  // ---- Whole runs ------------------------------------------------------------------------------

  ghost predicate NewRecord(db: Tables, step: Step) {
    match step
    case DeleteSelf(_, _, record) => record !in db.events
    case DeleteOther(_, _, record) => record !in db.events
    case _ => true
  }

  /** An administrator asks for the deletion of the tombstone, and it exists. */
  predicate DeletesTombstone(db: Tables, step: Step) {
    && step.DeleteOther? && step.user == TOMBSTONE && TOMBSTONE in db.users
    && step.admin in db.users && db.users[step.admin].role.Admin? && step.admin != TOMBSTONE
    && (db.users[TOMBSTONE].role.Admin? ==> |Admins(db)| > 1)
  }

  predicate Deletes(db: Tables, step: Step) {
    (step.DeleteSelf? || step.DeleteOther?) && Do(db, step).1 == Completed
  }

  function KindOf(step: Step): string {
    if step.DeleteSelf? then "ACCOUNT_DELETED_SELF" else "ACCOUNT_DELETED_ADMIN"
  }

  lemma {:induction false} DeletionIs(db: Tables, step: Step)
    requires Deletes(db, step)
    ensures WithTombstone(db).Some?
    ensures Do(db, step).0 == Deleted(WithTombstone(db).value, step.user, step.record, KindOf(step))
  {
    hide Deleted, WithTombstone, Admins;
  }

  lemma {:induction false} OtherStepsStayValid(db: Tables, step: Step)
    requires Valid(db) && !Deletes(db, step)
    ensures Valid(Do(db, step).0)
  {
    hide Deleted, WithTombstone, Admins, EmailTaken;
    if step.SignUp? { SignUpStaysValid(db, step); }
  }

  lemma {:induction false} SignUpStaysValid(db: Tables, step: Step)
    requires Valid(db) && step.SignUp?
    ensures Valid(Do(db, step).0)
  {
  }

  lemma {:induction false} OtherStepsAddAtMostOne(db: Tables, step: Step)
    requires NewRecord(db, step) && !Deletes(db, step)
    ensures var after := Do(db, step).0;
            KeepsTrail(db.events, after.events) && |after.events| == |db.events| + Recorded(db, [step])
  {
    hide Deleted, WithTombstone, Admins, EmailTaken;
    assert [step][1..] == [];
  }

  /** No row refers to a missing user afterwards, and events are kept and deletions
      recorded exactly unless the step deletes the tombstone. */
  lemma {:induction false} StepKeepsTrail(db: Tables, step: Step)
    requires Valid(db) && NewRecord(db, step)
    ensures var after := Do(db, step).0;
            && Valid(after)
            && (KeepsTrail(db.events, after.events) && (Deletes(db, step) ==> HasRecord(after, step)) <==>
                !DeletesTombstone(db, step))
  {
    hide Valid, KeepsTrail, Do, Deleted, WithTombstone, KindOf;
    if Deletes(db, step) {
      DeletionIs(db, step);
      var ready := WithTombstone(db).value;
      TombstoneIsValid(db);
      DeletionKeepsTrailExactly(ready, step.user, step.record, KindOf(step));
      if step.DeleteSelf? { SelfIsNotTombstone(db, step); }
      if step.DeleteOther? && step.user == TOMBSTONE { TombstoneRequestCompletes(db, step); }
    } else {
      if step.DeleteOther? && step.user == TOMBSTONE { TombstoneRequestCompletes(db, step); }
      OtherStepsStayValid(db, step);
      OtherStepsAddAtMostOne(db, step);
    }
  }

  /** Such a request is always carried out. */
  lemma {:induction false} TombstoneRequestCompletes(db: Tables, step: Step)
    requires step.DeleteOther? && step.user == TOMBSTONE
    ensures DeletesTombstone(db, step) <==> Deletes(db, step)
  {
    hide Deleted, Admins;
  }

  lemma {:induction false} SelfIsNotTombstone(db: Tables, step: Step)
    requires Valid(db) && step.DeleteSelf? && Deletes(db, step)
    ensures step.user != TOMBSTONE
  {
    hide Deleted, WithTombstone;
  }

  ghost predicate HasRecord(db: Tables, step: Step)
    requires step.DeleteSelf? || step.DeleteOther?
  {
    step.record in db.events && db.events[step.record].deleted == Some(step.user)
  }

  ghost predicate FreshRecords(db: Tables, steps: seq<Step>)
    decreases |steps|
  {
    steps == [] || (NewRecord(db, steps[0]) && FreshRecords(Do(db, steps[0]).0, steps[1..]))
  }

  ghost predicate SparesTombstone(db: Tables, steps: seq<Step>)
    decreases |steps|
  {
    steps == [] || (!DeletesTombstone(db, steps[0]) && SparesTombstone(Do(db, steps[0]).0, steps[1..]))
  }

  /** How many deletions and how many other events a run makes. */
  function Recorded(db: Tables, steps: seq<Step>): nat
    decreases |steps|
  {
    if steps == [] then 0
    else
      var (after, outcome) := Do(db, steps[0]);
      var s := steps[0];
      (if Deletes(db, s) || (s.Log? && outcome == Completed) || (s.DeleteSelf? && outcome == Unauthorized)
       then 1 else 0)
      + Recorded(after, steps[1..])
  }

  lemma {:induction false} StepCounts(db: Tables, step: Step)
    requires Valid(db) && NewRecord(db, step) && !DeletesTombstone(db, step)
    ensures |Do(db, step).0.events| == |db.events| + Recorded(db, [step])
  {
    hide Valid, KeepsTrail, Do, Deleted, WithTombstone, KindOf;
    if Deletes(db, step) {
      DeletionIs(db, step);
      var ready := WithTombstone(db).value;
      TombstoneIsValid(db);
      if step.DeleteSelf? { SelfIsNotTombstone(db, step); }
      if step.DeleteOther? && step.user == TOMBSTONE { TombstoneRequestCompletes(db, step); }
      DeletionKeepsTrailExactly(ready, step.user, step.record, KindOf(step));
      assert |Do(db, step).0.events.Keys| == |db.events.Keys + {step.record}|;
      assert [step][1..] == [];
    } else {
      OtherStepsAddAtMostOne(db, step);
    }
  }

  /** Audit conservation: whatever handlers run, no event is ever lost, every deletion and
      every logged action leaves exactly one, and no row refers to a missing user, as long
      as the tombstone is not itself deleted. */
  lemma {:induction false} AuditIsConserved(db: Tables, steps: seq<Step>)
    requires Valid(db) && FreshRecords(db, steps) && SparesTombstone(db, steps)
    ensures var end := Run(db, steps);
            && Valid(end) && KeepsTrail(db.events, end.events)
            && |end.events| == |db.events| + Recorded(db, steps)
    decreases |steps|
  {
    hide Do, Valid, Deletes, DeletesTombstone, NewRecord;
    if steps == [] {
    } else {
      StepKeepsTrail(db, steps[0]);
      StepCounts(db, steps[0]);
      var after := Do(db, steps[0]).0;
      assert Recorded(after, []) == 0 && [steps[0]][1..] == [];
      AuditIsConserved(after, steps[1..]);
      TrailsJoin(db.events, after.events, Run(after, steps[1..]).events);
    }
  }

  lemma {:induction false} TrailsJoin(a: map<nat, Event>, b: map<nat, Event>, c: map<nat, Event>)
    requires KeepsTrail(a, b) && KeepsTrail(b, c)
    ensures KeepsTrail(a, c)
  {
  }

  /** Sparing the tombstone is needed: an administrator may delete it, and with it goes
      every record it holds, the record of that deletion included. */
  lemma {:induction false} TombstoneCanBeDeleted(db: Tables, admin: nat, record: nat)
    requires Valid(db) && TOMBSTONE in db.users && !db.users[TOMBSTONE].role.Admin?
    requires admin in db.users && db.users[admin].role.Admin? && record !in db.events
    ensures DeletesTombstone(db, DeleteOther(admin, TOMBSTONE, record))
    ensures var after := Do(db, DeleteOther(admin, TOMBSTONE, record)).0;
            forall e :: e in after.events <==> e in db.events && db.events[e].user != TOMBSTONE
  {
    assert admin != TOMBSTONE;
  }

  // ---- Every outcome of a deletion -------------------------------------------------------

  /** The account that owns the orphaned events is there, or can be made. */
  predicate TombstoneAvailable(db: Tables) {
    0 in db.users || forall u :: u in db.users ==> db.users[u].email != "deleted-account@tombstone.invalid"
  }

  lemma {:induction false} TombstoneIs(db: Tables)
    ensures WithTombstone(db).Some? <==> TombstoneAvailable(db)
    ensures WithTombstone(db).Some? ==>
              && WithTombstone(db).value.events == db.events && WithTombstone(db).value.rows == db.rows
              && WithTombstone(db).value.users ==
                 if 0 in db.users then db.users
                 else db.users[0 := Account("deleted-account@tombstone.invalid", false, Tombstone)]
  {
  }

  /** The user is gone with the rows of theirs, their events and a record of the deletion
      belong to the tombstone, which has neither password nor rights, and nothing else
      changed. */
  ghost predicate IsGone(db: Tables, after: Tables, user: nat, record: nat, kind: string) {
    && after.users == (if 0 in db.users then db.users
                       else db.users[0 := Account("deleted-account@tombstone.invalid", false, Tombstone)]) - {user}
    && (forall r :: r in after.rows <==> r in db.rows && db.rows[r] != user)
    && (forall r :: r in after.rows ==> after.rows[r] == db.rows[r])
    && (user != 0 ==>
          && after.events.Keys == db.events.Keys + {record}
          && after.events[record] == Event(0, kind, Some(user))
          && forall e :: e in db.events && e != record ==>
               after.events[e] == if db.events[e].user == user then db.events[e].(user := 0) else db.events[e])
  }

  lemma {:induction false} DeletedIsGone(db: Tables, user: nat, record: nat, kind: string)
    requires WithTombstone(db).Some? && record !in db.events
    ensures IsGone(db, Deleted(WithTombstone(db).value, user, record, kind), user, record, kind)
  {
    hide WithTombstone, Deleted;
    TombstoneIs(db);
    var ready := WithTombstone(db).value;
    UsersAndRowsAfter(ready, user, record, kind);
    if user != 0 { EventsMoved(ready, user, record, kind); }
  }

  lemma {:induction false} EventsMoved(db: Tables, user: nat, record: nat, kind: string)
    requires record !in db.events && user != 0
    ensures var after := Deleted(db, user, record, kind).events;
            && after.Keys == db.events.Keys + {record} && after[record] == Event(0, kind, Some(user))
            && forall e :: e in db.events ==>
                 after[e] == if db.events[e].user == user then db.events[e].(user := 0) else db.events[e]
  {
    EventsAfter(db, user, record, kind);
  }

  /** With the caller an administrator and the target another one, there are two. */
  lemma {:induction false} TwoAdmins(db: Tables, a: nat, b: nat)
    requires a != b && a in db.users && b in db.users && db.users[a].role.Admin? && db.users[b].role.Admin?
    ensures |Admins(db)| > 1
  {
    var both: set<nat> := {a, b};
    assert both <= Admins(db);
    Larger(both, Admins(db));
  }

  lemma {:induction false} Larger(a: set<nat>, b: set<nat>)
    requires a <= b
    ensures |a| <= |b|
  {
    assert b == a + (b - a);
    assert |b| == |a| + |b - a|;
  }

  /** An administrator may delete exactly the accounts of others; that the last administrator
      is spared needs no check, as nobody deletes themselves here. A request that fails
      changes nothing, and says why. */
  lemma {:induction false} AdminDeletionIs(db: Tables, admin: nat, user: nat, record: nat)
    requires record !in db.events
    ensures var (after, outcome) := AdminDeleted(db, admin, user, record);
            var isAdmin := admin in db.users && db.users[admin].role.Admin?;
            && (outcome == Completed <==> isAdmin && user != admin && user in db.users && TombstoneAvailable(db))
            && (outcome == Forbidden <==> !isAdmin)
            && (outcome == Invalid <==> isAdmin && user == admin)
            && (outcome == NotFound <==> isAdmin && user != admin && user !in db.users)
            && outcome != Conflict && outcome != Unauthorized
            && (if outcome == Completed then IsGone(db, after, user, record, "ACCOUNT_DELETED_ADMIN") else after == db)
  {
    hide Deleted, IsGone, WithTombstone, Admins;
    TombstoneIs(db);
    if WithTombstone(db).Some? { DeletedIsGone(db, user, record, "ACCOUNT_DELETED_ADMIN"); }
    if admin in db.users && user in db.users && admin != user && db.users[admin].role.Admin?
       && db.users[user].role.Admin? {
      TwoAdmins(db, admin, user);
    }
  }

  /** Who asks for their own deletion needs a password and gives it; a wrong one leaves one
      event behind and everything else as it was. */
  lemma {:induction false} SelfDeletionIs(db: Tables, user: nat, passwordOk: bool, record: nat)
    requires record !in db.events
    ensures var (after, outcome) := SelfDeleted(db, user, passwordOk, record);
            var hasPassword := user in db.users && db.users[user].hasPassword;
            && (outcome == Completed <==> hasPassword && passwordOk && TombstoneAvailable(db))
            && (outcome == Unauthorized <==> hasPassword && !passwordOk)
            && (outcome == Invalid <==> user in db.users && !db.users[user].hasPassword)
            && (outcome == NotFound <==> user !in db.users)
            && (if outcome == Completed then IsGone(db, after, user, record, "ACCOUNT_DELETED_SELF")
                else if outcome == Unauthorized then
                  after == db.(events := db.events[record := Event(user, "ACCOUNT_DELETE_FAILED", None)])
                else after == db)
  {
    hide Deleted, IsGone, WithTombstone;
    TombstoneIs(db);
    if WithTombstone(db).Some? { DeletedIsGone(db, user, record, "ACCOUNT_DELETED_SELF"); }
  }
}
