/** The account's `vaults` row and its `vault_snapshots` rows: the versioned upload,
    the key re-wrap, the two reads of a GET and the retention prune.

    `VaultAccount` is the mutable table; the functions say what each transaction
    does to a `Server` value, and the lemmas say what the transactions keep. */
module VaultServer {
  import opened Basics
  import opened VaultTerms

  datatype Row = Row(version: int, kek: Option<Wrap>, recovery: Option<Wrap>)
  datatype Snapshot = Snapshot(version: int, blob: Blob)
  datatype Server = Server(row: Row, snapshots: seq<Snapshot>)

  /** A wrap on the wire: 12-byte nonce, 48-byte ciphertext, both base64. */
  datatype WrapFields = WrapFields(base64: bool, nonceLen: nat, ciphertextLen: nat, wrap: Wrap)

  datatype UploadRequest = UploadRequest(
    version: int, base64: bool, nonceLen: nat, blob: Blob,
    kek: Option<WrapFields>, recovery: Option<WrapFields>)

  datatype PutReply = Accepted(version: int) | Conflict | Refused

  function WellFormed(wrap: Wrap): WrapFields {
    WrapFields(true, 12, 48, wrap)
  }

  function OnWire(wrap: Option<Wrap>): Option<WrapFields> {
    if wrap.None? then None else Some(WellFormed(wrap.value))
  }

  /** The upload a client sends; clients only send well-formed bytes. */
  function Request(version: int, blob: Blob, kek: Option<Wrap>, recovery: Option<Wrap>): UploadRequest {
    UploadRequest(version, true, 12, blob, OnWire(kek), OnWire(recovery))
  }

  function DecodeWrap(w: WrapFields): Option<Wrap> {
    if w.base64 && w.nonceLen == 12 && w.ciphertextLen == 48 then Some(w.wrap) else None
  }

  predicate Decodes(w: Option<WrapFields>) {
    w.Some? ==> DecodeWrap(w.value).Some?
  }

  /** The column after an optional wrap update that decodes. */
  function Refreshed(column: Option<Wrap>, w: Option<WrapFields>): Option<Wrap> {
    if w.None? then column else DecodeWrap(w.value)
  }

  /** SELECT MAX(version). */
  function MaxVersion(s: seq<Snapshot>): Option<int> {
    if s == [] then None else
      var last := s[|s| - 1].version;
      match MaxVersion(s[..|s| - 1])
      case None => Some(last)
      case Some(m) => Some(if m < last then last else m)
  }

  /** SELECT … ORDER BY version DESC LIMIT 1. */
  function Newest(s: seq<Snapshot>): Option<Snapshot> {
    if s == [] then None else
      var last := s[|s| - 1];
      match Newest(s[..|s| - 1])
      case None => Some(last)
      case Some(m) => Some(if m.version < last.version then last else m)
  }

  function Expected(s: seq<Snapshot>): int {
    (match MaxVersion(s) case None => 0 case Some(m) => m) + 1
  }

  function Put(s: Server, req: UploadRequest): (Server, PutReply) {
    if !req.base64 || req.nonceLen != 12 then (s, Refused)
    else if req.version != Expected(s.snapshots) then (s, Conflict)
    else if !Decodes(req.kek) || !Decodes(req.recovery) then (s, Refused)
    else
      (Server(Row(req.version, Refreshed(s.row.kek, req.kek), Refreshed(s.row.recovery, req.recovery)),
              s.snapshots + [Snapshot(req.version, req.blob)]),
       Accepted(req.version))
  }

  function PutKeys(s: Server, kek: Option<WrapFields>, recovery: Option<WrapFields>): (Server, bool) {
    if (kek.None? && recovery.None?) || !Decodes(kek) || !Decodes(recovery) then (s, false)
    else (s.(row := s.row.(kek := Refreshed(s.row.kek, kek), recovery := Refreshed(s.row.recovery, recovery))), true)
  }

  /** The bound the prune statement computes from the snapshots it sees. */
  function Cutoff(s: seq<Snapshot>, keep: nat): int {
    Expected(s) - 1 - keep
  }

  function Above(s: seq<Snapshot>, cutoff: int): seq<Snapshot> {
    if s == [] then []
    else (if s[0].version <= cutoff then [] else [s[0]]) + Above(s[1..], cutoff)
  }

  class VaultAccount {
    var version: int
    var kekWrap: Option<Wrap>
    var recoveryWrap: Option<Wrap>
    var snapshots: seq<Snapshot>

    function View(): Server
      reads this
    {
      Server(Row(version, kekWrap, recoveryWrap), snapshots)
    }

    /** Registration inserts the row with version 1, no wraps and no snapshot. */
    constructor ()
      ensures View() == Server(Row(1, None, None), [])
    {
      version, kekWrap, recoveryWrap, snapshots := 1, None, None, [];
    }

    method ApplyKekWrap(wrap: Option<WrapFields>) returns (ok: bool)
      modifies `kekWrap
      ensures ok == Decodes(wrap)
      ensures kekWrap == if ok then Refreshed(old(kekWrap), wrap) else old(kekWrap)
    {
      if wrap.None? { return true; }
      var decoded := DecodeWrap(wrap.value);
      if decoded.None? { return false; }
      kekWrap := decoded;
      ok := true;
    }

    method ApplyRecoveryWrap(wrap: Option<WrapFields>) returns (ok: bool)
      modifies `recoveryWrap
      ensures ok == Decodes(wrap)
      ensures recoveryWrap == if ok then Refreshed(old(recoveryWrap), wrap) else old(recoveryWrap)
    {
      if wrap.None? { return true; }
      var decoded := DecodeWrap(wrap.value);
      if decoded.None? { return false; }
      recoveryWrap := decoded;
      ok := true;
    }

    /** One transaction: a wrap that does not decode after the insert undoes the
        version and the snapshot as well. */
    method UpdateVault(req: UploadRequest) returns (reply: PutReply)
      modifies this
      ensures (View(), reply) == Put(old(View()), req)
    {
      if !req.base64 || req.nonceLen != 12 { return Refused; }
      var before, kekBefore, rows := version, kekWrap, snapshots;
      if req.version != Expected(snapshots) { return Conflict; }
      version := req.version;
      snapshots := snapshots + [Snapshot(req.version, req.blob)];
      var kekOk := ApplyKekWrap(req.kek);
      if kekOk {
        var recoveryOk := ApplyRecoveryWrap(req.recovery);
        if recoveryOk { return Accepted(req.version); }
      }
      version, kekWrap, snapshots := before, kekBefore, rows;
      reply := Refused;
    }

    method UpdateVaultKeys(kek: Option<WrapFields>, recovery: Option<WrapFields>) returns (ok: bool)
      modifies this
      ensures (View(), ok) == PutKeys(old(View()), kek, recovery)
    {
      if kek.None? && recovery.None? { return false; }
      var kekBefore := kekWrap;
      ok := ApplyKekWrap(kek);
      if ok {
        ok := ApplyRecoveryWrap(recovery);
        if !ok { kekWrap := kekBefore; }
      }
    }

    method Prune(cutoff: int)
      modifies `snapshots
      ensures View() == old(View()).(snapshots := Above(old(snapshots), cutoff))
    {
      snapshots := Above(snapshots, cutoff);
    }
  }

  // ---- What the transactions keep -------------------------------------------

  /** `log` is every snapshot ever accepted, version 1 first. The stored rows are
      a non-empty tail of it and the row names its length. */
  ghost predicate Stores(s: Server, log: seq<Blob>) {
    && |s.snapshots| <= |log|
    && (log != [] ==> s.snapshots != [])
    && s.row.version == (if log == [] then 1 else |log|)
    && forall i :: 0 <= i < |s.snapshots| ==>
         s.snapshots[i] == Snapshot(|log| - |s.snapshots| + i + 1, log[|log| - |s.snapshots| + i])
  }

  ghost predicate Consecutive(s: seq<Snapshot>) {
    forall i :: 0 <= i < |s| ==> s[i].version == s[0].version + i
  }

  lemma {:induction false} NewestOfConsecutive(s: seq<Snapshot>)
    requires s != [] && Consecutive(s)
    ensures MaxVersion(s) == Some(s[|s| - 1].version) && Newest(s) == Some(s[|s| - 1])
  {
    if |s| > 1 {
      NewestOfConsecutive(s[..|s| - 1]);
    }
  }

  /** The version an upload must carry, and the snapshot a GET returns. */
  lemma {:induction false} NextVersion(s: Server, log: seq<Blob>)
    requires Stores(s, log)
    ensures Expected(s.snapshots) == |log| + 1
    ensures Newest(s.snapshots) == if log == [] then None else Some(Snapshot(|log|, log[|log| - 1]))
  {
    if log != [] {
      NewestOfConsecutive(s.snapshots);
    }
  }

  /** Base64 of twelve and of forty-eight bytes. */
  predicate ProperWrap(w: Option<WrapFields>) {
    w.Some? ==> w.value.base64 && w.value.nonceLen == 12 && w.value.ciphertextLen == 48
  }

  /** A column keeps its wrap, or takes the one that came. */
  function Column(before: Option<Wrap>, w: Option<WrapFields>): Option<Wrap> {
    if w.Some? then Some(w.value.wrap) else before
  }

  /** Compare-and-set: an upload is stored exactly when it names the version after the newest ever
      accepted and its bytes are well formed; it then becomes that version, with the wraps
      that came with it, and otherwise nothing changes a single row. A wrong version is a
      conflict whatever the wraps are. */
  lemma {:induction false} PutIsCompareAndSet(s: Server, log: seq<Blob>, req: UploadRequest)
    requires Stores(s, log)
    ensures var (s', reply) := Put(s, req);
            var valid := req.base64 && req.nonceLen == 12;
            && (reply == Accepted(|log| + 1) <==>
                valid && ProperWrap(req.kek) && ProperWrap(req.recovery) && req.version == |log| + 1)
            && (reply == Conflict <==> valid && req.version != |log| + 1)
            && (reply.Accepted? ==>
                  && reply == Accepted(|log| + 1) && Stores(s', log + [req.blob])
                  && s'.row == Row(|log| + 1, Column(s.row.kek, req.kek), Column(s.row.recovery, req.recovery))
                  && s'.snapshots == s.snapshots + [Snapshot(|log| + 1, req.blob)])
            && (!reply.Accepted? ==> s' == s)
  {
    NextVersion(s, log);
  }

  /** A re-wrap needs at least one wrap and all of them well formed; it touches only the
      columns they are for. */
  lemma {:induction false} PutKeysExactly(s: Server, kek: Option<WrapFields>, recovery: Option<WrapFields>)
    ensures var (s', ok) := PutKeys(s, kek, recovery);
            && (ok <==> (kek.Some? || recovery.Some?) && ProperWrap(kek) && ProperWrap(recovery))
            && s' == if ok then Server(Row(s.row.version, Column(s.row.kek, kek), Column(s.row.recovery, recovery)),
                                       s.snapshots)
                     else s
  {
  }

  lemma {:induction false} AboveOfConsecutive(s: seq<Snapshot>, cutoff: int)
    requires Consecutive(s)
    ensures s == [] ==> Above(s, cutoff) == []
    ensures s != [] ==>
              var k := cutoff - s[0].version + 1;
              Above(s, cutoff) == s[if k < 0 then 0 else if k > |s| then |s| else k..]
  {
    if s == [] {
    } else {
      assert s[1..] != [] ==> s[1..][0] == s[1];
      assert forall i :: 0 <= i < |s[1..]| ==> s[1..][i] == s[i + 1];
      AboveOfConsecutive(s[1..], cutoff);
    }
  }

  /** A prune bound computed from an earlier, shorter log removes only a prefix
      and never the newest snapshot. */
  lemma {:induction false} StalePruneKeepsNewest(s: Server, log: seq<Blob>, cutoff: int)
    requires Stores(s, log)
    requires cutoff < |log| || cutoff <= 0
    ensures var kept := Above(s.snapshots, cutoff);
            && Stores(s.(snapshots := kept), log)
            && exists k :: 0 <= k <= |s.snapshots| && kept == s.snapshots[k..]
  {
    var rows := s.snapshots;
    AboveOfConsecutive(rows, cutoff);
    var kept := Above(rows, cutoff);
    if rows != [] {
      var k := cutoff - rows[0].version + 1;
      var cut := if k < 0 then 0 else if k > |rows| then |rows| else k;
      assert kept == rows[cut..];
      assert cut < |rows| by {
        assert rows[|rows| - 1].version == |log|;
      }
    } else {
      assert kept == rows[0..];
    }
  }

  /** Run without interleaving, a prune keeps exactly the newest min(keep, count). */
  lemma {:induction false} AtomicPruneKeeps(s: Server, log: seq<Blob>, keep: nat)
    requires Stores(s, log) && keep >= 1
    ensures var n := |s.snapshots|;
            Above(s.snapshots, Cutoff(s.snapshots, keep)) == s.snapshots[n - (if keep < n then keep else n)..]
  {
    NextVersion(s, log);
    AboveOfConsecutive(s.snapshots, Cutoff(s.snapshots, keep));
  }
}
