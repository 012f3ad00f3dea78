# SecureVault: a model of its hard parts, with proofs

SecureVault is a zero-knowledge password manager: browsers hold the vault key,
an API server holds ciphertext and wrapped keys. This project models the parts
where a mistake would lose data or let someone in, and proves what they keep.

* **Vault sync** (`VaultTerms`, `VaultServer`, `VaultTab`, `VaultProtocol`,
  `VaultSafety`, `VaultTheorems`, `VaultConflicts`, `VaultKeyFlows`, `VaultReads`,
  `VaultSettling`, `VaultRuns`, `VaultHypotheses`): any number of browser tabs of one account, the versioned upload as a compare-and-set, the
  unversioned key re-wrap, GET as two reads, the retention prune as a read and a
  later delete, a lossy network, the debounced sync manager, and the key flows
  (register, unlock with healing, Secret Key recovery, master-password change,
  legacy upgrade, kit). Every step interleaves with every other.
* **Passkey parsing** (`Cbor`, `CborCodec`, `CborGrammar`, `Webauthn`,
  `WebauthnGrammar`): the hand-written CBOR reader, COSE keys and authenticator data,
  against an encoder and against a grammar of the bytes that write a value.
* **One-time codes** (`Base32`, `Totp`): the accumulator loops over a 32-bit word,
  dynamic truncation, the drift window.
* **Server state** (`RateLimit`, `Passkeys`, `PasskeyCompletion`, `Sessions`,
  `SessionEffects`, `Accounts`): the request limiter, single-use challenges and
  counters, sessions with two-factor sign-in and what each handler brings about,
  account deletion with its tombstone.
* **Secret Key** (`SecretKey`): the printed form and its normal form.
* `Basics` holds the few definitions they share.

Code that changes state is a class or a loop, proved equal to a function of the
old state; the lemmas are about those functions and about runs of them. Check it
with `dafny verify dfyconfig.toml`.

## How to read the vault results

A document carries the whole trail of edits that made it, so that "no edit was
lost" can be said: the trail of each accepted snapshot is a prefix of the trail of
every later one. Only the text at the end of the trail is compared or shown.
AES-GCM and the key derivations are ideal: `Enc(key, tag, message)` opens with the
same key and tag and with nothing else; random vault keys are never the all-zero
key. JavaScript runs from one `await` to the next, so one step of a tab is one such
slice, followed by the React effects its store writes trigger. A tab sends one upload
at a time (`inFlight`). It may have any number of key flows under way: each page has
its own busy flag (`settings/page.tsx:147`, `:203`, `unlock/page.tsx:25`) and a handler
outlives its page. `flow` is the flow that moves next, `parked` are the others, and
`TurnTo` lets another one move. `era` counts the unlocks and rekeys of a tab; the code
has no such counter.

Five things the code relies on without checking are hypotheses (`Careful`):

1. No unlock completes while an upload, or the reload after a conflict, of the same
   tab is under way. Store writes after an `await` do not look at the lock again
   (`useVaultSync.tsx:70`, `:84-89`).
2. No unlock completes while an upgrade of the same tab is unanswered
   (`settings/page.tsx:312-313`).
3. A legacy upgrade is sent from an unlocked store (`settings/page.tsx:304-310`).
4. It began with metadata fetched since the last unlock or rekey
   (`settings/page.tsx:266`). The metadata may be stale with respect to other tabs.
5. A raw key that was overwritten is not wrapped again: recovery zeroes the buffer
   before the request is known to have succeeded (`unlock/page.tsx:194-195`).

The settling results also assume (`Tidy`):

6. A vault is unlocked only while it is locked.
7. An upgrade is sent with nothing left to sync.
8. No lock happens while an upgrade is unanswered.

Each of the eight is needed: `VaultHypotheses` has, for each, a run of a single tab from
an initial account that keeps all the others of its list and breaks a result. The results
about versions, about torn reads and about the server's transactions assume none of them.

## Where the code and its descriptions differ

The model follows the code.

* `docs/architecture.md:59` says an upload with a version not above the current one
  conflicts and clients merge both versions. The server accepts exactly the next
  version (`vault.rs:239-245`), and the client adopts the server copy.
* `settings/page.tsx:332-334` and `:483` say earlier recovery kits keep working.
  The stored recovery wrap is overwritten, so they do not: `NewKitRetiresOldKit`.
* `account.rs:5-9` says the tombstone keeps the records of deletions. It does
  exactly while the tombstone itself is not deleted, which the admin route allows:
  `TombstoneCanBeDeleted`. Whoever registers the tombstone's address first makes
  deletions fail: `SelfDeletionCompletes`.
* `middleware/rate_limit.rs:12` describes a fixed window; "m per window" lets
  2m - 1 requests through within one window's length: `BoundIsReached`.
* A limit of zero lets one request through per expired window; `TraceBound` covers it.

## Model

| member | source | states |
|---|---|---|
| `VaultTheorems.NoLostUpdate` | secure-vault/apps/web/hooks/useVaultSync.tsx:56-94 | over every careful run of any number of tabs, each with any number of key flows under way, the network and the prune: accepted snapshots are never rewritten, and the edit trail of each is a prefix of the trail of every later one |
| `VaultReads.TornReadOnlyLags` | secure-vault/crates/api/src/routes/vault.rs:87-144 | in every run, careful or not, whatever a conflict reload, a key flow or the settings page holds of a GET names a version no newer than the snapshot that came with it, and that snapshot is the accepted one of its version |
| `VaultReads.StepSeen` | secure-vault/crates/api/src/routes/vault.rs:87-144 | every step keeps that, for every answer held anywhere |
| `VaultTheorems.StoredWrapsOpenNewest` | secure-vault/apps/web/app/settings/page.tsx:264-361 | in every reachable state the stored newest snapshot is the last accepted one and opens under the key that `kek_wrap` holds; without `kek_wrap` it is sealed under the very derived key of the first snapshot; a recovery wrap never stands alone and holds the same key |
| `VaultTheorems.UnlockOpensNewest` | secure-vault/apps/web/app/unlock/page.tsx:67-173 | an uninterrupted unlock of a locked tab succeeds exactly with the password or Secret Key of the stored wrap, or on a legacy account with the password its first snapshot was sealed under, and shows the newest accepted contents at the newest version under the key of that snapshot |
| `VaultTheorems.EmptyVaultIsActivated` | secure-vault/apps/web/app/unlock/page.tsx:89-113 | a vault without any snapshot is activated by any password: the first snapshot is empty, wrapped under that password, and the tab is unlocked at version 1 |
| `VaultTheorems.KeyHierarchyStartsOnce` | secure-vault/apps/web/app/settings/page.tsx:284-313 | registration, healing and legacy upgrade together are accepted at most once in the life of a vault, and never once it has a `kek_wrap` |
| `VaultTheorems.InitNeedsNone` | secure-vault/apps/web/app/unlock/page.tsx:89-101 | an accepted PUT that carries wraps finds no `kek_wrap` and leaves one |
| `VaultTheorems.KekStays` | secure-vault/crates/api/src/routes/vault.rs:329-350 | no step removes the `kek_wrap` or changes the key inside it |
| `VaultTheorems.LegacyTabIsShutOut` | secure-vault/apps/web/app/settings/page.tsx:341-361 | a tab still holding the derived key after another upgraded: its uploads conflict, no initialising PUT of any of its key flows is accepted, its version is stale, the newest snapshot does not open for it, and it cannot begin a kit |
| `VaultTheorems.RewrapsHoldStoredKey` | secure-vault/apps/web/app/settings/page.tsx:269-282 | every re-wrap under way in any tab, whatever key the tab works under, wraps the key that the stored `kek_wrap` holds |
| `VaultTheorems.RewrapNeedsPassword` | secure-vault/apps/web/app/settings/page.tsx:269-282 | a tab may change the password exactly when its cached metadata has a `kek_wrap` that the given password opens, whatever key the tab works under; the request is then accepted and puts the same key under the new password |
| `VaultTheorems.VersionsNeverReused` | secure-vault/crates/api/src/routes/vault.rs:231-270 | every step, careful or not, keeps the stored versions consecutive up to the greatest ever accepted, which the row names; an accepted version is new |
| `VaultTheorems.ActKeepsStores` | secure-vault/crates/api/src/routes/vault.rs:217-270 | no request of any tab breaks that |
| `VaultConflicts.ConflictAdoptsNewest` | secure-vault/apps/web/hooks/useVaultSync.tsx:74-94 | after a conflict, in every reachable state, the reload run through leaves a tab that holds the key of the newest snapshot with its contents, its version, state saved, `lastSent` equal to them and no timer; with another key it keeps contents and version under an error; locked, it changes nothing; the server is only read |
| `VaultConflicts.ConflictMeansOvertaken` | secure-vault/crates/api/src/routes/vault.rs:239-245 | an upload that conflicts asked for a version that is taken |
| `VaultConflicts.AnswersHaveSnapshots` | secure-vault/apps/web/hooks/useVaultSync.tsx:83-94 | in careful runs a conflict reload always finds a snapshot, and so does an unlock of a vault with a `kek_wrap`: the rebase of an empty server vault is never reached |
| `VaultConflicts.LostReloadKeepsContents` | secure-vault/apps/web/hooks/useVaultSync.tsx:95-102 | a reload that is lost leaves contents and version as they were, under an error |
| `VaultConflicts.RefusalKeepsContents` | secure-vault/apps/web/hooks/useVaultSync.tsx:103-108 | a refused or lost upload leaves contents and version as they were, under an error |
| `VaultConflicts.LostUploadKeepsContents` | secure-vault/apps/web/hooks/useVaultSync.tsx:103-108 | so does an upload that is lost on its way there or back |
| `VaultConflicts.RetryArmsTimer` | secure-vault/apps/web/hooks/useVault.ts:121-122 | a retry clears the error and arms the timer exactly when something is unsent |
| `VaultConflicts.AcceptanceSaves` | secure-vault/apps/web/hooks/useVaultSync.tsx:69-71 | an accepted upload moves the tab to its version, saved, and arms the timer again exactly when the contents differ from those sent; the log holds what was sent at that version |
| `VaultConflicts.TimerSends` | secure-vault/apps/web/hooks/useVaultSync.tsx:52-68 | the timer sends the contents under the tab's key as the next version, or only goes out while an upload is in flight |
| `VaultConflicts.PruneKeepsNewest` | secure-vault/crates/api/src/maintenance.rs:43-61 | a prune run through leaves exactly the newest N snapshots and touches nothing else; N = 0 switches it off |
| `VaultKeyFlows.RegistrationStartsVault` | secure-vault/apps/web/app/register/page.tsx:45-68 | run through, a registration of a vault without snapshots stores an empty first one under the new key, with wraps for password and Secret Key, and unlocks the tab; of another vault it changes nothing |
| `VaultKeyFlows.UpgradeReplacesKey` | secure-vault/apps/web/app/settings/page.tsx:284-313 | run through, a legacy upgrade of a tab that is up to date, begun with metadata the current password opens, stores its contents under the new key with a wrap for the new password and rekeys the tab; any other changes nothing |
| `VaultKeyFlows.RecoveryKeepsRaw` | secure-vault/apps/web/app/unlock/page.tsx:143-169 | an unlock with the right Secret Key keeps the raw key of the stored `kek_wrap` for the new password; with a wrong one the tab is as it was |
| `VaultKeyFlows.NewMasterWrapsRecovered` | secure-vault/apps/web/app/unlock/page.tsx:187-197 | a new password after recovery stores the kept key under it and forgets the key; without a kept key nothing changes |
| `VaultKeyFlows.LostNewMasterKeepsZeros` | secure-vault/apps/web/app/unlock/page.tsx:194-201 | when that request is lost the page keeps a zeroed buffer |
| `VaultKeyFlows.KitWrapsTabKey` | secure-vault/apps/web/app/settings/page.tsx:335-361 | a kit is stored exactly when the cached metadata has a `kek_wrap` and the tab works under a random key; the recovery wrap then holds that key and nothing else changes |
| `VaultKeyFlows.PasswordOpensItsWrap` | secure-vault/apps/web/lib/vaultKeys.ts:21-30 | a password resolves to a key exactly when the `kek_wrap` was made under it with the tag of that column; a recovery wrap in its place opens nothing |
| `VaultKeyFlows.SecretOpensItsWrap` | secure-vault/apps/web/lib/vaultKeys.ts:41-51 | a Secret Key resolves exactly to what its own recovery wrap holds |
| `VaultKeyFlows.LockForgets` | secure-vault/apps/web/hooks/useVault.ts:75-85 | a lock forgets contents and key and leaves no timer |
| `VaultKeyFlows.EditIsAdded` | secure-vault/apps/web/hooks/useVault.ts:87-99 | an edit is appended to the trail and the timer armed exactly when the contents are unsent |
| `VaultKeyFlows.UnlockHasNothingToSend` | secure-vault/apps/web/hooks/useVaultSync.tsx:29-37 | right after an unlock of a locked tab `lastSent` is what it shows and no timer is armed |
| `VaultKeyFlows.MetadataIsCached` | secure-vault/apps/web/app/settings/page.tsx:225-231 | the settings page caches the row and newest snapshot it is sent |
| `VaultKeyFlows.UnlockTakesAnswer` | secure-vault/apps/web/app/unlock/page.tsx:50-65 | whatever GET answered, torn or not, an unlock shows its snapshot exactly when the secret resolves to that snapshot's key, at the version of the row; otherwise the flow ends and the tab is as it was |
| `VaultKeyFlows.ReloadTakesAnswer` | secure-vault/apps/web/hooks/useVaultSync.tsx:83-102 | so does a reload after a conflict; with another key it ends in an error |
| `VaultKeyFlows.UnlockWithoutSnapshot` | secure-vault/apps/web/app/unlock/page.tsx:89-118 | an answer with a `kek_wrap` and no snapshot opens an empty vault at the version of the row; one with neither activates the vault |
| `VaultKeyFlows.ReloadWithoutSnapshot` | secure-vault/apps/web/hooks/useVaultSync.tsx:90-94 | a reload that finds no snapshot rebases the tab's own contents to version 0, saved |
| `VaultKeyFlows.LostFlowChangesNothing` | secure-vault/apps/web/app/unlock/page.tsx:102-123 | a key flow whose request or answer is lost ends and leaves the tab as it was |
| `VaultSafety.StepKeepsSafe` | secure-vault/crates/api/src/routes/vault.rs:217-285 | the protocol invariant (server rows, wraps, log chain, every tab store, upload, reload, key flow and cached metadata) is kept by every careful step |
| `VaultSafety.InitialIsSafe` | secure-vault/apps/web/app/register/page.tsx:45-68 | the invariant holds of a new account and of a legacy account, with every tab locked |
| `VaultSafety.RunKeepsSafe` | secure-vault/apps/web/hooks/useVaultSync.tsx:52-109 | the invariant holds after every careful run, and accepted snapshots stay |
| `VaultSettling.QuietTabIsSaved` | secure-vault/apps/web/hooks/useVaultSync.tsx:29-112 | over tidy runs, an unlocked tab with no timer, nothing in flight and no error shows the contents of an accepted snapshot no older than its version |
| `VaultSettling.TwoUploadsSettle` | secure-vault/apps/web/hooks/useVaultSync.tsx:52-71 | after its last edit an up-to-date tab makes at most two uploads and stops within six sync steps of its own, whatever else interleaves as long as nothing else is accepted, and then the newest snapshot shows what the tab shows, though timers that fire in flight are dropped |
| `VaultSettling.EditIsUpToDate` | secure-vault/apps/web/hooks/useVaultSync.tsx:39-52 | an edit in a quiet, current tab leaves it up to date in that sense |
| `VaultSettling.StepKeepsSettling` | secure-vault/apps/web/hooks/useVaultSync.tsx:29-112 | the settling invariant is kept by every tidy step |
| `VaultSettling.EffectsSettle` | secure-vault/apps/web/hooks/useVaultSync.tsx:30-50 | the two effects seed `lastSent` exactly when a key appears or an empty vault was never synced, and arm the timer exactly when an unlocked vault differs from what was last sent |
| `VaultHypotheses.LateAnswerLosesAnEdit` | secure-vault/apps/web/hooks/useVaultSync.tsx:69-71 | a run from a new account, careful but for an unlock that completes while the tab's own PUT is unanswered, loses an accepted edit |
| `VaultHypotheses.OvertakenUpgradeLosesAnEdit` | secure-vault/apps/web/app/settings/page.tsx:304-313 | a run from a legacy account, careful but for an unlock that completes while the tab's own upgrade is unanswered, loses an accepted edit |
| `VaultHypotheses.OutdatedUpgradeReplacesKey` | secure-vault/apps/web/app/settings/page.tsx:266-313 | a run careful but for a second upgrade begun with metadata from before the first replaces the key inside the `kek_wrap` |
| `VaultHypotheses.RetriedRewrapLocksOut` | secure-vault/apps/web/app/unlock/page.tsx:191-196 | a run careful but for the retry of a failed re-wrap stores a wrap of the zeroed buffer: no password opens it to the key of the newest snapshot |
| `VaultHypotheses.UpgradeFromLockedStoreEmptiesVault` | secure-vault/apps/web/app/settings/page.tsx:304-313 | a run careful but for an upgrade sent from a locked store whose version a late answer restored replaces the vault by empty contents |
| `VaultHypotheses.UnsyncedUpgradeStrands` | secure-vault/apps/web/app/settings/page.tsx:304-313 | a run tidy but for an upgrade sent with an unsynced edit that is then undone leaves the tab quiet at a snapshot that still shows the edit |
| `VaultHypotheses.UnlockTwiceStrands` | secure-vault/apps/web/hooks/useVaultSync.tsx:30-37 | a run tidy but for an unlock of an unlocked tab, which does not seed `lastSent` again, leaves the tab quiet and not saved |
| `VaultHypotheses.LockDuringUpgradeStrands` | secure-vault/apps/web/hooks/useVaultSync.tsx:30-50 | a run tidy but for a lock while an upgrade is unanswered, whose answer gives the locked store a key, leaves the tab quiet and not saved after the next unlock |
| `VaultRuns.PathIsRun` | secure-vault/apps/web/hooks/useVaultSync.tsx:52-109 | the action lists of these runs are runs of the protocol |
| `VaultHypotheses.KitOutlivesStaleUnlock` | secure-vault/apps/web/app/settings/page.tsx:348-361 | a careful run in which a tab is back at the derived key, through an unlock answered before the upgrade, while its own kit is in flight |
| `VaultHypotheses.NewKitRetiresOldKit` | secure-vault/apps/web/app/settings/page.tsx:332-361 | once a kit is stored, exactly its own Secret Key resolves; an earlier kit does not |
| `VaultServer.PutIsCompareAndSet` | secure-vault/crates/api/src/routes/vault.rs:201-285 | an upload is accepted exactly when its bytes are well formed (12-byte nonces, 48-byte wraps) and it names the version after the newest ever accepted; then row, wraps and snapshot are those of the upload; a wrong version is a conflict; otherwise nothing changes |
| `VaultServer.PutKeysExactly` | secure-vault/crates/api/src/routes/vault.rs:318-350 | a re-wrap needs at least one wrap and all of them well formed; it changes exactly the columns they are for |
| `VaultServer.NextVersion` | secure-vault/crates/api/src/routes/vault.rs:231-239 | the expected version and the snapshot a GET returns, whatever was pruned |
| `VaultServer.NewestOfConsecutive` | secure-vault/crates/api/src/routes/vault.rs:119-130 | MAX(version) and ORDER BY version DESC LIMIT 1 both name the last row of consecutive rows |
| `VaultServer.StalePruneKeepsNewest` | secure-vault/crates/api/src/maintenance.rs:43-61 | a prune whose bound was read before later uploads removes only a prefix and never the newest snapshot |
| `VaultServer.AtomicPruneKeeps` | secure-vault/crates/api/src/maintenance.rs:47-55 | run atomically a prune keeps exactly the newest min(N, count) |
| `VaultServer.VaultAccount.constructor` | secure-vault/crates/api/src/routes/auth.rs:217-230 | the registered row: version 1, no wraps, no snapshot |
| `VaultServer.VaultAccount.ApplyKekWrap` | secure-vault/crates/api/src/routes/vault.rs:178-199 | stores a wrap that decodes, refuses one that does not |
| `VaultServer.VaultAccount.ApplyRecoveryWrap` | secure-vault/crates/api/src/routes/vault.rs:178-199 | the same for the recovery column |
| `VaultServer.VaultAccount.UpdateVault` | secure-vault/crates/api/src/routes/vault.rs:201-285 | the transaction, rolled back as a whole, is the `Put` that PutIsCompareAndSet characterises |
| `VaultServer.VaultAccount.UpdateVaultKeys` | secure-vault/crates/api/src/routes/vault.rs:318-350 | the re-wrap transaction: at least one wrap, all of them or none |
| `VaultServer.VaultAccount.Prune` | secure-vault/crates/api/src/maintenance.rs:47-58 | deletes exactly the rows at or below the bound |
| `VaultTab.VaultTabState.constructor` | secure-vault/apps/web/hooks/useVault.ts:56-68 | a new tab: locked, empty, version 0 |
| `VaultTab.VaultTabState.Effects` | secure-vault/apps/web/hooks/useVaultSync.tsx:27-52 | both effects, in order, as the function the lemmas reason about |
| `VaultTab.VaultTabState.Unlock` | secure-vault/apps/web/hooks/useVault.ts:70-71 | store and refs after unlock |
| `VaultTab.VaultTabState.Lock` | secure-vault/apps/web/hooks/useVault.ts:75-85 | store and refs after lock |
| `VaultTab.VaultTabState.ChangeContents` | secure-vault/apps/web/hooks/useVault.ts:87-99 | store and refs after an edit |
| `VaultTab.VaultTabState.RetrySync` | secure-vault/apps/web/hooks/useVault.ts:121-122 | store and refs after retrySync |
| `VaultTab.VaultTabState.FireTimer` | secure-vault/apps/web/hooks/useVaultSync.tsx:52-68 | what the timer sends, or that it is dropped |
| `VaultTab.VaultTabState.AnswerUpload` | secure-vault/apps/web/hooks/useVaultSync.tsx:69-76 | what the answer of the PUT changes |
| `VaultTab.VaultTabState.ApplyServerContents` | secure-vault/apps/web/hooks/useVault.ts:124-125 | adopting a server copy |
| `VaultTab.VaultTabState.ArriveReload` | secure-vault/apps/web/hooks/useVaultSync.tsx:77-94 | what the reload after a conflict does |
| `VaultTab.VaultTabState.DecryptReload` | secure-vault/apps/web/hooks/useVaultSync.tsx:83-103 | adopting the decrypted copy, or the error |
| `VaultTab.VaultTabState.EnterVault` | secure-vault/apps/web/app/unlock/page.tsx:50-65 | contents and version that an unlock loads |
| `VaultTab.VaultTabState.FinishUnlock` | secure-vault/apps/web/app/unlock/page.tsx:78-169 | unlock with master password (with healing) or Secret Key |
| `VaultTab.VaultTabState.StartUpgrade` | secure-vault/apps/web/app/settings/page.tsx:284-302 | the checks on the metadata and the new key, before anything is read from the store |
| `VaultTab.VaultTabState.SendUpgrade` | secure-vault/apps/web/app/settings/page.tsx:304-310 | the legacy upgrade request, from the store as it then is |
| `VaultTab.VaultTabState.AnswerFlow` | secure-vault/apps/web/app/settings/page.tsx:311-313 | what the answer of an initialising PUT does to the store |
| `VaultTab.VaultTabState.StartRewrap` | secure-vault/apps/web/app/settings/page.tsx:269-282 | the master-password change request |
| `VaultTab.VaultTabState.StartNewMaster` | secure-vault/apps/web/app/unlock/page.tsx:187-195 | the recovery re-wrap request, and the buffer zeroed before it |
| `VaultTab.VaultTabState.StartKit` | secure-vault/apps/web/app/settings/page.tsx:335-361 | the kit request |
| `CborCodec.RoundTrip` | secure-vault/crates/webauthn/src/lib.rs:425-459 | reading the shortest-head encoding of a value (section 3 of RFC 8949), whatever follows, returns the value and consumes exactly the encoding |
| `CborCodec.PrefixDecides` | secure-vault/crates/webauthn/src/lib.rs:400-459 | the result depends only on the consumed prefix |
| `CborCodec.ReencodesNoLonger` | secure-vault/crates/webauthn/src/lib.rs:410-459 | what was read is encodable and its shortest encoding is no longer than what was consumed |
| `CborCodec.AcceptedValues` | secure-vault/crates/webauthn/src/lib.rs:425-459 | the reader yields a value from some input exactly when the value is encodable |
| `CborGrammar.ReadsExactly` | secure-vault/crates/webauthn/src/lib.rs:400-459 | a value and a length are read exactly when that prefix of the input writes the value, with heads of any of the five widths, so nothing else is accepted |
| `CborGrammar.TopLevelReadsExactly` | secure-vault/crates/webauthn/src/lib.rs:463-472 | a top-level map is accepted exactly when some prefix writes it |
| `CborGrammar.OthersAreRefused` | secure-vault/crates/webauthn/src/lib.rs:410-459 | tags, simple values, floats and indefinite or reserved lengths are errors |
| `CborGrammar.Utf8Exactly` | secure-vault/crates/webauthn/src/lib.rs:437-440 | a text is accepted exactly when it is the encodings of Unicode scalar values (section 3 of RFC 3629) |
| `CborCodec.HeadRoundTrip` | secure-vault/crates/webauthn/src/lib.rs:410-423 | heads of all widths round trip |
| `CborCodec.HeadShortest` | secure-vault/crates/webauthn/src/lib.rs:410-423 | the shortest head is no longer than the one read |
| `Cbor.ParseValue` | secure-vault/crates/webauthn/src/lib.rs:425-459 | terminates on every input; on success a non-empty prefix within bounds was consumed |
| `Cbor.ParseItems` | secure-vault/crates/webauthn/src/lib.rs:441-447 | an array of the declared count, within bounds, or an error |
| `Cbor.ParseEntries` | secure-vault/crates/webauthn/src/lib.rs:448-456 | a map of the declared count, within bounds, or an error |
| `Cbor.Reader.constructor` | secure-vault/crates/webauthn/src/lib.rs:464 | a reader at the start of its input |
| `Cbor.Reader.Take` | secure-vault/crates/webauthn/src/lib.rs:401-408 | the next n bytes and the cursor after them, or an error and the cursor unmoved |
| `Cbor.Reader.ReadHead` | secure-vault/crates/webauthn/src/lib.rs:410-423 | the head that ParseHead defines, cursor after it |
| `Cbor.Reader.ReadValue` | secure-vault/crates/webauthn/src/lib.rs:425-459 | the recursive reader over a cursor computes the value or error of ParseValue and stops after it |
| `Cbor.Reader.ReadItems` | secure-vault/crates/webauthn/src/lib.rs:441-447 | the array loop, for declared counts of any size |
| `Cbor.Reader.ReadEntries` | secure-vault/crates/webauthn/src/lib.rs:448-456 | the map loop |
| `Cbor.ReadTopLevelMap` | secure-vault/crates/webauthn/src/lib.rs:463-472 | only maps are accepted; a head read twice reads the same |
| `Webauthn.LookupFindsBinding` | secure-vault/crates/webauthn/src/lib.rs:384-392 | with distinct labels a look-up finds a binding exactly when the map has it, in any order |
| `Webauthn.Ec2RoundTrip` | secure-vault/crates/webauthn/src/cose.rs:65-98 | an encoded map with distinct labels parses to an EC2 key exactly when it binds kty 2, alg -7, P-256 and both coordinates, whatever follows; the point is 0x04, x, y |
| `Webauthn.RsaRoundTrip` | secure-vault/crates/webauthn/src/cose.rs:65-115 | the same for RSA keys |
| `Webauthn.TrailingBytesIgnored` | secure-vault/crates/webauthn/src/cose.rs:65-118 | bytes after a key never change it |
| `Webauthn.HeaderRoundTrip` | secure-vault/crates/webauthn/src/lib.rs:278-292 | hash, flags and counter of the fixed part come back |
| `Webauthn.AuthDataRoundTrip` | secure-vault/crates/webauthn/src/lib.rs:278-322 | build then parse returns id, key, flags and counter for every id below 65536 bytes and any extension bytes; the stored bytes parse to the key again; without the flag there is no credential |
| `WebauthnGrammar.FindsFirst` | secure-vault/crates/webauthn/src/lib.rs:384-392 | a look-up finds exactly the value of the first entry with that integer label, in any map |
| `WebauthnGrammar.Ec2KeysExactly` | secure-vault/crates/webauthn/src/cose.rs:65-98 | any bytes are an EC2 key with that point exactly when they start with a map whose first bindings are kty 2, alg -7, P-256 and the coordinates |
| `WebauthnGrammar.RsaKeysExactly` | secure-vault/crates/webauthn/src/cose.rs:65-117 | and an RSA key exactly when they are kty 3, alg -257, modulus and exponent |
| `WebauthnGrammar.HeadersExactly` | secure-vault/crates/webauthn/src/lib.rs:278-292 | any bytes parse as authenticator data exactly when they start with that hash, flags byte and big-endian counter |
| `WebauthnGrammar.CredentialsExactly` | secure-vault/crates/webauthn/src/lib.rs:304-322 | a credential is found exactly when bit 6 is set and an aaguid, a 16-bit length, the id and a key follow; all bytes from the key on are stored |
| `WebauthnGrammar.FlagIsBit` | secure-vault/crates/webauthn/src/lib.rs:306 | the flag test is the mask on the byte |
| `Base32.RoundTrip` | secure-vault/crates/crypto/src/totp.rs:19-61 | decode(encode(d)) = d for every byte string; ceil(8\|d\|/5) characters of the alphabet (section 6 of RFC 4648) |
| `Base32.OnlySymbolsMatter` | secure-vault/crates/crypto/src/totp.rs:47-52 | texts equal up to case, whitespace and `=` decode alike |
| `Base32.DecodesExactly` | secure-vault/crates/crypto/src/totp.rs:42-61 | a text decodes exactly when every character is a letter of either case, a digit from 2 to 7, `=` or whitespace |
| `Base32.SkipsPaddingAndSpace` | secure-vault/crates/crypto/src/totp.rs:47-49 | padding or whitespace inserted anywhere changes nothing |
| `Base32.IgnoresCase` | secure-vault/crates/crypto/src/totp.rs:50-53 | nor does the case of any letter |
| `Base32.DecodesBits` | secure-vault/crates/crypto/src/totp.rs:42-61 | the decoded bytes are the bits of the symbols, five each by their place in the alphabet, as far as they fill whole bytes |
| `Base32.EncodesBits` | secure-vault/crates/crypto/src/totp.rs:19-38 | the symbols written are the bits of the data, five each, filled up with zeros |
| `Base32.Base32Encode` | secure-vault/crates/crypto/src/totp.rs:19-38 | the accumulator loop writes the zero-filled five-bit groups of the data bits |
| `Base32.Base32Decode` | secure-vault/crates/crypto/src/totp.rs:42-61 | the accumulator loop returns the whole bytes of the symbol bits, or None |
| `Base32.ShiftIn` | secure-vault/crates/crypto/src/totp.rs:25-53 | shifting into a 32-bit word that loses its high bits keeps the low bits that are still to be written |
| `Base32.ShiftOut` | secure-vault/crates/crypto/src/totp.rs:27-57 | the bits taken off the top and those left below |
| `Base32.WordStep` | secure-vault/crates/crypto/src/totp.rs:25-53 | or-ing on 32-bit words is the sum used in the loops |
| `Totp.TruncateIsWord` | secure-vault/crates/crypto/src/totp.rs:75-82 | the code is the 31-bit big-endian word at the offset in the last four bits, modulo ten to the digits; the word lies inside the 20 bytes (section 5.3 of RFC 4226) |
| `Totp.WordIsSum` | secure-vault/crates/crypto/src/totp.rs:76-79 | masks, shifts and ors make that word |
| `Totp.CounterBytesIdentify` | secure-vault/crates/crypto/src/totp.rs:72 | the authenticated eight bytes are the counter, so distinct counters give distinct messages |
| `Totp.VerifyTotp` | secure-vault/crates/crypto/src/totp.rs:90-119 | the drift loop accepts exactly when the trimmed code is six digits, the secret decodes, and the code equals HOTP at some counter in [max(0, T-w), T+w] |
| `Totp.HotpIsWord` | secure-vault/crates/crypto/src/totp.rs:70-82 | HOTP keys the HMAC with the secret, feeds it the eight bytes whose bits are the counter, and keeps the last digits of the 31-bit word of that digest |
| `Totp.AcceptedAreDisplayed` | secure-vault/crates/crypto/src/totp.rs:90-119 | a code is accepted exactly when some device with the decoded secret and a clock within the window, in steps of 30 seconds, displays it (section 5.2 of RFC 6238) |
| `Totp.TrimIsCode` | secure-vault/crates/crypto/src/totp.rs:91 | a text trims to a code exactly when it is the code with whitespace around it |
| `Totp.DeviceDisplaysOneCode` | secure-vault/crates/crypto/src/totp.rs:70-82 | a device displays one code of six digits at any time |
| `Totp.FewCodesAreValid` | secure-vault/crates/crypto/src/totp.rs:103-117 | at most 2w+1 six-digit codes are valid at any moment |
| `Totp.EnrolledDeviceIsAccepted` | secure-vault/crates/crypto/src/totp.rs:65-119 | for every secret, what a device enrolled with its text displays is accepted, with any whitespace around it, while its clock is at most the window off |
| `RateLimit.TraceBound` | secure-vault/crates/api/src/middleware/rate_limit.rs:41-58 | in any trace of any keys with non-decreasing times, a closed interval of k >= 1 windows has fewer than (k+1)*m allowed requests of one key |
| `RateLimit.KeysAreIndependent` | secure-vault/crates/api/src/middleware/rate_limit.rs:45 | what a key is answered depends only on its own requests |
| `RateLimit.AllowsExactly` | secure-vault/crates/api/src/middleware/rate_limit.rs:41-58 | request i of a key is allowed exactly when fewer than the limit came before it in its window or it opens a window; a window opens with the first request, or the first later than the window before; a denied request prolongs nothing |
| `RateLimit.BoundIsReached` | secure-vault/crates/api/src/middleware/rate_limit.rs:47-57 | for every k the bound is reached when a window is at least k long: (k+1)*m - 1 requests within k windows' length, so 2m - 1 within one |
| `RateLimit.WorstIsOrdered` | secure-vault/crates/api/src/middleware/rate_limit.rs:47-57 | the times of the trace that reaches it do not decrease |
| `RateLimit.RateLimiter.constructor` | secure-vault/crates/api/src/middleware/rate_limit.rs:31-37 | an empty map and its limits |
| `RateLimit.RateLimiter.Check` | secure-vault/crates/api/src/middleware/rate_limit.rs:41-58 | the decision and the whole new map |
| `Passkeys.TakeSucceedsExactly` | secure-vault/crates/api/src/state.rs:45-72 | a take succeeds exactly for an id inserted less than 300 s ago that no later operation took or replaced |
| `Passkeys.ReapingIsInvisible` | secure-vault/crates/api/src/state.rs:51 | reaping on insert cannot be told from a log that never forgets |
| `Passkeys.CompletesOnce` | secure-vault/crates/api/src/routes/passkeys.rs:112-114 | between two completions of a ceremony id, the id was issued anew; so a ceremony completes at most once |
| `Passkeys.CompletedWasIssued` | secure-vault/crates/api/src/routes/passkeys.rs:230-232 | a completed ceremony was issued less than 300 s before, and to the account it completes for |
| `PasskeyCompletion.LoginCompletesExactly` | secure-vault/crates/api/src/routes/passkeys.rs:225-275 | a sign-in step of a run completes exactly when a step less than 300 s before issued its challenge, none has taken it since, the passkey is stored and not revoked, belongs to the address named, if any, the assertion checked out and the counter went forward or is not kept; then exactly the counter is stored and the owner signed in |
| `PasskeyCompletion.RegisterCompletesExactly` | secure-vault/crates/api/src/routes/passkeys.rs:107-158 | a registration step completes exactly when such a challenge was issued to the caller's address, the attestation checked out and no passkey, revoked or not, has the credential id; then exactly that passkey is added |
| `PasskeyCompletion.RevokedNeverSignsIn` | secure-vault/crates/api/src/routes/passkeys.rs:351-369 | a revoked passkey never signs in again while its owner exists |
| `PasskeyCompletion.DeletionTakesPasskeys` | secure-vault/migrations/001_initial_schema.sql:13-79 | deleting an account removes it and exactly its own passkeys |
| `PasskeyCompletion.DeletedNeverRegisters` | secure-vault/crates/api/src/routes/passkeys.rs:117-126 | after it no ceremony, also one begun before, registers a passkey for that account |
| `PasskeyCompletion.TakesWhatWasIssued` | secure-vault/crates/api/src/state.rs:45-72 | what a ceremony finds is the challenge of the last step that issued its id, if none took it and it is younger than 300 s |
| `Passkeys.CountersIncrease` | secure-vault/crates/webauthn/src/lib.rs:173-180 | accepted counters of a passkey strictly increase along every run in which no accepted one is zero and the owner is not deleted |
| `Passkeys.CountersExceedRegistered` | secure-vault/crates/api/src/routes/passkeys.rs:269-275 | under the same conditions all exceed the registered counter |
| `Passkeys.OwnerStays` | secure-vault/crates/api/src/routes/passkeys.rs:137-154 | whose a credential is, its key and its revocation never change while the owner's account exists, whatever is registered or revoked later |
| `Passkeys.DeletionFreesCredential` | secure-vault/crates/api/src/routes/account.rs:193-197 | once the owner is deleted, another account may register the credential id with another key and any counter |
| `Passkeys.ChallengeStore.constructor` | secure-vault/crates/api/src/state.rs:39 | an empty store |
| `Passkeys.ChallengeStore.Insert` | secure-vault/crates/api/src/state.rs:45-61 | reap, then insert |
| `Passkeys.ChallengeStore.Take` | secure-vault/crates/api/src/state.rs:65-72 | remove always, return only what is alive |
| `Passkeys.PasskeyServer.constructor` | secure-vault/crates/api/src/state.rs:33-41 | a server with no passkeys and no challenges |
| `Passkeys.PasskeyServer.RegisterFinish` | secure-vault/crates/api/src/routes/passkeys.rs:107-162 | the handler with all its refusals, challenge consumed in each |
| `Passkeys.PasskeyServer.LoginFinish` | secure-vault/crates/api/src/routes/passkeys.rs:225-279 | the handler with all its refusals, challenge consumed in each, counter stored on success |
| `Sessions.AcceptedIsGranted` | secure-vault/crates/api/src/middleware/auth.rs:57-99 | over every interleaving of handlers split at their writes: a session accepted off the challenge path comes from a registration, a passkey, a password login that saw two-factor off, or a code checked on that very token |
| `Sessions.EnabledWhileSigningIn` | secure-vault/crates/api/src/routes/auth.rs:290-351 | a login that read two-factor off still opens a full session when two-factor is enabled before the session is inserted |
| `Sessions.DeadIsRejectedForever` | secure-vault/crates/api/src/middleware/auth.rs:87-93 | a revoked or expired token is rejected on every path for ever, through clean-up and late challenges |
| `Sessions.CleanUpIsInvisible` | secure-vault/crates/api/src/maintenance.rs:30-41 | deleting expired and long-revoked rows never changes what is accepted, at any moment of any run |
| `Sessions.AcceptedWasOpenedToday` | secure-vault/crates/api/src/routes/auth.rs:124-126 | nothing prolongs a session: an accepted one was opened at most 24 hours ago |
| `Sessions.EnabledMeansSecret` | secure-vault/crates/api/src/routes/auth.rs:575-581 | `totp_enabled` holds exactly when a secret is stored, in every reachable state |
| `Sessions.TurnedOffWithCode` | secure-vault/crates/api/src/routes/auth.rs:621-647 | whatever interleaves, two-factor goes off only by a request from a full session of that account with the password and a code valid for the stored secret |
| `Sessions.TurnedOnWithCode` | secure-vault/crates/api/src/routes/auth.rs:544-581 | two-factor goes on only by a code valid for the pending secret of a full session of that account, and that secret is then the stored one |
| `Sessions.TaskWasRead` | secure-vault/crates/api/src/routes/auth.rs:544-569 | what a handler writes was decided from the tables at the moment it read them |
| `Sessions.PerformStoresSecrets` | secure-vault/crates/api/src/routes/auth.rs:642-647 | every single write keeps that |
| `Sessions.TokensOpenOnce` | secure-vault/crates/api/src/routes/auth.rs:124-140 | with fresh tokens each is opened by one handler only |
| `SessionEffects.SigningOutTakesEffect` | secure-vault/crates/api/src/routes/auth.rs:407-414 | whatever interleaves, when a log-out, an administrator's revocation or a device revocation finishes, each session it is for is revoked, unless it was before, and rejected on every path from then on, and every other row is as it was |
| `SessionEffects.SignedOutForever` | secure-vault/crates/api/src/routes/devices.rs:103-125 | and no later step of any run lets such a session in again |
| `SessionEffects.SigningInTakesEffect` | secure-vault/crates/api/src/routes/auth.rs:119-143 | a registration, passkey or password sign-in finishes with a session let in for exactly 86400 s, on every path or, when the sign-in saw two-factor on, on the challenge path only; no other row changes |
| `SessionEffects.ChallengeTakesEffect` | secure-vault/crates/api/src/routes/auth.rs:666-707 | a right code on a live session that awaits one makes that session full; any other request changes nothing |
| `SessionEffects.SetupTakesEffect` | secure-vault/crates/api/src/routes/auth.rs:503-520 | a set-up keeps its secret as pending exactly for a full session of an account with two-factor off |
| `SessionEffects.VerifyTakesEffect` | secure-vault/crates/api/src/routes/auth.rs:539-581 | a code for the pending secret turns two-factor on with that secret; anything less changes nothing |
| `SessionEffects.DisableTakesEffect` | secure-vault/crates/api/src/routes/auth.rs:599-647 | password and code together turn it off and forget both secrets; anything less changes nothing |
| `SessionEffects.DeletionTakesEffect` | secure-vault/migrations/001_initial_schema.sql:13-79 | a deleted account takes exactly its own sessions with it |
| `SessionEffects.CleanUpDeletesExactly` | secure-vault/crates/api/src/maintenance.rs:30-41 | a clean-up deletes exactly the expired rows and those revoked more than seven days ago |
| `SessionEffects.PendingWasSetUp` | secure-vault/crates/api/src/routes/auth.rs:503-520 | a pending secret is what a full session of that account, with two-factor off, set up |
| `SessionEffects.DecisionStays` | secure-vault/crates/api/src/routes/auth.rs:539-581 | what a handler decided stays as it was read until it writes |
| `Sessions.AuthServer.constructor` | secure-vault/migrations/001_initial_schema.sql:58-66 | empty tables |
| `Sessions.AuthServer.Authenticate` | secure-vault/crates/api/src/middleware/auth.rs:57-107 | returns the session row exactly when it is accepted |
| `Sessions.AuthServer.LoginRead` | secure-vault/crates/api/src/routes/auth.rs:289-351 | what a login decides to write |
| `Sessions.AuthServer.SetupRead` | secure-vault/crates/api/src/routes/auth.rs:503-518 | what a set-up decides to write |
| `Sessions.AuthServer.VerifyRead` | secure-vault/crates/api/src/routes/auth.rs:539-581 | what confirming a set-up decides to write |
| `Sessions.AuthServer.DisableRead` | secure-vault/crates/api/src/routes/auth.rs:599-647 | what disabling decides to write |
| `Sessions.AuthServer.ChallengeRead` | secure-vault/crates/api/src/routes/auth.rs:666-707 | what a challenge decides to write |
| `Sessions.AuthServer.LogoutRead` | secure-vault/crates/api/src/routes/auth.rs:407-414 | that logout revokes the caller's sessions |
| `Sessions.AuthServer.InsertSession` | secure-vault/crates/api/src/routes/auth.rs:128-140 | the insert, with the constraints that can refuse it |
| `Sessions.AuthServer.StorePending` | secure-vault/crates/api/src/routes/auth.rs:514-518 | the new tables |
| `Sessions.AuthServer.EnableTwoFactor` | secure-vault/crates/api/src/routes/auth.rs:575-581 | the new tables |
| `Sessions.AuthServer.DisableTwoFactor` | secure-vault/crates/api/src/routes/auth.rs:642-647 | the new tables |
| `Sessions.AuthServer.RevokeUserSessions` | secure-vault/crates/auth/src/lib.rs:97-104 | the new tables: rows revoked before keep their time |
| `Sessions.AuthServer.ActivateSession` | secure-vault/crates/api/src/routes/auth.rs:703-707 | the new tables |
| `Sessions.AuthServer.CleanUp` | secure-vault/crates/api/src/maintenance.rs:30-41 | both deletes and the count of rows removed |
| `Accounts.AuditIsConserved` | secure-vault/crates/api/src/routes/account.rs:167-201 | over every run that spares the tombstone: no audit event is lost, each deletion and each logged action adds exactly one, no row refers to a missing user |
| `Accounts.StepKeepsTrail` | secure-vault/crates/api/src/routes/account.rs:121-162 | a step keeps every event, and a completed deletion its record, exactly unless it is an administrator's request to delete the existing tombstone |
| `Accounts.TombstoneRequestCompletes` | secure-vault/crates/api/src/routes/account.rs:128-155 | such a request is always carried out |
| `Accounts.DeletionKeepsTrailExactly` | secure-vault/crates/api/src/routes/account.rs:167-201 | one deletion keeps the trail and leaves one record exactly when its target is not the tombstone; it removes that user with the rows of theirs and no others |
| `Accounts.TombstoneCanBeDeleted` | secure-vault/crates/api/src/routes/account.rs:128-155 | an administrator can delete the tombstone, and exactly its events, the new record included, are lost |
| `Accounts.SelfDeletionCompletes` | secure-vault/crates/api/src/routes/account.rs:60-96 | a self-deletion completes exactly with a known user, a password set and given, and the tombstone present or its address free |
| `Accounts.AdminDeletionIs` | secure-vault/crates/api/src/routes/account.rs:121-160 | an administrator's deletion completes exactly for another existing account while the tombstone exists or its address is free, each refusal has its cause, the last-administrator check never fires, and a refusal changes nothing; what a completed one leaves is stated in full |
| `Accounts.SelfDeletionIs` | secure-vault/crates/api/src/routes/account.rs:60-100 | the same for a self-deletion; a wrong password leaves exactly one event |
| `Accounts.AccountServer.constructor` | secure-vault/migrations/001_initial_schema.sql:3-9 | empty tables |
| `Accounts.AccountServer.EnsureTombstone` | secure-vault/crates/api/src/routes/account.rs:35-48 | creates the account, or fails when another holds its address |
| `Accounts.AccountServer.DeleteUser` | secure-vault/crates/api/src/routes/account.rs:167-201 | the three statements in order |
| `Accounts.AccountServer.DeleteAccount` | secure-vault/crates/api/src/routes/account.rs:60-96 | the self-service handler with all its refusals |
| `Accounts.AccountServer.AdminDeleteAccount` | secure-vault/crates/api/src/routes/account.rs:121-162 | the admin handler with all its refusals |
| `SecretKey.NormalizesExactly` | secure-vault/apps/web/lib/crypto.ts:137-154 | any text normalizes to a key exactly when its upper case writes that key, each character as itself or as a lookalike, with any other characters between |
| `SecretKey.AsciiIsWritten` | secure-vault/apps/web/lib/crypto.ts:137-142 | of an ASCII text the case does not matter: the text itself writes the key |
| `SecretKey.DisplayRoundTrip` | secure-vault/apps/web/lib/crypto.ts:128-154 | the grouped display normalizes to the key |
| `SecretKey.PicksExactly` | secure-vault/apps/web/lib/crypto.ts:120-127 | the key has one symbol for each random number, the one at its remainder by 32 |
| `SecretKey.PickIsUnbiased` | secure-vault/apps/web/lib/crypto.ts:123 | of all 32-bit numbers exactly 2^27 pick any given symbol |
| `SecretKey.DisplaysFourGroups` | secure-vault/apps/web/lib/crypto.ts:128 | a key is printed as four groups of eight with dashes between |
| `SecretKey.RefusesExactly` | secure-vault/apps/web/lib/crypto.ts:137-154 | the only letter refused is U; without it a text fails exactly for the number of its letters and digits |
| `SecretKey.NormalizingIsIdempotent` | secure-vault/apps/web/lib/crypto.ts:137-154 | normalizing what was accepted changes nothing, for any input |
| `SecretKey.NormalizeRecoverySecret` | secure-vault/apps/web/lib/crypto.ts:137-154 | the key, the first bad character, or the wrong length |
| `SecretKey.Normalized` | secure-vault/apps/web/lib/crypto.ts:143-153 | what is accepted is 32 characters of the alphabet |
| `SecretKey.GenerateRecoverySecret` | secure-vault/apps/web/lib/crypto.ts:120-129 | a key of the alphabet, displayed in groups of eight |

## Left out

- AES-GCM, PBKDF2, Argon2id, SHA, HMAC, ECDSA and RSA: ideal terms, function parameters or a flag that says the check passed.
- HTTP, JSON, cookies, CORS, configuration and SQL syntax: requests are values, tables are maps and sequences, a transaction is one step.
- Several accounts in the vault protocol: rows of different users never meet in these statements.
- Audit logging of vault requests, which follows the transaction and is not read back.
- The 32-bit width of version numbers: a vault would need two thousand million uploads to reach it.
- Form checks before a key flow starts (length and equality of passwords): they only make fewer runs possible.
- Loss of a tab's memory on a page reload: it is the end of that tab and the start of a new one.
- The settings page's own GET when it has no metadata yet: the same as asking for metadata first, which is a step of the model.
- Cbor.Reader.Take: does not model wrap-around of `pos + n` (`lib.rs:402`), because lengths are mathematical integers here.
- Totp.VerifyTotp: does not model codes used twice, because the code does not record used codes.
- Base32.Base32Encode: does not use machine words; the loops are over natural numbers modulo 2^32, and `WordStep` says or-ing is the sum. Right shifts and masks are division and remainder by powers of two.
- Passkeys.PasskeyServer.LoginFinish: does not model the load and the update of the passkey row as two moments, so the counter results are for sign-ins that are atomic per credential. They also need accepted counters to be non-zero (after a zero the code lets any counter in by design) and the owner's account to exist.
- Passkeys.CompletesOnce: does not assume fresh ids; that random ids never repeat turns it into "at most once".
- Sessions.DeadIsRejectedForever: does not hold for a token issued a second time; tokens are random and assumed fresh. A token stands for its hash.
- Who may call the admin, device and deletion handlers is not checked in `Sessions`: they are steps that may happen at any time, so the results hold for whoever calls them.
- Account roles and the "last admin" checks beyond their effect on deletion: self-deletion has no such check, so no invariant follows.
- Accounts.AuditIsConserved: does not model handlers as interleaved steps; each is one transaction, and record ids are fresh.
- Cbor.ParseValue: does not say which of its errors a refused input gets, nor do the key results; callers only tell errors from values.
- Verification of client data, origin and relying-party hash, and of attestation statements: `verified` stands for them.
- RSA passkey sign-in: assertions are always checked with algorithm -7, so only parsing of RSA keys is modelled.
- Password generator, security score, search filter, breach look-ups, pages and styling: no hard property.
