/** Ideal terms for the client's cryptography and the plaintext documents.

    AES-GCM is ideal: what was sealed under a key and a purpose tag opens only
    with that key and that tag. A document carries the whole trail of edits that
    produced it, so "no edit was lost" is a statement about trails; only the
    text at the end of the trail is what the browser serialises and compares. */
module VaultTerms {
  import opened Basics

  /** Serialised contents of a vault: one JSON text per item, and the folders. */
  datatype Contents = Contents(items: seq<string>, folders: seq<string>)

  const EMPTY := Contents([], [])

  /** One change of the contents, made in `tab`, and what the contents became. */
  datatype Edit = Edit(tab: nat, after: Contents)

  datatype Doc = Doc(trail: seq<Edit>) {
    function Text(): Contents {
      if trail == [] then EMPTY else trail[|trail| - 1].after
    }

    function Changed(tab: nat, after: Contents): Doc {
      Doc(trail + [Edit(tab, after)])
    }
  }

  const FRESH_DOC := Doc([])

  /** A CryptoKey. `Derived` and `Recovery` come out of PBKDF2 with the account's
      fixed parameters and cannot be exported; a random vault key can. */
  datatype Key = Derived(master: string) | Recovery(secret: string) | Vek(raw: nat)

  /** The 32 raw bytes of a vault key. An overwritten buffer reads as ZEROED, which
      the generator never returns. */
  const ZEROED: nat := 0
  type Minted = raw: nat | raw > 0 witness 1

  datatype Purpose = KekTag | RecoveryTag

  datatype Wrap = Wrap(under: Key, tag: Purpose, raw: nat)

  function Unwrap(key: Key, wrap: Wrap, tag: Purpose): Option<nat> {
    if wrap.under == key && wrap.tag == tag then Some(wrap.raw) else None
  }

  datatype Blob = Blob(key: Key, doc: Doc)

  function Open(key: Key, blob: Blob): Option<Doc> {
    if blob.key == key then Some(blob.doc) else None
  }

  function ExportRaw(key: Key): Option<nat> {
    if key.Vek? then Some(key.raw) else None
  }
}
