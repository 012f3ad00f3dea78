/** Which bytes are a key and which are authenticator data, for every input: by the bytes that
    write a map, and by the layout of section 6.1 of WebAuthn Level 2. */
module WebauthnGrammar {
  import opened Basics
  import opened Cbor
  import opened CborCodec
  import opened CborGrammar
  import opened Webauthn

  // ---- Look-ups in any map, labels repeated or not ---------------------------------------

  predicate IsInteger(v: Value, n: int) {
    (v.Unsigned? && v.u == n && n < TWO_63) || (v.Negative? && v.n == n)
  }

  /** The first entry with this label holds v. */
  ghost predicate FirstHolds(entries: seq<Entry>, name: int, v: Value) {
    exists i :: 0 <= i < |entries| && IsInteger(entries[i].key, name) && entries[i].value == v
                && forall j :: 0 <= j < i ==> !IsInteger(entries[j].key, name)
  }

  ghost predicate FirstHoldsInteger(entries: seq<Entry>, name: int, n: int) {
    exists v :: FirstHolds(entries, name, v) && IsInteger(v, n)
  }

  lemma {:induction false} FindsFirst(entries: seq<Entry>, name: int)
    ensures forall v :: FindInt(entries, name) == Some(v) <==> FirstHolds(entries, name, v)
  {
    forall v
      ensures FindInt(entries, name) == Some(v) <==> FirstHolds(entries, name, v)
    {
      FindsFirstValue(entries, name, v);
    }
  }

  lemma {:induction false} FindsFirstValue(entries: seq<Entry>, name: int, v: Value)
    ensures FindInt(entries, name) == Some(v) <==> FirstHolds(entries, name, v)
    decreases |entries|
  {
    if entries == [] {
    } else {
      var rest := entries[1..];
      FindsFirstValue(rest, name, v);
      if FirstHolds(rest, name, v) && !IsInteger(entries[0].key, name) {
        var i :| 0 <= i < |rest| && IsInteger(rest[i].key, name) && rest[i].value == v
                 && forall j :: 0 <= j < i ==> !IsInteger(rest[j].key, name);
        assert IsInteger(entries[i + 1].key, name) && entries[i + 1].value == v;
        assert forall j :: 0 < j < i + 1 ==> entries[j] == rest[j - 1];
      }
      if FirstHolds(entries, name, v) && !IsInteger(entries[0].key, name) {
        var i :| 0 <= i < |entries| && IsInteger(entries[i].key, name) && entries[i].value == v
                 && forall j :: 0 <= j < i ==> !IsInteger(entries[j].key, name);
        assert rest[i - 1] == entries[i];
        assert forall j :: 0 <= j < i - 1 ==> rest[j] == entries[j + 1];
      }
    }
  }

  lemma {:induction false} IntegerIsFirst(entries: seq<Entry>, name: int, n: int)
    ensures GetInteger(Map(entries), name) == Some(n) <==> FirstHoldsInteger(entries, name, n)
  {
    hide FindInt, FirstHolds;
    FindsFirst(entries, name);
    var found := FindInt(entries, name);
    if found.Some? {
      assert FirstHolds(entries, name, found.value);
    }
  }

  lemma {:induction false} BytesAreFirst(entries: seq<Entry>, name: int, b: seq<byte>)
    ensures GetBytes(Map(entries), name) == Some(b) <==> FirstHolds(entries, name, Bytes(b))
  {
    hide FindInt, FirstHolds;
    FindsFirst(entries, name);
  }

  // ---- Keys -------------------------------------------------------------------------------

  /** kty EC2, alg ES256, curve P-256 and both coordinates; sections 7 and 7.1 of RFC 9053. */
  ghost predicate HoldsEc2(entries: seq<Entry>, x: seq<byte>, y: seq<byte>) {
    && FirstHoldsInteger(entries, 1, 2) && FirstHoldsInteger(entries, 3, -7) && FirstHoldsInteger(entries, -1, 1)
    && FirstHolds(entries, -2, Bytes(x)) && FirstHolds(entries, -3, Bytes(y))
  }

  /** kty RSA, alg RS256, modulus and exponent; section 4 of RFC 8230. */
  ghost predicate HoldsRsa(entries: seq<Entry>, n: seq<byte>, e: seq<byte>) {
    && FirstHoldsInteger(entries, 1, 3) && FirstHoldsInteger(entries, 3, -257)
    && FirstHolds(entries, -1, Bytes(n)) && FirstHolds(entries, -2, Bytes(e))
  }

  ghost predicate StartsWithMap(b: seq<byte>, entries: seq<Entry>) {
    exists used: nat :: used <= |b| && Writes(b[..used], Map(entries))
  }

  lemma {:induction false} Ec2Is(entries: seq<Entry>, x: seq<byte>, y: seq<byte>)
    ensures HoldsEc2(entries, x, y) <==>
            && GetInteger(Map(entries), 1) == Some(2) && GetInteger(Map(entries), 3) == Some(-7)
            && GetInteger(Map(entries), -1) == Some(1)
            && GetBytes(Map(entries), -2) == Some(x) && GetBytes(Map(entries), -3) == Some(y)
  {
    hide GetInteger, GetBytes, FirstHolds, FirstHoldsInteger;
    IntegerIsFirst(entries, 1, 2);
    IntegerIsFirst(entries, 3, -7);
    IntegerIsFirst(entries, -1, 1);
    BytesAreFirst(entries, -2, x);
    BytesAreFirst(entries, -3, y);
  }

  lemma {:induction false} RsaIs(entries: seq<Entry>, n: seq<byte>, e: seq<byte>)
    ensures HoldsRsa(entries, n, e) <==>
            && GetInteger(Map(entries), 1) == Some(3) && GetInteger(Map(entries), 3) == Some(-257)
            && GetBytes(Map(entries), -1) == Some(n) && GetBytes(Map(entries), -2) == Some(e)
  {
    hide GetInteger, GetBytes, FirstHolds, FirstHoldsInteger;
    IntegerIsFirst(entries, 1, 3);
    IntegerIsFirst(entries, 3, -257);
    BytesAreFirst(entries, -1, n);
    BytesAreFirst(entries, -2, e);
  }

  /** Any bytes at all are an EC2 key exactly when they start with a map that holds one, the
      first entry of a label counting; the point is then 0x04 and the coordinates as they
      stand, whatever their length. */
  lemma {:induction false} Ec2KeysExactly(b: seq<byte>, p: seq<byte>)
    ensures ParseCoseKey(b) == Key(Ec2P256(p)) <==>
            exists entries, x, y :: StartsWithMap(b, entries) && HoldsEc2(entries, x, y) && IsPoint(p, x, y)
  {
    hide ParseTopLevelMap, GetInteger, GetBytes, HoldsEc2, Writes;
    if ParseCoseKey(b) == Key(Ec2P256(p)) {
      var m := ParseTopLevelMap(b).value;
      var x, y := GetBytes(m, -2).value, GetBytes(m, -3).value;
      TopLevelReadsExactly(b, m);
      Ec2Is(m.entries, x, y);
      assert StartsWithMap(b, m.entries) && HoldsEc2(m.entries, x, y) && IsPoint(p, x, y);
    }
    forall entries, x, y | StartsWithMap(b, entries) && HoldsEc2(entries, x, y) && IsPoint(p, x, y)
      ensures ParseCoseKey(b) == Key(Ec2P256(p))
    {
      TopLevelReadsExactly(b, Map(entries));
      Ec2Is(entries, x, y);
    }
  }

  /** And an RSA key exactly when that map holds one. */
  lemma {:induction false} RsaKeysExactly(b: seq<byte>, n: seq<byte>, e: seq<byte>)
    ensures ParseCoseKey(b) == Key(Rsa(n, e)) <==>
            exists entries :: StartsWithMap(b, entries) && HoldsRsa(entries, n, e)
  {
    hide ParseTopLevelMap, GetInteger, GetBytes, HoldsRsa, Writes;
    if ParseCoseKey(b) == Key(Rsa(n, e)) {
      var m := ParseTopLevelMap(b).value;
      TopLevelReadsExactly(b, m);
      RsaIs(m.entries, n, e);
      assert StartsWithMap(b, m.entries) && HoldsRsa(m.entries, n, e);
    }
    forall entries | StartsWithMap(b, entries) && HoldsRsa(entries, n, e)
      ensures ParseCoseKey(b) == Key(Rsa(n, e))
    {
      TopLevelReadsExactly(b, Map(entries));
      RsaIs(entries, n, e);
    }
  }

  // ---- Authenticator data --------------------------------------------------------------------

  /** Any bytes parse as authenticator data exactly when they are a hash, a flags byte, a
      big-endian counter and anything after that. */
  lemma {:induction false} HeadersExactly(raw: seq<byte>, a: AuthData)
    ensures ParseAuthData(raw) == Some(a) <==>
            && a.raw == raw && |a.rpIdHash| == 32 && a.signCount < 0x1_0000_0000
            && AuthHeader(a.rpIdHash, a.flags, a.signCount) <= raw
  {
    hide BigEndian, ToBigEndian;
    Powers();
    if |raw| >= 37 {
      var counter := raw[33..37];
      BigEndianIs(counter);
      BigEndianBound(counter);
      assert raw[..37] == raw[..32] + [raw[32]] + counter;
    }
    if |a.rpIdHash| == 32 && a.signCount < 0x1_0000_0000 && AuthHeader(a.rpIdHash, a.flags, a.signCount) <= raw {
      HeaderRoundTrip(a.rpIdHash, a.flags, a.signCount, raw[37..]);
      assert raw == AuthHeader(a.rpIdHash, a.flags, a.signCount) + raw[37..];
    }
  }

  lemma FlagIsBit(flags: bv8)
    ensures Flag(flags as int, 0x40) <==> flags & 0x40 != 0
  {
  }

  /** Bit 6 of the flags. */
  predicate AttestedFlag(flags: byte) {
    64 <= flags < 128 || 192 <= flags
  }

  /** Whatever follows the header, a credential is found exactly when the flag is set and what
      follows is an aaguid, a 16-bit length, an id of that length and a key; every byte from
      the key on is stored. */
  lemma {:induction false} CredentialsExactly(a: AuthData, c: Credential)
    requires |a.raw| >= 37
    ensures AttestedCredential(a) == Some(c) <==>
            && AttestedFlag(a.flags) && |c.id| < 0x1_0000 && ParseCoseKey(c.stored) == Key(c.key)
            && exists aaguid: seq<byte> :: |aaguid| == 16 && a.raw[37..] == Attested(aaguid, c.id, c.stored)
  {
    hide ParseCoseKey, BigEndian, ToBigEndian;
    var rest := a.raw[37..];
    assert Flag(a.flags, ATTESTED) <==> AttestedFlag(a.flags);
    Powers();
    if AttestedCredential(a) == Some(c) {
      var length := rest[16..18];
      BigEndianIs(length);
      BigEndianBound(length);
      assert rest == rest[..16] + length + rest[18..18 + |c.id|] + rest[18 + |c.id|..];
      assert |rest[..16]| == 16 && rest == Attested(rest[..16], c.id, c.stored);
    }
    forall aaguid: seq<byte> | |aaguid| == 16 && rest == Attested(aaguid, c.id, c.stored) && |c.id| < 0x1_0000
      ensures rest[16..18] == ToBigEndian(|c.id|, 2) && BigEndian(rest[16..18]) == |c.id|
      ensures rest[18..18 + |c.id|] == c.id && rest[18 + |c.id|..] == c.stored
    {
      BigEndianRoundTrip(|c.id|, 2);
    }
  }
}
