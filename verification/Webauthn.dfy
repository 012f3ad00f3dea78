/** Authenticator data (sections 6.1 and 6.5.1 of WebAuthn Level 2) and COSE keys
    (section 7 of RFC 9052) as the passkey code parses them. */
module Webauthn {
  import opened Basics
  import opened Cbor
  import opened CborCodec

  // ---- Map lookups ------------------------------------------------------------------

  /** i64::try_from for unsigned values; labels are compared as integers. */
  function AsInteger(v: Value): Option<int> {
    match v
    case Unsigned(u) => if u < TWO_63 then Some(u) else None
    case Negative(n) => Some(n)
    case _ => None
  }

  function AsBytes(v: Value): Option<seq<byte>> {
    if v.Bytes? then Some(v.bytes) else None
  }

  /** The value of the first entry whose key is this integer. */
  function FindInt(entries: seq<Entry>, key: int): Option<Value> {
    if entries == [] then None
    else if AsInteger(entries[0].key) == Some(key) then Some(entries[0].value)
    else FindInt(entries[1..], key)
  }

  function GetInt(v: Value, key: int): Option<Value> {
    if v.Map? then FindInt(v.entries, key) else None
  }

  function GetInteger(v: Value, key: int): Option<int> {
    match GetInt(v, key) case None => None case Some(w) => AsInteger(w)
  }

  function GetBytes(v: Value, key: int): Option<seq<byte>> {
    match GetInt(v, key) case None => None case Some(w) => AsBytes(w)
  }

  // ---- COSE keys ----------------------------------------------------------------------

  datatype CoseKey = Ec2P256(point: seq<byte>) | Rsa(modulus: seq<byte>, exponent: seq<byte>)

  datatype CoseError =
    | BadCbor(error: Error) | MissingKty | MissingAlg | UnsupportedCurve | MissingX | MissingY
    | MissingN | MissingE | UnexpectedAlg | UnsupportedKty

  datatype CoseResult = Key(key: CoseKey) | Failed(why: CoseError)

  function ParseCoseKey(b: seq<byte>): CoseResult {
    var parsed := ParseTopLevelMap(b);
    if parsed.Err? then Failed(BadCbor(parsed.error)) else KeyOfMap(parsed.value)
  }

  function KeyOfMap(map_: Value): CoseResult {
    var kty, alg := GetInteger(map_, 1), GetInteger(map_, 3);
    if kty.None? then Failed(MissingKty)
    else if alg.None? then Failed(MissingAlg)
    else if kty.value == 2 then
      if GetInteger(map_, -1) != Some(1) then Failed(UnsupportedCurve)
      else
        var x, y := GetBytes(map_, -2), GetBytes(map_, -3);
        if x.None? then Failed(MissingX)
        else if y.None? then Failed(MissingY)
        else if alg.value != -7 then Failed(UnexpectedAlg)
        else Key(Ec2P256([4] + x.value + y.value))
    else if kty.value == 3 then
      var n, e := GetBytes(map_, -1), GetBytes(map_, -2);
      if n.None? then Failed(MissingN)
      else if e.None? then Failed(MissingE)
      else if alg.value != -257 then Failed(UnexpectedAlg)
      else Key(Rsa(n.value, e.value))
    else Failed(UnsupportedKty)
  }

  /** No integer label occurs twice. */
  ghost predicate DistinctLabels(entries: seq<Entry>) {
    forall i, j :: 0 <= i < j < |entries| ==>
      AsInteger(entries[i].key).None? || AsInteger(entries[i].key) != AsInteger(entries[j].key)
  }

  ghost predicate Binds(entries: seq<Entry>, name: int, v: Value) {
    exists i :: 0 <= i < |entries| && AsInteger(entries[i].key) == Some(name) && entries[i].value == v
  }

  /** With distinct labels the first match is the only one, wherever it stands. */
  lemma {:induction false} LookupFindsBinding(entries: seq<Entry>, name: int, v: Value)
    requires DistinctLabels(entries)
    ensures FindInt(entries, name) == Some(v) <==> Binds(entries, name, v)
    decreases |entries|
  {
    if entries == [] {
    } else {
      var rest := entries[1..];
      LookupFindsBinding(rest, name, v);
      if Binds(rest, name, v) {
        var i :| 0 <= i < |rest| && AsInteger(rest[i].key) == Some(name) && rest[i].value == v;
        assert entries[i + 1] == rest[i];
      }
      if Binds(entries, name, v) && AsInteger(entries[0].key) != Some(name) {
        var i :| 0 <= i < |entries| && AsInteger(entries[i].key) == Some(name) && entries[i].value == v;
        assert rest[i - 1] == entries[i];
      }
    }
  }

  ghost predicate Ec2Map(entries: seq<Entry>, x: seq<byte>, y: seq<byte>) {
    && Binds(entries, 1, Unsigned(2)) && Binds(entries, 3, Negative(-7)) && Binds(entries, -1, Unsigned(1))
    && Binds(entries, -2, Bytes(x)) && Binds(entries, -3, Bytes(y))
  }

  ghost predicate RsaMap(entries: seq<Entry>, n: seq<byte>, e: seq<byte>) {
    && Binds(entries, 1, Unsigned(3)) && Binds(entries, 3, Negative(-257))
    && Binds(entries, -1, Bytes(n)) && Binds(entries, -2, Bytes(e))
  }

  /** Of encodable values, an integer is the value of one term only. */
  lemma {:induction false} IntegerIsOneValue(entries: seq<Entry>, name: int, n: int)
    requires EntriesEncodable(entries) && -TWO_63 <= n < TWO_63
    ensures FindInt(entries, name).Some? ==>
              (AsInteger(FindInt(entries, name).value) == Some(n)
               <==> FindInt(entries, name) == Some(if n < 0 then Negative(n) else Unsigned(n)))
    decreases |entries|
  {
    hide Encodable;
    if entries == [] {
    } else {
      IntegerIsOneValue(entries[1..], name, n);
      assert Encodable(entries[0].value) && (entries[0].value.Negative? ==> entries[0].value.n < 0) by {
        NegativesAreNegative(entries[0].value);
      }
    }
  }

  lemma {:induction false} NegativesAreNegative(v: Value)
    ensures Encodable(v) && v.Negative? ==> v.n < 0
  {
  }

  lemma {:induction false} IntegerBound(entries: seq<Entry>, name: int, n: int)
    requires EntriesEncodable(entries) && DistinctLabels(entries) && -TWO_63 <= n < TWO_63
    ensures GetInteger(Map(entries), name) == Some(n) <==>
        Binds(entries, name, if n < 0 then Negative(n) else Unsigned(n))
  {
    hide FindInt, Binds, DistinctLabels, EntriesEncodable;
    IntegerIsOneValue(entries, name, n);
    LookupFindsBinding(entries, name, if n < 0 then Negative(n) else Unsigned(n));
  }

  lemma {:induction false} BytesBound(entries: seq<Entry>, name: int, b: seq<byte>)
    requires DistinctLabels(entries)
    ensures GetBytes(Map(entries), name) == Some(b) <==> Binds(entries, name, Bytes(b))
  {
    hide FindInt, Binds, DistinctLabels;
    LookupFindsBinding(entries, name, Bytes(b));
  }

  /** The point of an EC2 key: 0x04, x, y. */
  predicate IsPoint(p: seq<byte>, x: seq<byte>, y: seq<byte>) {
    p == [4] + x + y
  }

  /** An encodable map with distinct labels, in any order and among any other
      entries, reads as an EC2 key exactly when it binds the five labels, whatever
      bytes follow it; and then the point is 0x04, x, y. */
  lemma {:induction false} Ec2RoundTrip(entries: seq<Entry>, rest: seq<byte>, p: seq<byte>)
    requires Encodable(Map(entries)) && DistinctLabels(entries)
    ensures ParseCoseKey(Encode(Map(entries)) + rest) == Key(Ec2P256(p)) <==>
            exists x, y :: Ec2Map(entries, x, y) && IsPoint(p, x, y)
  {
    MapReads(entries, rest);
    IntegerBound(entries, 1, 2);
    IntegerBound(entries, 3, -7);
    IntegerBound(entries, -1, 1);
    hide Binds, DistinctLabels, GetInteger, GetBytes, ParseTopLevelMap, Encode, Encodable;
    var m := Map(entries);
    if ParseCoseKey(Encode(m) + rest) == Key(Ec2P256(p)) {
      var x, y := GetBytes(m, -2).value, GetBytes(m, -3).value;
      BytesBound(entries, -2, x);
      BytesBound(entries, -3, y);
      assert Ec2Map(entries, x, y) && IsPoint(p, x, y);
    }
    forall x, y | Ec2Map(entries, x, y) && IsPoint(p, x, y)
      ensures ParseCoseKey(Encode(m) + rest) == Key(Ec2P256(p))
    {
      BytesBound(entries, -2, x);
      BytesBound(entries, -3, y);
    }
  }

  lemma {:induction false} RsaRoundTrip(entries: seq<Entry>, rest: seq<byte>, n: seq<byte>, e: seq<byte>)
    requires Encodable(Map(entries)) && DistinctLabels(entries)
    ensures ParseCoseKey(Encode(Map(entries)) + rest) == Key(Rsa(n, e)) <==> RsaMap(entries, n, e)
  {
    MapReads(entries, rest);
    IntegerBound(entries, 1, 3);
    IntegerBound(entries, 3, -257);
    BytesBound(entries, -1, n);
    BytesBound(entries, -2, e);
    hide Binds, DistinctLabels, GetInteger, GetBytes, ParseTopLevelMap, Encode, Encodable;
  }

  lemma {:induction false} MapReads(entries: seq<Entry>, rest: seq<byte>)
    requires Encodable(Map(entries))
    ensures ParseTopLevelMap(Encode(Map(entries)) + rest) == Ok(Map(entries))
  {
    RoundTrip(Map(entries), rest);
    var body := EncodeEntries(entries);
    HeadRoundTrip(5, |entries|, body + rest);
    Splits(EncodeHead(5, |entries|), body, rest);
    hide ParseValue, EncodeHead, ParseHead, EncodeEntries, EntriesEncodable;
  }

  /** A key parses the same with any bytes after it. */
  lemma {:induction false} TrailingBytesIgnored(b: seq<byte>, rest: seq<byte>)
    requires ParseCoseKey(b).Key?
    ensures ParseCoseKey(b + rest) == ParseCoseKey(b)
  {
    hide KeyOfMap;
    var used := ParseValue(b).value.used;
    assert b[..used] == (b + rest)[..used];
    PrefixDecides(b, b + rest);
    var head := ParseHead(b).value.used;
    assert b[..head] == (b + rest)[..head];
    HeadPrefix(b, b + rest);
  }

  // ---- Authenticator data --------------------------------------------------------------

  datatype AuthData = AuthData(rpIdHash: seq<byte>, flags: byte, signCount: nat, raw: seq<byte>)

  function ParseAuthData(raw: seq<byte>): Option<AuthData> {
    if |raw| < 37 then None
    else Some(AuthData(raw[..32], raw[32], BigEndian(raw[33..37]), raw))
  }

  predicate Flag(flags: byte, bit: nat)
    requires bit > 0
  {
    (flags / bit) % 2 == 1
  }

  const ATTESTED: nat := 0x40

  datatype Credential = Credential(id: seq<byte>, key: CoseKey, stored: seq<byte>)

  function AttestedCredential(a: AuthData): Option<Credential>
    requires |a.raw| >= 37
  {
    var rest := a.raw[37..];
    if !Flag(a.flags, ATTESTED) || |rest| < 18 then None
    else
      var n := BigEndian(rest[16..18]);
      if |rest| < 18 + n then None
      else
        var cose := rest[18 + n..];
        match ParseCoseKey(cose)
        case Failed(_) => None
        case Key(key) => Some(Credential(rest[18..18 + n], key, cose))
  }

  function AuthHeader(rpIdHash: seq<byte>, flags: byte, signCount: nat): seq<byte> {
    rpIdHash + [flags] + ToBigEndian(signCount, 4)
  }

  function Attested(aaguid: seq<byte>, id: seq<byte>, cose: seq<byte>): seq<byte> {
    aaguid + ToBigEndian(|id|, 2) + id + cose
  }

  lemma {:induction false} HeaderRoundTrip(rpIdHash: seq<byte>, flags: byte, signCount: nat, rest: seq<byte>)
    requires |rpIdHash| == 32 && signCount < TWO_32
    ensures var raw := AuthHeader(rpIdHash, flags, signCount) + rest;
            ParseAuthData(raw) == Some(AuthData(rpIdHash, flags, signCount, raw)) && raw[37..] == rest
  {
    var raw := AuthHeader(rpIdHash, flags, signCount) + rest;
    Powers();
    BigEndianRoundTrip(signCount, 4);
    assert raw[33..37] == ToBigEndian(signCount, 4);
    assert raw[..32] == rpIdHash;
  }

  /** Building authenticator data and parsing it returns the hash, flags, counter,
      credential id and key, for every id a 16-bit length can give and whatever
      extension bytes follow; the bytes stored for the key, which include those
      extensions, parse to the key again. Without the flag there is no credential. */
  lemma {:induction false} AuthDataRoundTrip(rpIdHash: seq<byte>, flags: byte, signCount: nat,
                                             aaguid: seq<byte>, id: seq<byte>, cose: seq<byte>, extensions: seq<byte>)
    requires |rpIdHash| == 32 && signCount < TWO_32 && |aaguid| == 16 && |id| < TWO_16
    requires ParseCoseKey(cose).Key?
    ensures var raw := AuthHeader(rpIdHash, flags, signCount) + Attested(aaguid, id, cose + extensions);
            var a := ParseAuthData(raw);
            && a == Some(AuthData(rpIdHash, flags, signCount, raw))
            && AttestedCredential(a.value) ==
               (if Flag(flags, ATTESTED) then Some(Credential(id, ParseCoseKey(cose).key, cose + extensions)) else None)
            && ParseCoseKey(cose + extensions) == ParseCoseKey(cose)
  {
    hide ParseCoseKey;
    var rest := Attested(aaguid, id, cose + extensions);
    HeaderRoundTrip(rpIdHash, flags, signCount, rest);
    TrailingBytesIgnored(cose, extensions);
    Powers();
    BigEndianRoundTrip(|id|, 2);
    assert rest[16..18] == ToBigEndian(|id|, 2);
    assert rest[18..18 + |id|] == id && rest[18 + |id|..] == cose + extensions;
  }
}
