/** One-time codes: HOTP's dynamic truncation (section 5.3 of RFC 4226) and the
    drift-window loop that checks a TOTP code (section 5.2 of RFC 6238). HMAC-SHA1
    is a parameter: any function to 20-byte digests. */
module Totp {
  import opened Basics
  import opened Base32

  type Digest = d: seq<byte> | |d| == 20 witness seq(20, _ => 0)
  type Mac = (seq<byte>, seq<byte>) -> Digest

  const MAX_U64: nat := 0xFFFF_FFFF_FFFF_FFFF
  const STEP: nat := 30
  const DIGITS: nat := 6

  function Pow10(k: nat): (p: nat)
    ensures p > 0
  {
    if k == 0 then 1 else 10 * Pow10(k - 1)
  }

  // ---- Dynamic truncation --------------------------------------------------------------

  /** Four bytes as a big-endian word, without the top bit. */
  function Word31(a: nat, b: nat, c: nat, d: nat): nat {
    (a % 128) * 0x100_0000 + b * 0x1_0000 + c * 0x100 + d
  }

  /** `digits` is below 10: a larger power of ten does not fit in 32 bits. */
  function Truncate(digest: Digest, digits: nat): (code: nat)
    requires digits < 10
    ensures code < Pow10(digits)
  {
    var offset := digest[|digest| - 1] % 16;
    Word31(digest[offset], digest[offset + 1], digest[offset + 2], digest[offset + 3]) % Pow10(digits)
  }

  function Hotp(mac: Mac, secret: seq<byte>, counter: nat, digits: nat): nat
    requires digits < 10
  {
    Truncate(mac(secret, ToBigEndian(counter, 8)), digits)
  }

  /** Masks, shifts and ors on 32-bit words make the same word as the sum. */
  lemma WordIsSum(a: bv32, b: bv32, c: bv32, d: bv32)
    requires a < 256 && b < 256 && c < 256 && d < 256
    ensures ((a & 0x7f) << 24) | (b << 16) | (c << 8) | d
         == (a % 128) * 0x100_0000 + b * 0x1_0000 + c * 0x100 + d
  {
  }

  lemma {:induction false} ByteBits(data: seq<byte>, v: byte)
    ensures DataBits(data + [v]) == DataBits(data) + BitsOf(v, 8)
    ensures ValueOf(DataBits(data + [v])) == ValueOf(DataBits(data)) * 256 + v
  {
    assert (data + [v])[..|data|] == data;
    assert Pow2(8) == 256;
    hide BitsOf, ValueOf, Pow2;
    ValueOfJoin(DataBits(data), BitsOf(v, 8));
    ValueOfBits(v, 8);
  }

  /** Dropping the top bit of a non-empty bit string keeps its value below it. */
  lemma {:induction false} WithoutTopBit(b: seq<bit>)
    requires b != []
    ensures ValueOf(b[1..]) == ValueOf(b) % Pow2(|b| - 1)
  {
    var top, rest := b[..1], b[1..];
    assert b == top + rest;
    ValueOfJoin(top, rest);
    ValueBound(rest);
    hide Pow2;
    DivMod(ValueOf(top), Pow2(|rest|), ValueOf(rest));
  }

  lemma {:induction false} FourBytes(a: byte, b: byte, c: byte, d: byte)
    ensures ValueOf(DataBits([a, b, c, d])) == a * 0x100_0000 + b * 0x1_0000 + c * 0x100 + d
  {
    hide DataBits, ValueOf;
    ByteBits([], a);
    ByteBits([a], b);
    ByteBits([a, b], c);
    ByteBits([a, b, c], d);
    assert [] + [a] == [a] && [a] + [b] == [a, b] && [a, b] + [c] == [a, b, c];
    assert [a, b, c] + [d] == [a, b, c, d];
    assert ValueOf(DataBits([])) == 0 by { NoBits(); }
  }

  lemma NoBits()
    ensures ValueOf(DataBits([])) == 0
  {
  }

  lemma {:induction false} Mod31(a: byte, rest: nat)
    requires rest < 0x100_0000
    ensures (a * 0x100_0000 + rest) % 0x8000_0000 == (a % 128) * 0x100_0000 + rest
  {
    DivMod(a / 128, 0x8000_0000, (a % 128) * 0x100_0000 + rest);
  }

  lemma {:induction false} WordBits(a: byte, b: byte, c: byte, d: byte)
    ensures ValueOf(DataBits([a, b, c, d])[1..]) == Word31(a, b, c, d)
  {
    hide DataBits, ValueOf, Pow2;
    FourBytes(a, b, c, d);
    WithoutTopBit(DataBits([a, b, c, d]));
    Two31();
    Mod31(a, b * 0x1_0000 + c * 0x100 + d);
  }

  /** Where a code is taken from: the low four bits of the digest. */
  function OffsetOf(digest: Digest): nat {
    ValueOf(DataBits(digest)[156..])
  }

  /** The truncated code is the 31-bit big-endian word at that offset, modulo ten to the
      digits; the word lies inside the digest. */
  lemma {:induction false} TruncateIsWord(digest: Digest, digits: nat)
    requires digits < 10
    ensures OffsetOf(digest) + 4 <= 20
    ensures Truncate(digest, digits)
         == ValueOf(DataBits(digest[OffsetOf(digest)..OffsetOf(digest) + 4])[1..]) % Pow10(digits)
  {
    LastNibble(digest);
    hide DataBits, ValueOf, Pow10, Word31, OffsetOf;
    var o := digest[19] % 16;
    assert digest[o..o + 4] == [digest[o], digest[o + 1], digest[o + 2], digest[o + 3]];
    WordBits(digest[o], digest[o + 1], digest[o + 2], digest[o + 3]);
  }

  lemma Two31()
    ensures Pow2(31) == 0x8000_0000
  {
    assert Pow2(8) == 256;
    assert Pow2(7) == 128;
    hide Pow2;
    PowSum(8, 8);
    PowSum(16, 8);
    PowSum(24, 7);
  }

  lemma {:induction false} LastNibble(digest: Digest)
    ensures OffsetOf(digest) == digest[19] % 16
  {
    var v := digest[19];
    var low := DataBits(digest)[156..];
    var high := BitsOf(v, 8)[..4];
    ByteOfBits(digest, 19);
    assert DataBits(digest)[152..160] == BitsOf(v, 8);
    assert low == BitsOf(v, 8)[4..];
    assert high + low == BitsOf(v, 8);
    assert Pow2(8) == 256 && Pow2(4) == 16;
    hide BitsOf, DataBits, ValueOf, Pow2;
    ValueOfBits(v, 8);
    ValueOfJoin(high, low);
    ValueBound(low);
    DivMod(ValueOf(high), 16, ValueOf(low));
  }

  // ---- Code texts --------------------------------------------------------------------------

  predicate IsDigit(c: char) {
    '0' <= c <= '9'
  }

  predicate AllDigits(text: string) {
    forall i :: 0 <= i < |text| ==> IsDigit(text[i])
  }

  function Decimal(text: string): nat
    requires AllDigits(text)
  {
    if text == "" then 0 else Decimal(text[..|text| - 1]) * 10 + (text[|text| - 1] - '0') as nat
  }

  function TrimStart(text: string): string {
    if text != "" && IsWhitespace(text[0]) then TrimStart(text[1..]) else text
  }

  function TrimEnd(text: string): string {
    if text != "" && IsWhitespace(text[|text| - 1]) then TrimEnd(text[..|text| - 1]) else text
  }

  function Trim(text: string): string {
    TrimEnd(TrimStart(text))
  }

  /** A number written with exactly `width` decimal digits. */
  function Padded(n: nat, width: nat): (t: string)
    ensures |t| == width && AllDigits(t)
  {
    if width == 0 then "" else Padded(n / 10, width - 1) + ['0' + (n % 10) as char]
  }

  lemma {:induction false} DecimalOfPadded(n: nat, width: nat)
    requires n < Pow10(width)
    ensures Decimal(Padded(n, width)) == n
  {
    if width == 0 {
    } else {
      DecimalOfPadded(n / 10, width - 1);
      assert Padded(n, width)[..width - 1] == Padded(n / 10, width - 1);
    }
  }

  lemma {:induction false} DecimalIsInjective(s: string, t: string)
    requires AllDigits(s) && AllDigits(t) && |s| == |t| && Decimal(s) == Decimal(t)
    ensures s == t
    decreases |s|
  {
    if s == "" {
    } else {
      var a, b := s[..|s| - 1], t[..|t| - 1];
      DecimalIsInjective(a, b);
      assert s == a + [s[|s| - 1]] && t == b + [t[|t| - 1]];
    }
  }

  lemma {:induction false} DigitsAreTrimmed(text: string)
    requires AllDigits(text)
    ensures Trim(text) == text
  {
    if text != "" { assert !IsWhitespace(text[0]) && !IsWhitespace(text[|text| - 1]); }
  }

  // ---- The drift window ---------------------------------------------------------------------

  ghost predicate InWindow(counter: nat, now: nat, window: nat) {
    now / STEP <= counter + window && counter <= now / STEP + window
  }

  predicate WellFormed(code: string) {
    |code| == DIGITS && AllDigits(code)
  }

  /** Six digits that some counter of the window produces under the decoded secret. */
  ghost predicate Accepted(mac: Mac, secretText: string, code: string, now: nat, window: nat) {
    && WellFormed(code) && Decoded(secretText).Some?
    && exists c {:trigger InWindow(c, now, window)} ::
         InWindow(c, now, window) && Hotp(mac, Decoded(secretText).value, c, DIGITS) == Decimal(code)
  }

  /** The loop looks at the current step, then one step ahead and one back per level; a
      step before zero is marked by the largest counter and skipped. */
  method VerifyTotp(mac: Mac, secretText: string, code: string, now: nat, window: nat) returns (ok: bool)
    requires now <= MAX_U64 && window <= 0xFFFF_FFFF
    ensures ok <==> Accepted(mac, secretText, Trim(code), now, window)
  {
    hide Hotp, Decoded, Decimal, Trim;
    var text := Trim(code);
    if !WellFormed(text) { return false; }
    var decoded := Base32Decode(secretText);
    if decoded.None? { return false; }
    var secret := decoded.value;
    var parsed := Decimal(text);
    var counter := now / STEP;
    for drift := 0 to window + 1
      invariant forall c :: Near(c, counter, drift) ==> Hotp(mac, secret, c, DIGITS) != parsed
    {
      var candidates := [counter + drift, if counter >= drift then counter - drift else MAX_U64];
      for i := 0 to 2
        invariant i >= 1 ==> Hotp(mac, secret, counter + drift, DIGITS) != parsed
        invariant i == 2 && counter >= drift ==> Hotp(mac, secret, counter - drift, DIGITS) != parsed
      {
        var candidate := candidates[i];
        if candidate == MAX_U64 { continue; }
        if Hotp(mac, secret, candidate, DIGITS) == parsed {
          assert InWindow(candidate, now, window);
          return true;
        }
      }
    }
    assert forall c :: InWindow(c, now, window) ==> Near(c, counter, window + 1);
    return false;
  }

  /** Less than `drift` steps away. */
  ghost predicate Near(c: nat, counter: nat, drift: nat) {
    counter < c + drift && c < counter + drift
  }

  // ---- How many codes are valid, and which --------------------------------------------------

  lemma {:induction false} OneCodePerCounter(mac: Mac, secret: seq<byte>, codes: set<string>, low: nat, high: nat)
    requires low <= high
    requires forall s :: s in codes ==> WellFormed(s) && FromCounter(mac, secret, s, low, high)
    ensures |codes| <= high - low
    decreases high
  {
    hide Hotp, Decimal;
    if low == high {
      if s :| s in codes { assert false; }
    } else {
      var last := Hotp(mac, secret, high - 1, DIGITS);
      if s :| s in codes && Decimal(s) == last {
        forall t | t in codes - {s}
          ensures FromCounter(mac, secret, t, low, high - 1)
        {
          if Decimal(t) == last { DecimalIsInjective(s, t); }
        }
        OneCodePerCounter(mac, secret, codes - {s}, low, high - 1);
      } else {
        OneCodePerCounter(mac, secret, codes, low, high - 1);
      }
    }
  }

  ghost predicate FromCounter(mac: Mac, secret: seq<byte>, code: string, low: nat, high: nat)
    requires WellFormed(code)
  {
    exists c :: low <= c < high && Hotp(mac, secret, c, DIGITS) == Decimal(code)
  }

  /** At most 2 * window + 1 six-digit codes are valid at any moment. */
  lemma {:induction false} FewCodesAreValid(mac: Mac, secretText: string, codes: set<string>, now: nat, window: nat)
    requires forall s :: s in codes ==> Accepted(mac, secretText, s, now, window)
    ensures |codes| <= 2 * window + 1
  {
    hide Hotp, Decimal, Decoded;
    if codes != {} {
      var counter := now / STEP;
      var low := if counter >= window then counter - window else 0;
      var secret := Decoded(secretText).value;
      forall s | s in codes
        ensures WellFormed(s) && FromCounter(mac, secret, s, low, counter + window + 1)
      {
        var c :| InWindow(c, now, window) && Hotp(mac, secret, c, DIGITS) == Decimal(s);
      }
      OneCodePerCounter(mac, secret, codes, low, counter + window + 1);
    }
  }

  /** Distinct 64-bit counters are authenticated as distinct messages. */
  lemma {:induction false} CounterBytesIdentify(counter: nat, width: nat)
    requires counter < Pow2(8 * width)
    ensures ValueOf(DataBits(ToBigEndian(counter, width))) == counter
  {
    if width == 0 {
      NoBits();
    } else {
      assert Pow2(8 * width) == 256 * Pow2(8 * (width - 1)) by {
        PowSum(8, 8 * (width - 1));
        assert Pow2(8) == 256;
      }
      hide Pow2, DataBits, ValueOf;
      CounterBytesIdentify(counter / 256, width - 1);
      ByteBits(ToBigEndian(counter / 256, width - 1), counter % 256);
    }
  }

  // ---- Codes as the standards define them -----------------------------------------------------

  lemma {:induction false} SameBits(a: seq<byte>, b: seq<byte>)
    requires |a| == |b| && ValueOf(DataBits(a)) == ValueOf(DataBits(b))
    ensures a == b
  {
    BitsOfValue(DataBits(a));
    BitsOfValue(DataBits(b));
    forall i | 0 <= i < |a|
      ensures a[i] == b[i]
    {
      ByteOfBits(a, i);
      ByteOfBits(b, i);
      assert Pow2(8) == 256;
      ValueOfBits(a[i], 8);
      ValueOfBits(b[i], 8);
      hide Pow2, BitsOf, DataBits, ValueOf;
    }
  }

  /** The 31-bit word of a digest that starts at the offset its last four bits give. */
  function WordOf(digest: Digest): nat {
    LastNibble(digest);
    var o := OffsetOf(digest);
    ValueOf(DataBits(digest[o..o + 4])[1..])
  }

  /** HOTP authenticates, with the secret as key, the eight bytes whose 64 bits are the
      counter, and keeps the last digits of the word. */
  lemma {:induction false} HotpIsWord(mac: Mac, secret: seq<byte>, counter: nat, digits: nat, m: seq<byte>)
    requires digits < 10 && |m| == 8 && ValueOf(DataBits(m)) == counter
    ensures Hotp(mac, secret, counter, digits) == WordOf(mac(secret, m)) % Pow10(digits)
  {
    hide ValueOf, DataBits, Pow10, Pow2, OffsetOf, Truncate;
    ValueBound(DataBits(m));
    CounterBytesIdentify(counter, 8);
    SameBits(m, ToBigEndian(counter, 8));
    TruncateIsWord(mac(secret, m), digits);
  }

  function DigitAt(n: nat, place: nat): char
    requires place > 0
  {
    '0' + (n / place % 10) as char
  }

  /** `code` is the six-digit display of n. */
  predicate Shows(code: string, n: nat) {
    code == [DigitAt(n, 100000), DigitAt(n, 10000), DigitAt(n, 1000), DigitAt(n, 100), DigitAt(n, 10), DigitAt(n, 1)]
  }

  function DigitOf(c: char): nat
    requires IsDigit(c)
  {
    (c - '0') as nat
  }

  lemma {:induction false} DecimalStep(code: string, k: nat)
    requires k < |code| && AllDigits(code)
    ensures AllDigits(code[..k]) && AllDigits(code[..k + 1])
    ensures Decimal(code[..k + 1]) == Decimal(code[..k]) * 10 + DigitOf(code[k])
  {
    assert code[..k + 1][..k] == code[..k];
  }

  lemma {:induction false} SixDigits(code: string)
    requires WellFormed(code)
    ensures Decimal(code) == ((((DigitOf(code[0]) * 10 + DigitOf(code[1])) * 10 + DigitOf(code[2])) * 10
                               + DigitOf(code[3])) * 10 + DigitOf(code[4])) * 10 + DigitOf(code[5])
  {
    assert Decimal(code[..0]) == 0;
    hide Decimal, DigitOf;
    DecimalStep(code, 0);
    DecimalStep(code, 1);
    DecimalStep(code, 2);
    DecimalStep(code, 3);
    DecimalStep(code, 4);
    DecimalStep(code, 5);
    assert code[..6] == code;
  }

  lemma {:induction false} Places(a: nat, b: nat, c: nat, d: nat, e: nat, f: nat)
    requires a < 10 && b < 10 && c < 10 && d < 10 && e < 10 && f < 10
    ensures var n := ((((a * 10 + b) * 10 + c) * 10 + d) * 10 + e) * 10 + f;
            && n / 100000 % 10 == a && n / 10000 % 10 == b && n / 1000 % 10 == c
            && n / 100 % 10 == d && n / 10 % 10 == e && n / 1 % 10 == f && n < 1000000
  {
  }

  lemma DigitRoundTrip(c: char, n: nat)
    requires IsDigit(c)
    ensures '0' + (n % 10) as char == c <==> n % 10 == DigitOf(c)
  {
  }

  lemma {:induction false} ShownIsDecimal(code: string, n: nat)
    requires n < 1000000
    ensures Shows(code, n) <==> WellFormed(code) && Decimal(code) == n
  {
    if WellFormed(code) {
      SixDigits(code);
      Places(DigitOf(code[0]), DigitOf(code[1]), DigitOf(code[2]), DigitOf(code[3]), DigitOf(code[4]),
             DigitOf(code[5]));
      SixPlaces(n);
      hide Decimal, DigitOf;
      DigitRoundTrip(code[0], n / 100000);
      DigitRoundTrip(code[1], n / 10000);
      DigitRoundTrip(code[2], n / 1000);
      DigitRoundTrip(code[3], n / 100);
      DigitRoundTrip(code[4], n / 10);
      DigitRoundTrip(code[5], n / 1);
    }
  }

  lemma {:induction false} SixPlaces(n: nat)
    requires n < 1000000
    ensures n == ((((n / 100000 % 10 * 10 + n / 10000 % 10) * 10 + n / 1000 % 10) * 10 + n / 100 % 10) * 10
                  + n / 10 % 10) * 10 + n / 1 % 10
  {
    OnePlace(n, 1);
    OnePlace(n, 10);
    OnePlace(n, 100);
    OnePlace(n, 1000);
    OnePlace(n, 10000);
  }

  lemma OnePlace(n: nat, place: nat)
    requires place in {1, 10, 100, 1000, 10000}
    ensures n / place == n / (place * 10) * 10 + n / place % 10
  {
    assert n / place / 10 == n / (place * 10);
  }

  // ---- What is accepted, by the standards ------------------------------------------------

  lemma {:induction false} CounterFits(counter: nat)
    requires counter <= MAX_U64
    ensures var m := ToBigEndian(counter, 8); |m| == 8 && ValueOf(DataBits(m)) == counter
  {
    hide ValueOf, DataBits;
    assert Pow2(64) > MAX_U64 by {
      hide Pow2;
      Pow2Is32();
      PowSum(32, 32);
    }
    CounterBytesIdentify(counter, 8);
  }

  /** A device whose clock shows `clock` displays `code`: it authenticates the eight bytes of
      the number of 30-second steps under the secret. */
  ghost predicate Displays(mac: Mac, secret: seq<byte>, clock: nat, code: string) {
    forall m :: |m| == 8 && ValueOf(DataBits(m)) == clock / 30 ==> Shows(code, WordOf(mac(secret, m)) % 1000000)
  }

  lemma {:induction false} DisplaysHotp(mac: Mac, secret: seq<byte>, clock: nat, code: string)
    requires clock / 30 <= MAX_U64
    ensures Displays(mac, secret, clock, code) <==>
            WellFormed(code) && Hotp(mac, secret, clock / 30, 6) == Decimal(code)
  {
    var counter := clock / 30;
    assert Pow10(6) == 1000000;
    CounterFits(counter);
    forall m | |m| == 8 && ValueOf(DataBits(m)) == counter
      ensures Shows(code, WordOf(mac(secret, m)) % 1000000) <==>
              WellFormed(code) && Hotp(mac, secret, counter, 6) == Decimal(code)
    {
      HotpIsWord(mac, secret, counter, 6, m);
      ShownIsDecimal(code, WordOf(mac(secret, m)) % 1000000);
    }
    hide Shows, WellFormed, Hotp, WordOf, ValueOf, DataBits, Decimal, Pow10;
  }

  /** A code is accepted exactly when some device that holds the decoded secret, and whose
      clock is at most `window` steps of 30 seconds away, displays it. */
  lemma {:induction false} AcceptedAreDisplayed(mac: Mac, secretText: string, code: string, now: nat, window: nat)
    requires now <= MAX_U64 && window <= 0xFFFF_FFFF
    ensures Accepted(mac, secretText, code, now, window) <==>
            && Decoded(secretText).Some?
            && exists clock: nat :: clock / 30 <= now / 30 + window && now / 30 <= clock / 30 + window
                                    && Displays(mac, Decoded(secretText).value, clock, code)
  {
    hide Decoded, Hotp, Decimal, Displays;
    if Decoded(secretText).Some? {
      var secret := Decoded(secretText).value;
      if Accepted(mac, secretText, code, now, window) {
        var c: nat :| InWindow(c, now, window) && Hotp(mac, secret, c, DIGITS) == Decimal(code);
        var clock: nat := c * 30;
        assert clock / 30 == c;
        DisplaysHotp(mac, secret, clock, code);
      }
      forall clock: nat | && clock / 30 <= now / 30 + window && now / 30 <= clock / 30 + window
                          && Displays(mac, secret, clock, code)
        ensures Accepted(mac, secretText, code, now, window)
      {
        DisplaysHotp(mac, secret, clock, code);
        assert InWindow(clock / 30, now, window);
      }
    }
  }

  predicate Blank(text: string) {
    forall i :: 0 <= i < |text| ==> IsWhitespace(text[i])
  }

  lemma {:induction false} TrimStartDrops(before: string, text: string)
    requires Blank(before)
    ensures TrimStart(before + text) == TrimStart(text)
    decreases |before|
  {
    hide IsWhitespace;
    if before == "" {
      assert before + text == text;
    } else {
      assert (before + text)[1..] == before[1..] + text && IsWhitespace(before[0]);
      TrimStartDrops(before[1..], text);
    }
  }

  lemma {:induction false} TrimEndDrops(text: string, after: string)
    requires Blank(after)
    ensures TrimEnd(text + after) == TrimEnd(text)
    decreases |after|
  {
    hide IsWhitespace;
    if after == "" {
      assert text + after == text;
    } else {
      var n := |after| - 1;
      assert (text + after)[..|text| + n] == text + after[..n] && IsWhitespace(after[n]);
      TrimEndDrops(text, after[..n]);
    }
  }

  lemma {:induction false} TrimStartIs(text: string) returns (before: string)
    ensures Blank(before) && text == before + TrimStart(text)
  {
    hide IsWhitespace;
    if text != "" && IsWhitespace(text[0]) {
      var rest := TrimStartIs(text[1..]);
      before := [text[0]] + rest;
      assert text == [text[0]] + text[1..];
    } else {
      before := "";
    }
  }

  lemma {:induction false} TrimEndIs(text: string) returns (after: string)
    ensures Blank(after) && text == TrimEnd(text) + after
  {
    hide IsWhitespace;
    var n := |text| - 1;
    if text != "" && IsWhitespace(text[n]) {
      var rest := TrimEndIs(text[..n]);
      after := rest + [text[n]];
      assert text == text[..n] + [text[n]];
    } else {
      after := "";
    }
  }

  /** A text trims to a code exactly when it is the code with whitespace around it. */
  lemma {:induction false} TrimIsCode(text: string, code: string)
    requires AllDigits(code) && code != ""
    ensures Trim(text) == code <==>
            exists before, after :: Blank(before) && Blank(after) && text == before + code + after
  {
    hide IsWhitespace, Blank;
    if Trim(text) == code {
      var before := TrimStartIs(text);
      var after := TrimEndIs(TrimStart(text));
      assert text == before + code + after;
    }
    forall before, after | Blank(before) && Blank(after) && text == before + code + after
      ensures Trim(text) == code
    {
      assert before + code + after == before + (code + after);
      TrimStartDrops(before, code + after);
      DigitIsNotBlank(code[0]);
      DigitIsNotBlank(code[|code| - 1]);
      TrimEndDrops(code, after);
    }
  }

  lemma DigitIsNotBlank(c: char)
    requires IsDigit(c)
    ensures !IsWhitespace(c)
  {
  }

  /** Whatever the secret, a device that was given its text and whose clock is at most
      `window` steps of 30 seconds off shows a code that is accepted, with any whitespace
      around it. */
  lemma {:induction false} EnrolledDeviceIsAccepted(mac: Mac, secret: seq<byte>, clock: nat, now: nat, window: nat,
                                                    before: string, code: string, after: string)
    requires now <= MAX_U64 && window <= 0xFFFF_FFFF
    requires clock / 30 <= now / 30 + window && now / 30 <= clock / 30 + window
    requires Displays(mac, secret, clock, code) && Blank(before) && Blank(after)
    ensures Accepted(mac, Encoded(secret), Trim(before + code + after), now, window)
  {
    hide Decoded, Displays, Accepted, Trim, Hotp, Decimal;
    RoundTrip(secret);
    AcceptedAreDisplayed(mac, Encoded(secret), code, now, window);
    DisplaysHotp(mac, secret, clock, code);
    TrimIsCode(before + code + after, code);
  }

  /** And the display of such a device exists: it is one text of six digits. */
  lemma {:induction false} DeviceDisplaysOneCode(mac: Mac, secret: seq<byte>, clock: nat, code: string, other: string)
    requires clock / 30 <= MAX_U64
    ensures Displays(mac, secret, clock, Padded(Hotp(mac, secret, clock / 30, 6), 6))
    ensures Displays(mac, secret, clock, code) && Displays(mac, secret, clock, other) ==> code == other
  {
    var value := Hotp(mac, secret, clock / 30, 6);
    hide Displays, Hotp, Decimal, Padded;
    DecimalOfPadded(value, 6);
    DisplaysHotp(mac, secret, clock, Padded(value, 6));
    DisplaysHotp(mac, secret, clock, code);
    DisplaysHotp(mac, secret, clock, other);
    if Displays(mac, secret, clock, code) && Displays(mac, secret, clock, other) { DecimalIsInjective(code, other); }
  }
}
