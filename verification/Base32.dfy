/** Base32 (section 6 of RFC 4648) as the TOTP code encodes and decodes secrets:
    two loops over a 32-bit accumulator whose high bits are shifted out, proved
    against the bit-string definition. */
module Base32 {
  import opened Basics

  type bit = x: nat | x < 2
  type symbol = x: nat | x < 32

  const ALPHABET: string := "ABCDEFGHIJKLMNOPQRSTUVWXYZ234567"

  // ---- Bit strings, most significant bit first ---------------------------------------

  function Pow2(k: nat): (p: nat)
    ensures p > 0
  {
    if k == 0 then 1 else 2 * Pow2(k - 1)
  }

  function ValueOf(b: seq<bit>): nat {
    if b == [] then 0 else ValueOf(b[..|b| - 1]) * 2 + b[|b| - 1]
  }

  function BitsOf(n: nat, width: nat): (b: seq<bit>)
    ensures |b| == width
  {
    if width == 0 then [] else BitsOf(n / 2, width - 1) + [n % 2]
  }

  function Zeros(n: nat): seq<bit> {
    seq(n, _ => 0)
  }

  function DataBits(data: seq<byte>): (b: seq<bit>)
    ensures |b| == 8 * |data|
  {
    if data == [] then [] else DataBits(data[..|data| - 1]) + BitsOf(data[|data| - 1], 8)
  }

  function SymbolBits(s: seq<symbol>): (b: seq<bit>)
    ensures |b| == 5 * |s|
  {
    if s == [] then [] else SymbolBits(s[..|s| - 1]) + BitsOf(s[|s| - 1], 5)
  }

  /** Up to `width` bits from `at` on, filled with zeros at the end. */
  function Group(b: seq<bit>, at: nat, width: nat): (g: seq<bit>)
    requires at <= |b|
    ensures |g| == width
  {
    if at + width <= |b| then b[at..at + width] else b[at..] + Zeros(at + width - |b|)
  }

  lemma {:induction false} ValueBound(b: seq<bit>)
    ensures ValueOf(b) < Pow2(|b|)
  {
    if b == [] {
    } else {
      ValueBound(b[..|b| - 1]);
    }
  }

  lemma {:induction false} BitsOfValue(b: seq<bit>)
    ensures BitsOf(ValueOf(b), |b|) == b
  {
    if b == [] {
    } else {
      BitsOfValue(b[..|b| - 1]);
      assert b == b[..|b| - 1] + [b[|b| - 1]];
    }
  }

  lemma {:induction false} ValueOfBits(n: nat, width: nat)
    requires n < Pow2(width)
    ensures ValueOf(BitsOf(n, width)) == n
  {
    if width == 0 {
    } else {
      ValueOfBits(n / 2, width - 1);
    }
  }

  lemma Doubled(n: nat, p: nat)
    ensures n * (2 * p) == n * p * 2
  {
  }

  lemma {:induction false} ValueOfJoin(a: seq<bit>, b: seq<bit>)
    ensures ValueOf(a + b) == ValueOf(a) * Pow2(|b|) + ValueOf(b)
  {
    if b == [] {
      assert a + b == a;
    } else {
      var init, last := b[..|b| - 1], b[|b| - 1];
      assert (a + b)[..|a + b| - 1] == a + init;
      ValueOfJoin(a, init);
      Doubled(ValueOf(a), Pow2(|init|));
    }
  }

  lemma {:induction false} ZerosAreZero(n: nat)
    ensures ValueOf(Zeros(n)) == 0
  {
    if n == 0 {
    } else {
      assert Zeros(n)[..n - 1] == Zeros(n - 1);
      ZerosAreZero(n - 1);
    }
  }

  // ---- What is computed ------------------------------------------------------------------

  function CeilDiv(a: nat, b: nat): nat
    requires b > 0
  {
    (a + b - 1) / b
  }

  function Symbol(value: nat): char
    requires value < 32
  {
    ALPHABET[value]
  }

  function GroupSymbol(b: seq<bit>, at: nat): (v: symbol)
    requires at <= |b|
    ensures v == ValueOf(Group(b, at, 5))
  {
    ValueBound(Group(b, at, 5));
    assert Pow2(5) == 32;
    ValueOf(Group(b, at, 5))
  }

  function Groups(data: seq<byte>): (s: seq<symbol>)
    ensures |s| == CeilDiv(8 * |data|, 5)
  {
    var b := DataBits(data);
    seq(CeilDiv(8 * |data|, 5), j requires 0 <= j < CeilDiv(8 * |data|, 5) => GroupSymbol(b, 5 * j))
  }

  /** Unicode White_Space. */
  predicate IsWhitespace(c: char) {
    var u := c as int;
    || 0x09 <= u <= 0x0D || u == 0x20 || u == 0x85 || u == 0xA0 || u == 0x1680 || 0x2000 <= u <= 0x200A
    || u == 0x2028 || u == 0x2029 || u == 0x202F || u == 0x205F || u == 0x3000
  }

  predicate Skipped(c: char) {
    c == '=' || IsWhitespace(c)
  }

  function Upper(c: char): char {
    if 'a' <= c <= 'z' then c - 'a' + 'A' else c
  }

  function SymbolOf(c: char): Option<symbol> {
    var u := Upper(c);
    if 'A' <= u <= 'Z' then Some((u - 'A') as int)
    else if '2' <= u <= '7' then Some((u - '2') as int + 26)
    else None
  }

  /** The symbols of a text, or None when a character is neither a symbol nor skipped. */
  function Symbols(text: string): Option<seq<symbol>> {
    if text == "" then Some([])
    else
      var last := text[|text| - 1];
      match Symbols(text[..|text| - 1])
      case None => None
      case Some(s) =>
        if Skipped(last) then Some(s)
        else match SymbolOf(last) case None => None case Some(v) => Some(s + [v])
  }

  function GroupByte(b: seq<bit>, at: nat): (v: byte)
    requires at + 8 <= |b|
    ensures v == ValueOf(b[at..at + 8])
  {
    ValueBound(b[at..at + 8]);
    assert Pow2(8) == 256;
    ValueOf(b[at..at + 8])
  }

  /** Whole bytes of the symbols' bits; bits left over are dropped. */
  function WholeBytes(s: seq<symbol>): seq<byte> {
    var b := SymbolBits(s);
    seq(5 * |s| / 8, j requires 0 <= j < 5 * |s| / 8 => GroupByte(b, 8 * j))
  }

  function Decoded(text: string): Option<seq<byte>> {
    match Symbols(text) case None => None case Some(s) => Some(WholeBytes(s))
  }

  function Encoded(data: seq<byte>): string {
    var s := Groups(data);
    seq(|s|, j requires 0 <= j < |s| => Symbol(s[j]))
  }

  // ---- The accumulator -------------------------------------------------------------------

  /** Multiplying by q moves everything up and loses the multiples of p*q*r. */
  lemma {:induction false} ShiftedParts(k: nat, low: nat, p: nat, q: nat, r: nat)
    requires r > 0
    ensures (k * p + low) * q == (k / r) * ((p * q) * r) + ((k % r) * (p * q) + low * q)
  {
    var m, kept, pq := k / r, k % r, p * q;
    assert (k * p + low) * q == k * pq + low * q by {
      assert (k * p + low) * q == (k * p) * q + low * q;
      assert (k * p) * q == k * (p * q);
    }
    assert k == m * r + kept;
    assert (m * r + kept) * pq == (m * r) * pq + kept * pq;
    assert (m * r) * pq == m * (pq * r);
  }

  lemma {:induction false} Below(a: nat, p: nat, b: nat, q: nat)
    requires a < p && b < q
    ensures a * q + b < p * q
  {
    MulStep(a, p, q);
  }

  lemma {:induction false} ShiftInParts(buffer: nat, p: nat, q: nat, r: nat, value: nat)
    requires p > 0 && q > 0 && r > 0 && value < q
    ensures p * q > 0 && p * q * r > 0
    ensures var shifted := (buffer * q) % (p * q * r) + value;
            shifted < p * q * r && shifted % (p * q) == (buffer % p) * q + value
  {
    var low, k, pq := buffer % p, buffer / p, p * q;
    Below(0, p, 0, q);
    Below(0, pq, 0, r);
    var kept := k % r;
    var whole := pq * r;
    ShiftedParts(k, low, p, q, r);
    Below(low, p, value, q);
    Below(low, p, 0, q);
    var small := kept * pq + low * q;
    BelowWhole(kept, r, low * q + value, pq);
    BelowWhole(kept, r, low * q, pq);
    assert buffer == k * p + low;
    DivMod(k / r, whole, small);
    DivMod(kept, pq, low * q + value);
  }

  lemma {:induction false} BelowWhole(a: nat, r: nat, b: nat, pq: nat)
    requires a < r && b < pq
    ensures a * pq + b < pq * r
  {
    MulStep(a, r, pq);
  }

  lemma {:induction false} MulStep(a: nat, b: nat, p: nat)
    requires a < b
    ensures a * p + p <= b * p
  {
    assert (b - a - 1) * p >= 0;
    assert b * p == a * p + p + (b - a - 1) * p;
  }

  lemma {:induction false} Pow2Is32()
    ensures Pow2(32) == TWO_32
  {
    assert Pow2(8) == 256;
    hide Pow2;
    PowSum(8, 8);
    PowSum(16, 16);
  }

  lemma {:induction false} Pow2Of32(a: nat, b: nat)
    requires a + b <= 32
    ensures Pow2(a) * Pow2(b) * Pow2(32 - a - b) == TWO_32
  {
    hide Pow2;
    Pow2Is32();
    PowSum(a, b);
    PowSum(a + b, 32 - a - b);
  }

  /** Shifting `value` in from the right keeps the low bits, whatever the 32-bit
      accumulator loses on the left. */
  lemma {:induction false} ShiftIn(buffer: nat, bits: nat, width: nat, value: nat)
    requires bits + width <= 32 && value < Pow2(width)
    ensures var shifted := (buffer * Pow2(width)) % TWO_32 + value;
            shifted < TWO_32 && shifted % Pow2(bits + width) == (buffer % Pow2(bits)) * Pow2(width) + value
  {
    hide Pow2;
    Pow2Of32(bits, width);
    PowSum(bits, width);
    ShiftInParts(buffer, Pow2(bits), Pow2(width), Pow2(32 - bits - width), value);
  }

  /** The top `width` of the `bits` low bits, and what remains below them. */
  lemma {:induction false} ShiftOut(buffer: nat, left: seq<bit>, width: nat)
    requires width <= |left| && buffer % Pow2(|left|) == ValueOf(left)
    ensures (buffer / Pow2(|left| - width)) % Pow2(width) == ValueOf(left[..width])
    ensures buffer % Pow2(|left| - width) == ValueOf(left[width..])
  {
    var low, top := left[width..], left[..width];
    var p, q := Pow2(|low|), Pow2(width);
    assert left == top + low;
    ValueOfJoin(top, low);
    ValueBound(low);
    ValueBound(top);
    PowSum(width, |low|);
    Decompose(buffer, p, q, ValueOf(top), ValueOf(low));
  }

  lemma {:induction false} PowSum(a: nat, b: nat)
    ensures Pow2(a + b) == Pow2(a) * Pow2(b)
  {
    if a == 0 {
    } else {
      PowSum(a - 1, b);
      assert 2 * (Pow2(a - 1) * Pow2(b)) == (2 * Pow2(a - 1)) * Pow2(b);
    }
  }

  lemma {:induction false} Decompose(x: nat, p: nat, q: nat, top: nat, low: nat)
    requires p > 0 && q > 0 && top < q && low < p && x % (q * p) == top * p + low
    ensures (x / p) % q == top && x % p == low
  {
    var k := x / (q * p);
    assert x == (k * q + top) * p + low by {
      assert x == k * (q * p) + (top * p + low);
      assert k * (q * p) == (k * q) * p;
    }
    DivMod(k * q + top, p, low);
    DivMod(k, q, top);
  }

  lemma {:induction false} DivMod(a: nat, p: nat, r: nat)
    requires r < p
    ensures (a * p + r) / p == a && (a * p + r) % p == r
  {
    var q, m := (a * p + r) / p, (a * p + r) % p;
    assert q * p + m == a * p + r;
    if q > a { MulStep(a, q, p); }
    if q < a { MulStep(q, a, p); }
  }

  /** On 32-bit words, shifting in by or-ing is the arithmetic used here. */
  lemma WordStep(buffer: bv32, value: bv32)
    ensures value < 256 ==> (buffer << 8) | value == buffer * 256 + value
    ensures value < 32 ==> (buffer << 5) | value == buffer * 32 + value
  {
  }

  // ---- The two loops -----------------------------------------------------------------------

  /** `out` holds the symbols of the leading whole groups of `b`. */
  ghost predicate Emitted(out: string, b: seq<bit>) {
    5 * |out| <= |b| && forall j :: 0 <= j < |out| ==> out[j] == Symbol(GroupSymbol(b, 5 * j))
  }

  lemma {:induction false} EmittedStays(out: string, b: seq<bit>, more: seq<bit>)
    requires Emitted(out, b)
    ensures Emitted(out, b + more)
  {
    forall j | 0 <= j < |out|
      ensures out[j] == Symbol(GroupSymbol(b + more, 5 * j))
    {
      assert Group(b + more, 5 * j, 5) == Group(b, 5 * j, 5);
    }
  }

  /** The accumulator's low `bits` bits are those read and not yet written. */
  ghost predicate Encoding(out: string, buffer: nat, bits: nat, b: seq<bit>) {
    && buffer < TWO_32 && 5 * |out| + bits == |b| && Emitted(out, b)
    && buffer % Pow2(bits) == ValueOf(b[5 * |out|..])
  }

  lemma DropOfJoin(b: seq<bit>, more: seq<bit>, k: nat)
    requires k <= |b|
    ensures (b + more)[k..] == b[k..] + more
  {
  }

  lemma TakeMore(b: seq<bit>, j: nat, k: nat)
    requires j <= k <= |b|
    ensures b[..k] == b[..j] + b[j..k]
  {
  }

  /** Shifting a value in appends its bits. */
  lemma {:induction false} ShiftedIn(buffer: nat, left: seq<bit>, width: nat, value: nat)
    requires |left| + width <= 32 && value < Pow2(width) && buffer % Pow2(|left|) == ValueOf(left)
    ensures var shifted := (buffer * Pow2(width)) % TWO_32 + value;
            shifted < TWO_32 && shifted % Pow2(|left| + width) == ValueOf(left + BitsOf(value, width))
  {
    hide Pow2, BitsOf, ValueOf;
    ShiftIn(buffer, |left|, width, value);
    ValueOfBits(value, width);
    ValueOfJoin(left, BitsOf(value, width));
  }

  lemma {:induction false} ByteAbsorbed(out: string, buffer: nat, bits: nat, b: seq<bit>, value: byte)
    requires Encoding(out, buffer, bits, b) && bits < 5
    ensures Encoding(out, (buffer * Pow2(8)) % TWO_32 + value, bits + 8, b + BitsOf(value, 8))
  {
    var left, more := b[5 * |out|..], BitsOf(value, 8);
    assert Pow2(8) == 256;
    hide Pow2, BitsOf, Emitted, ValueOf;
    ShiftedIn(buffer, left, 8, value);
    EmittedStays(out, b, more);
    DropOfJoin(b, more, 5 * |out|);
  }

  lemma {:induction false} SymbolEmitted(out: string, buffer: nat, bits: nat, b: seq<bit>)
    requires Encoding(out, buffer, bits, b) && bits >= 5
    ensures Encoding(out + [ALPHABET[(buffer / Pow2(bits - 5)) % 32]], buffer, bits - 5, b)
  {
    var left := b[5 * |out|..];
    assert Pow2(5) == 32;
    hide Pow2, ValueOf;
    ShiftOut(buffer, left, 5);
    assert left[..5] == Group(b, 5 * |out|, 5) && left[5..] == b[5 * (|out| + 1)..];
  }

  method Base32Encode(data: seq<byte>) returns (out: string)
    ensures out == Encoded(data)
  {
    hide Encoding, Emitted, Encoded;
    out := "";
    var buffer: nat, bits: nat := 0, 0;
    ghost var b: seq<bit> := [];
    NothingEncoded();
    for i := 0 to |data|
      invariant bits < 5 && b == DataBits(data[..i]) && Encoding(out, buffer, bits, b)
    {
      assert data[..i + 1][..i] == data[..i];
      ByteAbsorbed(out, buffer, bits, b, data[i]);
      buffer := (buffer * Pow2(8)) % TWO_32 + data[i];
      bits := bits + 8;
      b := b + BitsOf(data[i], 8);
      while bits >= 5
        invariant bits < 13 && Encoding(out, buffer, bits, b)
      {
        SymbolEmitted(out, buffer, bits, b);
        bits := bits - 5;
        var idx := (buffer / Pow2(bits)) % 32;
        out := out + [ALPHABET[idx]];
      }
    }
    assert data[..|data|] == data;
    LastEmitted(data, out, buffer, bits, b);
    if bits > 0 {
      var idx := ((buffer * Pow2(5 - bits)) % TWO_32) % 32;
      out := out + [ALPHABET[idx]];
    }
  }

  lemma {:induction false} NothingEncoded()
    ensures Encoding("", 0, 0, [])
  {
  }

  /** The last, partial group is filled with zeros. */
  lemma {:induction false} LastEmitted(data: seq<byte>, out: string, buffer: nat, bits: nat, b: seq<bit>)
    requires b == DataBits(data) && bits < 5 && Encoding(out, buffer, bits, b)
    ensures Encoded(data) ==
            if bits == 0 then out else out + [ALPHABET[((buffer * Pow2(5 - bits)) % TWO_32) % 32]]
  {
    if bits == 0 {
      EncodedIs(data, out);
    } else {
      var left := b[5 * |out|..];
      LastGroup(buffer, left);
      assert Group(b, 5 * |out|, 5) == left + Zeros(5 - bits);
      EncodedIs(data, out + [ALPHABET[((buffer * Pow2(5 - bits)) % TWO_32) % 32]]);
    }
  }

  lemma {:induction false} LastGroup(buffer: nat, left: seq<bit>)
    requires 0 < |left| < 5 && buffer % Pow2(|left|) == ValueOf(left)
    ensures ((buffer * Pow2(5 - |left|)) % TWO_32) % 32 == ValueOf(left + Zeros(5 - |left|))
  {
    var fill := 5 - |left|;
    ValueOfJoin(left, Zeros(fill));
    ZerosAreZero(fill);
    ShiftIn(buffer, |left|, fill, 0);
    assert Pow2(5) == 32;
  }

  lemma {:induction false} EncodedIs(data: seq<byte>, out: string)
    requires |out| == CeilDiv(8 * |data|, 5)
    requires forall j :: 0 <= j < |out| ==> out[j] == Symbol(GroupSymbol(DataBits(data), 5 * j))
    ensures out == Encoded(data)
  {
  }

  /** `out` holds the leading whole bytes of `b`. */
  ghost predicate Packed(out: seq<byte>, b: seq<bit>) {
    8 * |out| <= |b| && forall j :: 0 <= j < |out| ==> out[j] == GroupByte(b, 8 * j)
  }

  lemma {:induction false} PackedStays(out: seq<byte>, b: seq<bit>, more: seq<bit>)
    requires Packed(out, b)
    ensures Packed(out, b + more)
  {
    forall j | 0 <= j < |out|
      ensures out[j] == GroupByte(b + more, 8 * j)
    {
      assert (b + more)[8 * j..8 * j + 8] == b[8 * j..8 * j + 8];
    }
  }

  ghost predicate Decoding(out: seq<byte>, buffer: nat, bits: nat, s: seq<symbol>) {
    && buffer < TWO_32 && 8 * |out| + bits == 5 * |s| && Packed(out, SymbolBits(s))
    && buffer % Pow2(bits) == ValueOf(SymbolBits(s)[8 * |out|..])
  }

  lemma {:induction false} SymbolAbsorbed(out: seq<byte>, buffer: nat, bits: nat, s: seq<symbol>, value: symbol)
    requires Decoding(out, buffer, bits, s) && bits < 8
    ensures Decoding(out, (buffer * Pow2(5)) % TWO_32 + value, bits + 5, s + [value])
  {
    var b, more := SymbolBits(s), BitsOf(value, 5);
    var left := b[8 * |out|..];
    assert (s + [value])[..|s|] == s;
    assert SymbolBits(s + [value]) == b + more;
    assert Pow2(5) == 32;
    hide Pow2, BitsOf, Packed, SymbolBits, ValueOf;
    ShiftedIn(buffer, left, 5, value);
    PackedStays(out, b, more);
    DropOfJoin(b, more, 8 * |out|);
  }

  lemma {:induction false} BytePacked(out: seq<byte>, buffer: nat, bits: nat, s: seq<symbol>)
    requires Decoding(out, buffer, bits, s) && bits >= 8
    ensures Decoding(out + [(buffer / Pow2(bits - 8)) % 256], buffer, bits - 8, s)
  {
    var b := SymbolBits(s);
    var left := b[8 * |out|..];
    assert Pow2(8) == 256;
    hide Pow2, ValueOf, SymbolBits;
    ShiftOut(buffer, left, 8);
    assert left[..8] == b[8 * |out|..8 * |out| + 8] && left[8..] == b[8 * (|out| + 1)..];
  }

  method Base32Decode(text: string) returns (r: Option<seq<byte>>)
    ensures r == Decoded(text)
  {
    hide Decoding, Skipped, SymbolOf, WholeBytes;
    var out: seq<byte> := [];
    var buffer: nat, bits: nat := 0, 0;
    ghost var s: seq<symbol> := [];
    NothingDecoded();
    for i := 0 to |text|
      invariant bits < 8 && Symbols(text[..i]) == Some(s) && Decoding(out, buffer, bits, s)
    {
      assert text[..i + 1][..i] == text[..i];
      if Skipped(text[i]) { continue; }
      var v := SymbolOf(text[i]);
      if v.None? {
        BadCharacterFails(text, i);
        return None;
      }
      var idx := v.value;
      SymbolAbsorbed(out, buffer, bits, s, idx);
      s := s + [idx];
      buffer := (buffer * Pow2(5)) % TWO_32 + idx;
      bits := bits + 5;
      if bits >= 8 {
        BytePacked(out, buffer, bits, s);
        bits := bits - 8;
        out := out + [(buffer / Pow2(bits)) % 256];
      }
    }
    assert text[..|text|] == text;
    AllPacked(out, buffer, bits, s);
    r := Some(out);
  }

  lemma {:induction false} NothingDecoded()
    ensures Decoding([], 0, 0, [])
  {
  }

  lemma {:induction false} AllPacked(out: seq<byte>, buffer: nat, bits: nat, s: seq<symbol>)
    requires Decoding(out, buffer, bits, s) && bits < 8
    ensures out == WholeBytes(s)
  {
  }

  lemma {:induction false} BadCharacterFails(text: string, i: nat)
    requires i < |text| && !Skipped(text[i]) && SymbolOf(text[i]).None?
    ensures Symbols(text).None?
    decreases |text|
  {
    if i < |text| - 1 { BadCharacterFails(text[..|text| - 1], i); }
  }

  // ---- Laws -----------------------------------------------------------------------------------

  lemma {:induction false} SymbolOfSymbol(v: symbol)
    ensures SymbolOf(Symbol(v)) == Some(v) && !Skipped(Symbol(v))
  {
    assert forall k :: 0 <= k < 26 ==> ALPHABET[k] == 'A' + k as char;
    assert forall k :: 26 <= k < 32 ==> ALPHABET[k] == '2' + (k - 26) as char;
  }

  lemma {:induction false} SymbolsOfText(s: seq<symbol>, text: string)
    requires |text| == |s| && forall j :: 0 <= j < |s| ==> text[j] == Symbol(s[j])
    ensures Symbols(text) == Some(s)
    decreases |s|
  {
    hide Skipped, SymbolOf, Symbol;
    if s != [] {
      SymbolsOfText(s[..|s| - 1], text[..|text| - 1]);
      SymbolOfSymbol(s[|s| - 1]);
      assert s[..|s| - 1] + [s[|s| - 1]] == s;
    } else {
      assert text == "";
    }
  }

  /** The bits of the groups are the bits of the data, filled up with zeros. */
  lemma {:induction false} GroupBits(b: seq<bit>, s: seq<symbol>)
    requires forall j :: 0 <= j < |s| ==> 5 * j <= |b| && s[j] == ValueOf(Group(b, 5 * j, 5))
    requires |b| <= 5 * |s| < |b| + 5
    ensures SymbolBits(s) == b + Zeros(5 * |s| - |b|)
  {
    var all := b + Zeros(5 * |s| - |b|);
    GroupBitsUpTo(b, s, |s|);
    assert s[..|s|] == s && all[..5 * |s|] == all;
  }

  lemma {:induction false} GroupBitsUpTo(b: seq<bit>, s: seq<symbol>, k: nat)
    requires k <= |s| && forall j :: 0 <= j < |s| ==> 5 * j <= |b| && s[j] == ValueOf(Group(b, 5 * j, 5))
    requires |b| <= 5 * |s| < |b| + 5
    ensures SymbolBits(s[..k]) == (b + Zeros(5 * |s| - |b|))[..5 * k]
    decreases k
  {
    if k == 0 {
    } else {
      var all := b + Zeros(5 * |s| - |b|);
      GroupBitsUpTo(b, s, k - 1);
      LastSymbol(s, k);
      var g := Group(b, 5 * (k - 1), 5);
      assert s[k - 1] == ValueOf(g);
      BitsOfValue(g);
      GroupOfFilled(b, 5 * (k - 1), 5 * |s| - |b|);
      hide SymbolBits, BitsOf, ValueOf, Group;
      TakeMore(all, 5 * (k - 1), 5 * k);
    }
  }

  lemma {:induction false} LastSymbol(s: seq<symbol>, k: nat)
    requires 0 < k <= |s|
    ensures SymbolBits(s[..k]) == SymbolBits(s[..k - 1]) + BitsOf(s[k - 1], 5)
  {
    assert s[..k][..k - 1] == s[..k - 1] && s[..k][k - 1] == s[k - 1];
  }

  lemma {:induction false} GroupOfFilled(b: seq<bit>, at: nat, fill: nat)
    requires at <= |b| && at + 5 <= |b| + fill && fill < 5
    ensures Group(b, at, 5) == (b + Zeros(fill))[at..at + 5]
  {
    if at + 5 > |b| {
      var m := at + 5 - |b|;
      assert Zeros(fill)[..m] == Zeros(m);
      assert (b + Zeros(fill))[at..at + 5] == b[at..] + Zeros(fill)[..m];
    }
  }

  lemma {:induction false} ByteOfBits(data: seq<byte>, j: nat)
    requires j < |data|
    ensures DataBits(data)[8 * j..8 * j + 8] == BitsOf(data[j], 8)
    decreases |data|
  {
    var init := data[..|data| - 1];
    if j < |init| {
      ByteOfBits(init, j);
      assert DataBits(data)[8 * j..8 * j + 8] == DataBits(init)[8 * j..8 * j + 8];
    }
  }

  lemma {:induction false} BytesComeBack(data: seq<byte>, s: seq<symbol>)
    requires |s| == CeilDiv(8 * |data|, 5)
    requires SymbolBits(s) == DataBits(data) + Zeros(5 * |s| - 8 * |data|)
    ensures WholeBytes(s) == data
  {
    var all, b := SymbolBits(s), DataBits(data);
    assert 5 * |s| / 8 == |data|;
    forall j | 0 <= j < |data|
      ensures WholeBytes(s)[j] == data[j]
    {
      ByteOfBits(data, j);
      assert Pow2(8) == 256;
      ValueOfBits(data[j], 8);
      hide Pow2, ValueOf, BitsOf, SymbolBits, DataBits;
      assert all[8 * j..8 * j + 8] == b[8 * j..8 * j + 8];
    }
  }

  /** decode(encode(d)) = d, and the text has ceil(8|d|/5) characters of the alphabet. */
  lemma {:induction false} RoundTrip(data: seq<byte>)
    ensures |Encoded(data)| == CeilDiv(8 * |data|, 5)
    ensures forall j :: 0 <= j < |Encoded(data)| ==> Encoded(data)[j] in ALPHABET
    ensures Decoded(Encoded(data)) == Some(data)
  {
    hide SymbolBits, DataBits, ValueOf, Symbols;
    var s, b := Groups(data), DataBits(data);
    SymbolsOfText(s, Encoded(data));
    GroupBits(b, s);
    BytesComeBack(data, s);
    hide WholeBytes;
  }

  /** A text is decoded exactly when every character is a letter of either case, a digit
      from 2 to 7, padding or whitespace. */
  lemma {:induction false} DecodesExactly(text: string)
    ensures Decoded(text).Some? <==>
            forall i :: 0 <= i < |text| ==>
              || 'A' <= text[i] <= 'Z' || 'a' <= text[i] <= 'z' || '2' <= text[i] <= '7'
              || text[i] == '=' || IsWhitespace(text[i])
    decreases |text|
  {
    hide IsWhitespace, WholeBytes;
    if text == "" {
    } else {
      var init := text[..|text| - 1];
      DecodesExactly(init);
      assert forall i :: 0 <= i < |init| ==> init[i] == text[i];
    }
  }

  /** The text without skipped characters, in upper case. */
  function Clean(text: string): string {
    if text == "" then ""
    else
      var init, last := Clean(text[..|text| - 1]), text[|text| - 1];
      if Skipped(last) then init else init + [Upper(last)]
  }

  /** Case, whitespace and `=` never change what is decoded. */
  lemma {:induction false} OnlySymbolsMatter(text: string, other: string)
    requires Clean(text) == Clean(other)
    ensures Decoded(text) == Decoded(other)
  {
    CleanKeepsSymbols(text);
    CleanKeepsSymbols(other);
  }

  lemma {:induction false} UpperIsFinal(c: char)
    ensures Upper(Upper(c)) == Upper(c)
    ensures Skipped(Upper(c)) == Skipped(c)
  {
  }

  lemma {:induction false} CleanKeepsSymbols(text: string)
    ensures Symbols(Clean(text)) == Symbols(text)
  {
    hide Skipped, Upper;
    if text == "" {
    } else {
      var init, last := text[..|text| - 1], text[|text| - 1];
      CleanKeepsSymbols(init);
      UpperIsFinal(last);
      if !Skipped(last) {
        assert Clean(text)[..|Clean(text)| - 1] == Clean(init);
      }
    }
  }

  lemma {:induction false} CleanJoins(a: string, b: string)
    ensures Clean(a + b) == Clean(a) + Clean(b)
    decreases |b|
  {
    hide Skipped, Upper;
    if b == "" {
      assert a + b == a;
    } else {
      var init := b[..|b| - 1];
      assert (a + b)[..|a + b| - 1] == a + init;
      CleanJoins(a, init);
    }
  }

  lemma {:induction false} OneCharacter(c: char)
    ensures Clean([c]) == if Skipped(c) then "" else [Upper(c)]
  {
    assert [c][..0] == "";
  }

  lemma {:induction false} CleanAround(before: string, c: char, after: string)
    ensures Clean(before + [c] + after) == Clean(before) + (if Skipped(c) then "" else [Upper(c)]) + Clean(after)
  {
    hide Skipped, Upper, Clean;
    CleanJoins(before + [c], after);
    CleanJoins(before, [c]);
    OneCharacter(c);
  }

  /** Padding or whitespace anywhere in a text changes nothing. */
  lemma {:induction false} SkipsPaddingAndSpace(before: string, c: char, after: string)
    requires c in "= \t\r\n" || IsWhitespace(c)
    ensures Decoded(before + [c] + after) == Decoded(before + after)
  {
    assert Skipped(c);
    hide Skipped, Upper, Clean, Decoded, IsWhitespace;
    CleanAround(before, c, after);
    CleanJoins(before, after);
    assert Clean(before) + "" == Clean(before);
    OnlySymbolsMatter(before + [c] + after, before + after);
  }

  /** Nor does the case of a letter. */
  lemma {:induction false} IgnoresCase(before: string, k: nat, after: string)
    requires k < 26
    ensures Decoded(before + ["abcdefghijklmnopqrstuvwxyz"[k]] + after)
         == Decoded(before + ["ABCDEFGHIJKLMNOPQRSTUVWXYZ"[k]] + after)
  {
    var c, u := "abcdefghijklmnopqrstuvwxyz"[k], "ABCDEFGHIJKLMNOPQRSTUVWXYZ"[k];
    CaseOf(k);
    hide Skipped, Upper, Clean, Decoded;
    CleanAround(before, c, after);
    CleanAround(before, u, after);
    OnlySymbolsMatter(before + [c] + after, before + [u] + after);
  }

  lemma CaseOf(k: nat)
    requires k < 26
    ensures var c, u := "abcdefghijklmnopqrstuvwxyz"[k], "ABCDEFGHIJKLMNOPQRSTUVWXYZ"[k];
            Upper(c) == u && Upper(u) == u && !Skipped(c) && !Skipped(u)
  {
    assert "abcdefghijklmnopqrstuvwxyz"[k] == 'a' + k as char;
    assert "ABCDEFGHIJKLMNOPQRSTUVWXYZ"[k] == 'A' + k as char;
  }

  // ---- Bit for bit --------------------------------------------------------------------------

  lemma {:induction false} PackedBits(s: seq<symbol>, k: nat)
    requires k <= 5 * |s| / 8
    ensures DataBits(WholeBytes(s)[..k]) == SymbolBits(s)[..8 * k]
  {
    hide SymbolBits, BitsOf, ValueOf;
    if k == 0 {
    } else {
      PackedBits(s, k - 1);
      var w, b := WholeBytes(s), SymbolBits(s);
      var last := b[8 * (k - 1)..8 * k];
      assert w[..k][..k - 1] == w[..k - 1] && w[k - 1] == ValueOf(last);
      BitsOfValue(last);
      assert b[..8 * k] == b[..8 * (k - 1)] + last;
    }
  }

  lemma {:induction false} SymbolIs(c: char)
    ensures SymbolOf(c).Some? ==> Upper(c) == "ABCDEFGHIJKLMNOPQRSTUVWXYZ234567"[SymbolOf(c).value]
  {
    assert forall k :: 0 <= k < 26 ==> "ABCDEFGHIJKLMNOPQRSTUVWXYZ234567"[k] == 'A' + k as char;
    assert forall k :: 26 <= k < 32 ==> "ABCDEFGHIJKLMNOPQRSTUVWXYZ234567"[k] == '2' + (k - 26) as char;
  }

  lemma {:induction false} SymbolsAre(text: string)
    requires Symbols(text).Some?
    ensures var s := Symbols(text).value;
            |s| == |Clean(text)|
            && forall j :: 0 <= j < |s| ==> Clean(text)[j] == "ABCDEFGHIJKLMNOPQRSTUVWXYZ234567"[s[j]]
  {
    hide Skipped, SymbolOf, Upper;
    if text == "" {
    } else {
      SymbolsAre(text[..|text| - 1]);
      SymbolIs(text[|text| - 1]);
    }
  }

  /** What is decoded are the bits that the symbols stand for, five each, as far as they fill
      whole bytes. */
  lemma {:induction false} DecodesBits(text: string) returns (s: seq<symbol>)
    requires Decoded(text).Some?
    ensures |s| == |Clean(text)|
    ensures forall j :: 0 <= j < |s| ==> Clean(text)[j] == "ABCDEFGHIJKLMNOPQRSTUVWXYZ234567"[s[j]]
    ensures DataBits(Decoded(text).value) == SymbolBits(s)[..5 * |s| / 8 * 8]
  {
    s := Symbols(text).value;
    SymbolsAre(text);
    hide SymbolBits, DataBits, Symbols, Clean;
    PackedBits(s, 5 * |s| / 8);
    assert WholeBytes(s)[..5 * |s| / 8] == WholeBytes(s);
  }

  /** What is encoded are the bits of the data, five to a symbol, filled up with zeros. */
  lemma {:induction false} EncodesBits(data: seq<byte>) returns (s: seq<symbol>)
    ensures |s| == |Encoded(data)|
    ensures forall j :: 0 <= j < |s| ==> Encoded(data)[j] == "ABCDEFGHIJKLMNOPQRSTUVWXYZ234567"[s[j]]
    ensures SymbolBits(s) == DataBits(data) + Zeros(5 * |s| - 8 * |data|)
  {
    s := Groups(data);
    hide SymbolBits, DataBits, ValueOf;
    GroupBits(DataBits(data), s);
  }
}
