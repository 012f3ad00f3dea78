/** The printable Secret Key: how it is displayed, and the normal form of what a user
    types. Upper-casing of characters outside ASCII is a parameter. */
module SecretKey {
  import opened Basics

  const ALPHABET: string := "0123456789ABCDEFGHJKMNPQRSTVWXYZ"
  const KEY_LENGTH: nat := 32
  const GROUP: nat := 8

  datatype Error = BadCharacter(c: char) | WrongLength(length: nat)

  // ---- Normalizing -----------------------------------------------------------------------

  predicate IsAscii(c: char) {
    c <= '\U{7F}'
  }

  predicate IsLower(c: char) {
    'a' <= c <= 'z'
  }

  /** String.toUpperCase, character by character: what it makes of characters outside ASCII
      is left open, but it never yields a lower-case ASCII letter. */
  type Upper = u: char -> string |
      forall c :: (IsAscii(c) ==> u(c) == [AsciiUpper(c)]) && (forall i :: 0 <= i < |u(c)| ==> !IsLower(u(c)[i]))
    witness c => [AsciiUpper(c)]

  function AsciiUpper(c: char): char {
    if IsLower(c) then c - 'a' + 'A' else c
  }

  function Uppered(upper: Upper, input: string): string {
    if input == "" then "" else upper(input[0]) + Uppered(upper, input[1..])
  }

  predicate IsAlphanumeric(c: char) {
    'A' <= c <= 'Z' || '0' <= c <= '9'
  }

  /** Lookalikes: I and L for 1, O for 0. */
  function Folded(c: char): char {
    if c == 'I' || c == 'L' then '1' else if c == 'O' then '0' else c
  }

  function Stripped(s: string): string {
    if s == "" then ""
    else (if IsAlphanumeric(s[0]) then [Folded(s[0])] else "") + Stripped(s[1..])
  }

  predicate InAlphabet(c: char) {
    c in ALPHABET
  }

  predicate IsKey(s: string) {
    |s| == KEY_LENGTH && forall i :: 0 <= i < |s| ==> InAlphabet(s[i])
  }

  function FirstBad(s: string): nat {
    if s != "" && InAlphabet(s[0]) then 1 + FirstBad(s[1..]) else 0
  }

  function Normalized(upper: Upper, input: string): (r: Result<string, Error>)
    ensures r.Ok? ==> IsKey(r.value)
  {
    var cleaned := Stripped(Uppered(upper, input));
    FirstBadIs(cleaned);
    var bad := FirstBad(cleaned);
    if bad < |cleaned| then Err(BadCharacter(cleaned[bad]))
    else if |cleaned| != KEY_LENGTH then Err(WrongLength(|cleaned|))
    else Ok(cleaned)
  }

  lemma {:induction false} FirstBadIs(s: string)
    ensures FirstBad(s) <= |s|
    ensures forall i :: 0 <= i < FirstBad(s) ==> InAlphabet(s[i])
    ensures FirstBad(s) < |s| ==> !InAlphabet(s[FirstBad(s)])
  {
    if s == "" {
    } else {
      FirstBadIs(s[1..]);
    }
  }

  method NormalizeRecoverySecret(upper: Upper, input: string) returns (r: Result<string, Error>)
    ensures r == Normalized(upper, input)
  {
    hide Stripped, Uppered, InAlphabet, FirstBad;
    var cleaned := Stripped(Uppered(upper, input));
    FirstBadIs(cleaned);
    for i := 0 to |cleaned|
      invariant i <= FirstBad(cleaned)
    {
      if !InAlphabet(cleaned[i]) { return Err(BadCharacter(cleaned[i])); }
    }
    if |cleaned| != KEY_LENGTH { return Err(WrongLength(|cleaned|)); }
    return Ok(cleaned);
  }

  // ---- Generating --------------------------------------------------------------------------

  function Picked(rand: seq<nat>): string {
    seq(|rand|, i requires 0 <= i < |rand| => ALPHABET[rand[i] % |ALPHABET|])
  }

  /** A dash after every group that something follows. */
  function Displayed(chars: string): string
    decreases |chars|
  {
    if |chars| <= GROUP then chars else chars[..GROUP] + "-" + Displayed(chars[GROUP..])
  }

  method GenerateRecoverySecret(rand: seq<nat>) returns (secret: string)
    requires |rand| == KEY_LENGTH
    ensures IsKey(Picked(rand)) && secret == Displayed(Picked(rand))
  {
    var chars := "";
    for i := 0 to KEY_LENGTH
      invariant chars == Picked(rand)[..i]
    {
      chars := chars + [ALPHABET[rand[i] % |ALPHABET|]];
    }
    assert chars == Picked(rand);
    secret := Displayed(chars);
  }

  // ---- The normal form ------------------------------------------------------------------------

  /** c is one of the ways to type the key character k. */
  predicate LooksLike(c: char, k: char) {
    var u := AsciiUpper(c);
    u == k || (k == '1' && (u == 'I' || u == 'L')) || (k == '0' && u == 'O')
  }

  /** `input` is the key with each character typed some way and other ASCII characters
      strewn in between. */
  predicate Written(input: string, key: string) {
    if input == "" then key == ""
    else if IsAlphanumeric(AsciiUpper(input[0])) then
      key != "" && LooksLike(input[0], key[0]) && Written(input[1..], key[1..])
    else Written(input[1..], key)
  }

  predicate Proper(key: string) {
    forall i :: 0 <= i < |key| ==> InAlphabet(key[i])
  }

  lemma {:induction false} AlphabetIs(c: char)
    ensures InAlphabet(c) <==> IsAlphanumeric(c) && c != 'I' && c != 'L' && c != 'O' && c != 'U'
  {
  }

  lemma {:induction false} LooksLikeIsFolding(c: char, k: char)
    requires InAlphabet(k) && IsAlphanumeric(AsciiUpper(c))
    ensures LooksLike(c, k) <==> Folded(AsciiUpper(c)) == k
  {
    AlphabetIs(k);
  }

  predicate NoLower(s: string) {
    forall i :: 0 <= i < |s| ==> !IsLower(s[i])
  }

  lemma {:induction false} StrippedIsKey(s: string, key: string)
    requires Proper(key) && NoLower(s)
    ensures Stripped(s) == key <==> Written(s, key)
    decreases |s|
  {
    hide Folded, LooksLike, IsAlphanumeric, InAlphabet;
    if s == "" {
    } else {
      assert AsciiUpper(s[0]) == s[0];
      var rest := s[1..];
      if IsAlphanumeric(s[0]) {
        if key != "" {
          StrippedIsKey(rest, key[1..]);
          LooksLikeIsFolding(s[0], key[0]);
          assert key == [key[0]] + key[1..];
          assert ([Folded(s[0])] + Stripped(rest))[1..] == Stripped(rest);
        }
      } else {
        StrippedIsKey(rest, key);
        assert "" + Stripped(rest) == Stripped(rest);
      }
    }
  }

  lemma {:induction false} UpperedHasNoLower(upper: Upper, input: string)
    ensures NoLower(Uppered(upper, input))
  {
    if input == "" {
    } else {
      UpperedHasNoLower(upper, input[1..]);
      assert NoLower(upper(input[0]));
    }
  }

  /** Separators, case and lookalikes never matter, and nothing else is forgiven: a text
      normalizes to a key exactly when its upper case writes that key. */
  lemma {:induction false} NormalizesExactly(upper: Upper, input: string, key: string)
    requires IsKey(key)
    ensures Normalized(upper, input) == Ok(key) <==> Written(Uppered(upper, input), key)
  {
    hide Uppered, Stripped, FirstBad, Written, InAlphabet;
    UpperedHasNoLower(upper, input);
    StrippedIsKey(Uppered(upper, input), key);
    FirstBadIs(Stripped(Uppered(upper, input)));
  }

  /** Of an ASCII text the upper case need not be taken: the text itself writes the key. */
  lemma {:induction false} AsciiIsWritten(upper: Upper, input: string, key: string)
    requires forall i :: 0 <= i < |input| ==> IsAscii(input[i])
    ensures Written(Uppered(upper, input), key) <==> Written(input, key)
    decreases |input|
  {
    hide IsAlphanumeric;
    if input == "" {
    } else {
      var u := AsciiUpper(input[0]);
      var rest := Uppered(upper, input[1..]);
      assert Uppered(upper, input) == [u] + rest && ([u] + rest)[1..] == rest;
      assert AsciiUpper(u) == u;
      AsciiIsWritten(upper, input[1..], key);
      if key != "" { AsciiIsWritten(upper, input[1..], key[1..]); }
    }
  }

  lemma {:induction false} DisplayedIsWritten(key: string)
    requires Proper(key)
    ensures Written(Displayed(key), key)
    ensures forall i :: 0 <= i < |Displayed(key)| ==> IsAscii(Displayed(key)[i])
    decreases |key|
  {
    if |key| <= GROUP {
      KeyIsWritten(key);
    } else {
      var head, tail := key[..GROUP], key[GROUP..];
      DisplayedIsWritten(tail);
      KeyIsWritten(head);
      assert ("-" + Displayed(tail))[1..] == Displayed(tail);
      assert Written("-" + Displayed(tail), tail);
      WrittenJoins(head, head, "-" + Displayed(tail), tail);
      assert head + tail == key && head + ("-" + Displayed(tail)) == Displayed(key);
    }
  }

  lemma {:induction false} KeyIsWritten(key: string)
    requires Proper(key)
    ensures Written(key, key) && forall i :: 0 <= i < |key| ==> IsAscii(key[i])
  {
    hide InAlphabet;
    if key == "" {
    } else {
      AlphabetIs(key[0]);
      KeyIsWritten(key[1..]);
      assert forall i :: 1 <= i < |key| ==> key[i] == key[1..][i - 1];
    }
  }

  lemma {:induction false} WrittenJoins(a: string, x: string, b: string, y: string)
    requires Written(a, x) && Written(b, y)
    ensures Written(a + b, x + y)
    decreases |a|
  {
    hide LooksLike, IsAlphanumeric, AsciiUpper;
    if a == "" {
      assert a + b == b && x + y == y;
    } else {
      assert (a + b)[1..] == a[1..] + b;
      if IsAlphanumeric(AsciiUpper(a[0])) {
        assert (x + y)[1..] == x[1..] + y;
        WrittenJoins(a[1..], x[1..], b, y);
      } else {
        WrittenJoins(a[1..], x, b, y);
      }
    }
  }

  /** What is printed normalizes to the key itself. */
  lemma {:induction false} DisplayRoundTrip(upper: Upper, key: string)
    requires IsKey(key)
    ensures Normalized(upper, Displayed(key)) == Ok(key)
  {
    hide InAlphabet, Written, Displayed;
    DisplayedIsWritten(key);
    NormalizesExactly(upper, Displayed(key), key);
    AsciiIsWritten(upper, Displayed(key), key);
  }

  /** Normalizing what was accepted, whatever its characters, changes nothing. */
  lemma {:induction false} NormalizingIsIdempotent(upper: Upper, input: string)
    ensures Normalized(upper, input).Ok? ==>
              Normalized(upper, Normalized(upper, input).value) == Normalized(upper, input)
  {
    var r := Normalized(upper, input);
    if r.Ok? {
      KeyIsWritten(r.value);
      NormalizesExactly(upper, r.value, r.value);
      AsciiIsWritten(upper, r.value, r.value);
    }
  }

  // ---- Which key is generated, and how it is printed --------------------------------------

  function SymbolFor(r: nat): char {
    "0123456789ABCDEFGHJKMNPQRSTVWXYZ"[r % 32]
  }

  /** One symbol for each random number, in order: the one at its remainder by 32. */
  lemma {:induction false} PicksExactly(rand: seq<nat>, key: string)
    ensures Picked(rand) == key <==>
            |key| == |rand| && forall i :: 0 <= i < |rand| ==> key[i] == SymbolFor(rand[i])
  {
    if |key| == |rand| && forall i :: 0 <= i < |rand| ==> key[i] == SymbolFor(rand[i]) {
      assert Picked(rand) == key;
    }
  }

  /** The numbers below 32 * n that pick the same symbol as k. */
  function Picking(k: nat, n: nat): set<nat> {
    set r: nat | r < 32 * n && SymbolFor(r) == SymbolFor(k)
  }

  /** Where a symbol stands in the alphabet. */
  function IndexOf(c: char): int {
    var u := c as int;
    if u <= '9' as int then u - '0' as int
    else if u <= 'H' as int then u - 'A' as int + 10
    else if u <= 'K' as int then u - 'J' as int + 18
    else if u <= 'N' as int then u - 'M' as int + 20
    else if u <= 'T' as int then u - 'P' as int + 22
    else u - 'V' as int + 27
  }

  lemma IndexIs(r: nat)
    ensures IndexOf(SymbolFor(r)) == r % 32
  {
  }

  lemma {:induction false} OneMore(k: nat, n: nat, r: nat)
    requires k < 32 && n > 0 && r % 32 == k && r < 32 * n && 32 * (n - 1) <= r
    ensures r == 32 * (n - 1) + k
  {
  }

  lemma {:induction false} EquallyMany(k: nat, n: nat)
    requires k < 32
    ensures |Picking(k, n)| == n
  {
    hide SymbolFor, IndexOf;
    if n == 0 {
      assert Picking(k, 0) == {};
    } else {
      EquallyMany(k, n - 1);
      var fewer, all := Picking(k, n - 1), Picking(k, n);
      var next := 32 * (n - 1) + k;
      forall r: nat | r in all
        ensures r in fewer || r == next
      {
        IndexIs(r);
        IndexIs(k);
        if r >= 32 * (n - 1) { OneMore(k, n, r); }
      }
      IndexIs(next);
      IndexIs(k);
      SameIndex(next, k);
      assert all == fewer + {next};
    }
  }

  lemma SameIndex(r: nat, k: nat)
    requires r % 32 == k % 32
    ensures SymbolFor(r) == SymbolFor(k)
  {
  }

  lemma {:induction false} PicksOne(r: nat, c: char)
    ensures Picked([r]) == [c] <==> SymbolFor(r) == c
  {
    hide Picked, SymbolFor;
    PicksExactly([r], [c]);
    assert [r][0] == r && [c][0] == c;
  }

  /** Taking the remainder is unbiased: of all 32-bit numbers, each symbol is picked by the
      same 2^27. */
  lemma {:induction false} PickIsUnbiased(k: nat)
    requires k < 32
    ensures |set r: nat | r < 0x1_0000_0000 && Picked([r]) == [SymbolFor(k)]| == 0x800_0000
  {
    hide SymbolFor, Picked;
    EquallyMany(k, 0x800_0000);
    forall r: nat
      ensures Picked([r]) == [SymbolFor(k)] <==> SymbolFor(r) == SymbolFor(k)
    {
      PicksOne(r, SymbolFor(k));
    }
    assert (set r: nat | r < 0x1_0000_0000 && Picked([r]) == [SymbolFor(k)]) == Picking(k, 0x800_0000);
  }

  /** A key is printed as four groups of eight with dashes between them. */
  lemma {:induction false} DisplaysFourGroups(key: string)
    requires |key| == 32
    ensures Displayed(key) == key[..8] + "-" + key[8..16] + "-" + key[16..24] + "-" + key[24..]
  {
    var b, c := key[8..], key[8..][8..];
    assert b == key[8..32] && c == key[16..32] && c[8..] == key[24..];
    assert Displayed(c[8..]) == key[24..];
    assert Displayed(c) == key[16..24] + "-" + key[24..];
    assert Displayed(b) == key[8..16] + "-" + Displayed(c);
  }

  // ---- What is refused, and why ------------------------------------------------------------

  function Alphanumerics(s: string): nat {
    if s == "" then 0 else (if IsAlphanumeric(s[0]) then 1 else 0) + Alphanumerics(s[1..])
  }

  lemma {:induction false} StrippedHas(s: string)
    ensures |Stripped(s)| == Alphanumerics(s)
    ensures (forall i :: 0 <= i < |Stripped(s)| ==> InAlphabet(Stripped(s)[i]) || Stripped(s)[i] == 'U')
    ensures 'U' in Stripped(s) <==> 'U' in s
  {
    if s == "" {
    } else {
      StrippedHas(s[1..]);
      AlphabetIs(Folded(s[0]));
      hide InAlphabet;
      assert s == [s[0]] + s[1..];
    }
  }

  /** The only letter that is refused is U; without it a text fails just for the number of
      its letters and digits. */
  lemma {:induction false} RefusesExactly(upper: Upper, input: string)
    ensures var s := Uppered(upper, input);
            var n := Alphanumerics(s);
            && (Normalized(upper, input) == Err(BadCharacter('U')) <==> 'U' in s)
            && (Normalized(upper, input) == Err(WrongLength(n)) <==> 'U' !in s && n != 32)
            && (Normalized(upper, input).Ok? <==> 'U' !in s && n == 32)
  {
    var cleaned := Stripped(Uppered(upper, input));
    StrippedHas(Uppered(upper, input));
    FirstBadIs(cleaned);
    AlphabetIs('U');
    hide Stripped, Uppered, InAlphabet, FirstBad, Alphanumerics;
  }
}
