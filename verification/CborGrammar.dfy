/** What the CBOR reader accepts, said without the reader: the bytes that write a value, with
    heads of any width (section 3 of RFC 8949), and UTF-8 as the encodings of Unicode scalar
    values (section 3 of RFC 3629). */
module CborGrammar {
  import opened Basics
  import opened Cbor
  import opened CborCodec

  // ---- Heads ----------------------------------------------------------------------------

  /** An initial byte that announces `width` bytes, and a number in those bytes. */
  predicate WritesArgument(b: seq<byte>, initial: nat, n: nat, width: nat) {
    initial < 256 && n < Pow256(width) && b == [initial] + ToBigEndian(n, width)
  }

  /** `b` is a head of this major type and argument, of any of the five widths that hold it. */
  predicate WritesHead(b: seq<byte>, major: nat, n: nat) {
    major < 8 &&
    (|| (n < 24 && b == [major * 32 + n])
     || WritesArgument(b, major * 32 + 24, n, 1)
     || WritesArgument(b, major * 32 + 25, n, 2)
     || WritesArgument(b, major * 32 + 26, n, 4)
     || WritesArgument(b, major * 32 + 27, n, 8))
  }

  lemma {:induction false} BigEndianIs(b: seq<byte>)
    ensures ToBigEndian(BigEndian(b), |b|) == b
  {
    if b == [] {
    } else {
      BigEndianIs(b[..|b| - 1]);
      assert b == b[..|b| - 1] + [b[|b| - 1]];
    }
  }

  lemma {:induction false} HeadIsWritten(b: seq<byte>)
    requires ParseHead(b).Ok?
    ensures var h := ParseHead(b).value; WritesHead(b[..h.used], h.major, h.value)
  {
    hide BigEndian, ToBigEndian, Pow256;
    var h := ParseHead(b).value;
    var argument := b[1..h.used];
    assert b[0] == h.major * 32 + b[0] % 32;
    if argument == [] {
      assert b[..h.used] == [b[0]];
    } else {
      BigEndianIs(argument);
      BigEndianBound(argument);
      assert b[..h.used] == [b[0]] + argument;
      assert WritesArgument(b[..h.used], b[0], h.value, |argument|);
    }
  }

  lemma {:induction false} WrittenHeadReads(b: seq<byte>, major: nat, n: nat, used: nat)
    requires used <= |b| && WritesHead(b[..used], major, n)
    ensures ParseHead(b) == Ok(Head(major, n, used))
  {
    hide BigEndian, ToBigEndian, Pow256;
    var head := b[..used];
    assert head[0] == b[0];
    if used > 1 {
      assert b[1..used] == head[1..] == ToBigEndian(n, used - 1);
      BigEndianRoundTrip(n, used - 1);
    }
  }

  // ---- Texts ----------------------------------------------------------------------------

  predicate IsScalar(u: nat) {
    u < 0xD800 || 0xE000 <= u < 0x11_0000
  }

  /** Six bits of a scalar value, as a continuation byte. */
  function Trail(u: nat): byte {
    0x80 + u % 64
  }

  function EncodeScalar(u: nat): seq<byte>
    requires IsScalar(u)
  {
    if u < 0x80 then [u]
    else if u < 0x800 then [0xC0 + u / 64, Trail(u)]
    else if u < 0x1_0000 then [0xE0 + u / 64 / 64, Trail(u / 64), Trail(u)]
    else [0xF0 + u / 64 / 64 / 64, Trail(u / 64 / 64), Trail(u / 64), Trail(u)]
  }

  ghost predicate EncodesText(b: seq<byte>, us: seq<nat>) {
    if us == [] then b == []
    else IsScalar(us[0]) && EncodeScalar(us[0]) <= b && EncodesText(b[|EncodeScalar(us[0])|..], us[1..])
  }

  lemma {:induction false} TwoBytes(a: nat, b: nat)
    requires 2 <= a < 32 && b < 64
    ensures IsScalar(a * 64 + b) && EncodeScalar(a * 64 + b) == [0xC0 + a, 0x80 + b]
  {
  }

  lemma {:induction false} ThreeBytes(a: nat, b: nat, c: nat)
    requires a < 16 && b < 64 && c < 64 && (a == 0 ==> b >= 32) && (a == 13 ==> b < 32)
    ensures var u := (a * 64 + b) * 64 + c;
            IsScalar(u) && EncodeScalar(u) == [0xE0 + a, 0x80 + b, 0x80 + c]
  {
    var u := (a * 64 + b) * 64 + c;
    assert u / 64 == a * 64 + b && u % 64 == c;
  }

  lemma {:induction false} FourBytes(a: nat, b: nat, c: nat, d: nat)
    requires a < 5 && b < 64 && c < 64 && d < 64 && (a == 0 ==> b >= 16) && (a == 4 ==> b < 16)
    ensures var u := ((a * 64 + b) * 64 + c) * 64 + d;
            IsScalar(u) && EncodeScalar(u) == [0xF0 + a, 0x80 + b, 0x80 + c, 0x80 + d]
  {
    var u := ((a * 64 + b) * 64 + c) * 64 + d;
    assert u / 64 == (a * 64 + b) * 64 + c && u % 64 == d;
    assert u / 64 / 64 == a * 64 + b;
  }

  /** The scalar value at the start of a well-formed text. */
  lemma {:induction false} FirstScalar(b: seq<byte>) returns (u: nat)
    requires Utf8(b) && b != []
    ensures IsScalar(u) && EncodeScalar(u) <= b && Utf8(b[|EncodeScalar(u)|..])
  {
    hide EncodeScalar, IsScalar;
    var lead: nat := b[0];
    if lead < 0x80 {
      u := lead;
      OneByte(u);
    } else {
      var second: nat := b[1] - 0x80;
      if lead < 0xE0 {
        u := (lead - 0xC0) * 64 + second;
        TwoBytes(lead - 0xC0, second);
      } else {
        var third: nat := b[2] - 0x80;
        if lead < 0xF0 {
          u := ((lead - 0xE0) * 64 + second) * 64 + third;
          ThreeBytes(lead - 0xE0, second, third);
        } else {
          var fourth: nat := b[3] - 0x80;
          u := (((lead - 0xF0) * 64 + second) * 64 + third) * 64 + fourth;
          FourBytes(lead - 0xF0, second, third, fourth);
        }
      }
    }
  }

  lemma OneByte(u: nat)
    requires u < 0x80
    ensures IsScalar(u) && EncodeScalar(u) == [u]
  {
  }

  lemma {:induction false} ScalarThenText(u: nat, b: seq<byte>)
    requires IsScalar(u) && EncodeScalar(u) <= b && Utf8(b[|EncodeScalar(u)|..])
    ensures Utf8(b)
  {
    var e := EncodeScalar(u);
    assert forall i :: 0 <= i < |e| ==> b[i] == e[i];
  }

  lemma {:induction false} TextIsScalars(b: seq<byte>) returns (us: seq<nat>)
    requires Utf8(b)
    ensures EncodesText(b, us)
  {
    hide Utf8, EncodeScalar;
    if b == [] {
      us := [];
    } else {
      var u := FirstScalar(b);
      EncodedIsNotEmpty(u);
      var rest := TextIsScalars(b[|EncodeScalar(u)|..]);
      us := [u] + rest;
      assert us[1..] == rest;
    }
  }

  lemma EncodedIsNotEmpty(u: nat)
    requires IsScalar(u)
    ensures EncodeScalar(u) != []
  {
  }

  lemma {:induction false} ScalarsAreText(b: seq<byte>, us: seq<nat>)
    requires EncodesText(b, us)
    ensures Utf8(b)
    decreases us
  {
    if us == [] {
    } else {
      hide Utf8, EncodeScalar;
      ScalarsAreText(b[|EncodeScalar(us[0])|..], us[1..]);
      ScalarThenText(us[0], b);
    }
  }

  /** A text is accepted exactly when it is the encodings of some Unicode scalar values,
      one after another. */
  lemma {:induction false} Utf8Exactly(b: seq<byte>)
    ensures Utf8(b) <==> exists us :: EncodesText(b, us)
  {
    hide Utf8, EncodesText;
    if Utf8(b) { var us := TextIsScalars(b); }
    forall us | EncodesText(b, us) ensures Utf8(b) { ScalarsAreText(b, us); }
  }

  // ---- Values -------------------------------------------------------------------------------

  ghost predicate WritesString(b: seq<byte>, major: nat, s: seq<byte>) {
    exists k: nat {:trigger b[..k]} :: k <= |b| && WritesHead(b[..k], major, |s|) && b[k..] == s
  }

  ghost predicate Writes(b: seq<byte>, v: Value)
    decreases v, 0
  {
    match v
    case Unsigned(n) => WritesHead(b, 0, n)
    case Negative(n) => -TWO_63 <= n < 0 && WritesHead(b, 1, -1 - n)
    case Bytes(s) => WritesString(b, 2, s)
    case Text(s) => Utf8(s) && WritesString(b, 3, s)
    case Array(items) =>
      exists k: nat {:trigger b[..k]} :: k <= |b| && WritesHead(b[..k], 4, |items|) && WritesItems(b[k..], items)
    case Map(entries) =>
      exists k: nat {:trigger b[..k]} :: k <= |b| && WritesHead(b[..k], 5, |entries|) && WritesEntries(b[k..], entries)
  }

  ghost predicate WritesItems(b: seq<byte>, items: seq<Value>)
    decreases items, 0
  {
    if items == [] then b == []
    else exists k: nat {:trigger b[..k]} :: k <= |b| && Writes(b[..k], items[0]) && WritesItems(b[k..], items[1..])
  }

  ghost predicate WritesEntries(b: seq<byte>, entries: seq<Entry>)
    decreases entries, 0
  {
    if entries == [] then b == []
    else
      exists k: nat {:trigger b[..k]} ::
        k <= |b| && WritesEntry(b[..k], entries[0]) && WritesEntries(b[k..], entries[1..])
  }

  ghost predicate WritesEntry(b: seq<byte>, e: Entry)
    decreases e, 1
  {
    exists k: nat {:trigger b[..k]} :: k <= |b| && Writes(b[..k], e.key) && Writes(b[k..], e.value)
  }

  // ---- Whatever is read was written ------------------------------------------------------------

  lemma {:induction false} Prefix(b: seq<byte>, at: nat, used: nat)
    requires at <= used <= |b|
    ensures b[..used][..at] == b[..at] && b[..used][at..] == b[at..][..used - at] == b[at..used]
  {
  }

  lemma {:induction false} ReadIsWritten(b: seq<byte>)
    requires ParseValue(b).Ok?
    ensures Writes(b[..ParseValue(b).value.used], ParseValue(b).value.value)
    decreases |b|, 0
  {
    hide ParseHead, WritesHead, ParseItems, ParseEntries, WritesItems, WritesEntries, Utf8;
    var h := ParseHead(b).value;
    var used := ParseValue(b).value.used;
    HeadIsWritten(b);
    Prefix(b, h.used, used);
    if h.major == 4 {
      ItemsAreWritten(b[h.used..], h.value);
    } else if h.major == 5 {
      EntriesAreWritten(b[h.used..], h.value);
    }
    assert WritesHead(b[..used][..h.used], h.major, h.value);
  }

  lemma {:induction false} ItemsAreWritten(b: seq<byte>, n: nat)
    requires ParseItems(b, n).Ok?
    ensures WritesItems(b[..ParseItems(b, n).value.used], ParseItems(b, n).value.value)
    decreases |b|, 1
  {
    hide ParseValue, Writes;
    if n == 0 {
    } else {
      var first := ParseValue(b).value;
      var all := ParseItems(b, n).value;
      ReadIsWritten(b);
      ItemsAreWritten(b[first.used..], n - 1);
      Prefix(b, first.used, all.used);
      assert all.value[1..] == ParseItems(b[first.used..], n - 1).value.value;
      assert Writes(b[..all.used][..first.used], all.value[0]);
    }
  }

  lemma {:induction false} EntriesAreWritten(b: seq<byte>, n: nat)
    requires ParseEntries(b, n).Ok?
    ensures WritesEntries(b[..ParseEntries(b, n).value.used], ParseEntries(b, n).value.value)
    decreases |b|, 1
  {
    hide ParseValue, Writes;
    if n == 0 {
    } else {
      var k := ParseValue(b).value;
      var v := ParseValue(b[k.used..]).value;
      var at := k.used + v.used;
      var all := ParseEntries(b, n).value;
      ReadIsWritten(b);
      ReadIsWritten(b[k.used..]);
      EntriesAreWritten(b[at..], n - 1);
      Prefix(b, at, all.used);
      Prefix(b, k.used, at);
      assert WritesEntry(b[..at], Entry(k.value, v.value)) by {
        assert Writes(b[..at][..k.used], k.value);
      }
      assert all.value[0] == Entry(k.value, v.value);
      assert all.value[1..] == ParseEntries(b[at..], n - 1).value.value;
      assert WritesEntry(b[..all.used][..at], all.value[0]);
    }
  }

  // ---- Whatever is written reads -----------------------------------------------------------------

  lemma {:induction false} WrittenReads(b: seq<byte>, v: Value, used: nat)
    requires used <= |b| && Writes(b[..used], v)
    ensures ParseValue(b) == Ok(Parsed(v, used))
    decreases v, 0
  {
    hide ParseHead, WritesHead, ParseItems, ParseEntries, WritesItems, WritesEntries, Utf8;
    var w := b[..used];
    match v {
      case Unsigned(n) => WrittenHeadReads(b, 0, n, used);
      case Negative(n) => WrittenHeadReads(b, 1, -1 - n, used);
      case Bytes(s) => StringReads(b, 2, s, used);
      case Text(s) => StringReads(b, 3, s, used);
      case Array(items) =>
        var k: nat :| k <= |w| && WritesHead(w[..k], 4, |items|) && WritesItems(w[k..], items);
        Prefix(b, k, used);
        WrittenHeadReads(b, 4, |items|, k);
        HeadInBounds(b);
        WrittenItemsRead(b[k..], items, used - k);
      case Map(entries) =>
        var k: nat :| k <= |w| && WritesHead(w[..k], 5, |entries|) && WritesEntries(w[k..], entries);
        Prefix(b, k, used);
        WrittenHeadReads(b, 5, |entries|, k);
        HeadInBounds(b);
        WrittenEntriesRead(b[k..], entries, used - k);
    }
  }

  lemma HeadInBounds(b: seq<byte>)
    requires ParseHead(b).Ok?
    ensures 0 < ParseHead(b).value.used <= |b|
  {
  }

  lemma {:induction false} StringReads(b: seq<byte>, major: nat, s: seq<byte>, used: nat)
    requires used <= |b| && WritesString(b[..used], major, s)
    ensures ParseHead(b).Ok? && ParseHead(b).value.major == major && ParseHead(b).value.value == |s|
    ensures ParseHead(b).value.used + |s| == used && b[ParseHead(b).value.used..used] == s
  {
    hide ParseHead, WritesHead;
    var w := b[..used];
    var k: nat :| k <= |w| && WritesHead(w[..k], major, |s|) && w[k..] == s;
    Prefix(b, k, used);
    WrittenHeadReads(b, major, |s|, k);
  }

  lemma {:induction false} WrittenItemsRead(b: seq<byte>, items: seq<Value>, used: nat)
    requires used <= |b| && WritesItems(b[..used], items)
    ensures ParseItems(b, |items|) == Ok(Parsed(items, used))
    decreases items, 0
  {
    hide ParseValue, Writes;
    if items == [] {
    } else {
      var w := b[..used];
      var k: nat :| k <= |w| && Writes(w[..k], items[0]) && WritesItems(w[k..], items[1..]);
      Prefix(b, k, used);
      WrittenReads(b, items[0], k);
      WrittenItemsRead(b[k..], items[1..], used - k);
      assert [items[0]] + items[1..] == items;
    }
  }

  lemma {:induction false} WrittenEntriesRead(b: seq<byte>, entries: seq<Entry>, used: nat)
    requires used <= |b| && WritesEntries(b[..used], entries)
    ensures ParseEntries(b, |entries|) == Ok(Parsed(entries, used))
    decreases entries, 0
  {
    hide ParseValue, Writes, WritesEntry;
    if entries == [] {
    } else {
      var w := b[..used];
      var k: nat :| k <= |w| && WritesEntry(w[..k], entries[0]) && WritesEntries(w[k..], entries[1..]);
      Prefix(b, k, used);
      WrittenEntryReads(b, entries[0], k);
      WrittenEntriesRead(b[k..], entries[1..], used - k);
      var first := ParseValue(b).value.used;
      assert b[first..][ParseValue(b[first..]).value.used..] == b[k..];
      assert [entries[0]] + entries[1..] == entries;
    }
  }

  lemma {:induction false} WrittenEntryReads(b: seq<byte>, e: Entry, used: nat)
    requires used <= |b| && WritesEntry(b[..used], e)
    ensures ParseValue(b).Ok? && ParseValue(b).value.value == e.key && ParseValue(b).value.used <= used
    ensures var at := ParseValue(b).value.used;
            ParseValue(b[at..]) == Ok(Parsed(e.value, used - at))
    decreases e, 1
  {
    hide ParseValue, Writes;
    var w := b[..used];
    var k: nat :| k <= |w| && Writes(w[..k], e.key) && Writes(w[k..], e.value);
    Prefix(b, k, used);
    WrittenReads(b, e.key, k);
    WrittenReads(b[k..], e.value, used - k);
  }

  /** The reader accepts exactly the bytes that write a value, and consumes exactly those. */
  lemma {:induction false} ReadsExactly(b: seq<byte>, v: Value, used: nat)
    ensures ParseValue(b) == Ok(Parsed(v, used)) <==> used <= |b| && Writes(b[..used], v)
  {
    hide ParseValue, Writes;
    if ParseValue(b) == Ok(Parsed(v, used)) { ReadIsWritten(b); }
    if used <= |b| && Writes(b[..used], v) { WrittenReads(b, v, used); }
  }

  /** Only maps are accepted at the top level. */
  lemma {:induction false} TopLevelReadsExactly(b: seq<byte>, v: Value)
    ensures ParseTopLevelMap(b) == Ok(v) <==> v.Map? && exists used: nat :: used <= |b| && Writes(b[..used], v)
  {
    hide ParseHead, Writes, Utf8;
    if ParseTopLevelMap(b) == Ok(v) {
      ReadsExactly(b, v, ParseValue(b).value.used);
    }
    forall used: nat | used <= |b| && Writes(b[..used], v) && v.Map?
      ensures ParseTopLevelMap(b) == Ok(v)
    {
      ReadsExactly(b, v, used);
      MajorOf(b, v);
    }
  }

  lemma {:induction false} MajorOf(b: seq<byte>, v: Value)
    requires ParseValue(b).Ok? && ParseValue(b).value.value == v
    ensures ParseHead(b).Ok? && (v.Map? <==> ParseHead(b).value.major == 5)
  {
  }

  /** Tags, simple values and floats, and indefinite or reserved lengths, are refused. */
  lemma {:induction false} OthersAreRefused(b: seq<byte>)
    requires b != [] && (b[0] >= 0xC0 || b[0] % 32 >= 28)
    ensures ParseValue(b).Err?
  {
    hide ParseValue, Writes;
    forall v, used: nat | used <= |b| && Writes(b[..used], v)
      ensures false
    {
      StartsBelow(b[..used], v);
    }
    if ParseValue(b).Ok? { ReadIsWritten(b); }
  }

  lemma {:induction false} HeadStarts(b: seq<byte>, major: nat, n: nat)
    requires WritesHead(b, major, n) && major < 6
    ensures b != [] && b[0] < 0xC0 && b[0] % 32 < 28
  {
  }

  lemma {:induction false} StartsBelow(b: seq<byte>, v: Value)
    requires Writes(b, v)
    ensures b != [] && b[0] < 0xC0 && b[0] % 32 < 28
  {
    hide WritesHead, WritesItems, WritesEntries, Utf8;
    match v {
      case Unsigned(n) => HeadStarts(b, 0, n);
      case Negative(n) => HeadStarts(b, 1, -1 - n);
      case Bytes(s) =>
        var k: nat :| k <= |b| && WritesHead(b[..k], 2, |s|) && b[k..] == s;
        HeadStarts(b[..k], 2, |s|);
      case Text(s) =>
        var k: nat :| k <= |b| && WritesHead(b[..k], 3, |s|) && b[k..] == s;
        HeadStarts(b[..k], 3, |s|);
      case Array(items) =>
        var k: nat :| k <= |b| && WritesHead(b[..k], 4, |items|) && WritesItems(b[k..], items);
        HeadStarts(b[..k], 4, |items|);
      case Map(entries) =>
        var k: nat :| k <= |b| && WritesHead(b[..k], 5, |entries|) && WritesEntries(b[k..], entries);
        HeadStarts(b[..k], 5, |entries|);
    }
  }
}
