/** The shortest-head encoding (section 3 of RFC 8949) of the values the reader
    knows, and the laws between it and the reader. */
module CborCodec {
  import opened Basics
  import opened Cbor

  function EncodeHead(major: nat, n: nat): (b: seq<byte>)
    requires major < 8 && n < TWO_64
    ensures |b| > 0
  {
    if n < 24 then [major * 32 + n]
    else if n < 256 then [major * 32 + 24] + ToBigEndian(n, 1)
    else if n < TWO_16 then [major * 32 + 25] + ToBigEndian(n, 2)
    else if n < TWO_32 then [major * 32 + 26] + ToBigEndian(n, 4)
    else [major * 32 + 27] + ToBigEndian(n, 8)
  }

  /** Lengths and counts fit 64 bits, integers fit their Rust types, texts are UTF-8. */
  predicate Encodable(v: Value)
    decreases v, 0
  {
    match v
    case Unsigned(u) => u < TWO_64
    case Negative(n) => -TWO_63 <= n < 0
    case Bytes(b) => |b| < TWO_64
    case Text(t) => |t| < TWO_64 && Utf8(t)
    case Array(items) => |items| < TWO_64 && AllEncodable(items)
    case Map(entries) => |entries| < TWO_64 && EntriesEncodable(entries)
  }

  predicate AllEncodable(items: seq<Value>)
    decreases items, 1
  {
    items == [] || (Encodable(items[0]) && AllEncodable(items[1..]))
  }

  predicate EntriesEncodable(entries: seq<Entry>)
    decreases entries, 1
  {
    entries == [] || (EntryEncodable(entries[0]) && EntriesEncodable(entries[1..]))
  }

  predicate EntryEncodable(e: Entry)
    decreases e, 1
  {
    Encodable(e.key) && Encodable(e.value)
  }

  function Encode(v: Value): seq<byte>
    requires Encodable(v)
    decreases v, 0
  {
    match v
    case Unsigned(u) => EncodeHead(0, u)
    case Negative(n) => EncodeHead(1, -1 - n)
    case Bytes(b) => EncodeHead(2, |b|) + b
    case Text(t) => EncodeHead(3, |t|) + t
    case Array(items) => EncodeHead(4, |items|) + EncodeItems(items)
    case Map(entries) => EncodeHead(5, |entries|) + EncodeEntries(entries)
  }

  function EncodeItems(items: seq<Value>): seq<byte>
    requires AllEncodable(items)
    decreases items, 1
  {
    if items == [] then [] else Encode(items[0]) + EncodeItems(items[1..])
  }

  function EncodeEntries(entries: seq<Entry>): seq<byte>
    requires EntriesEncodable(entries)
    decreases entries, 1
  {
    if entries == [] then [] else EncodeEntry(entries[0]) + EncodeEntries(entries[1..])
  }

  function EncodeEntry(e: Entry): seq<byte>
    requires EntryEncodable(e)
    decreases e, 1
  {
    Encode(e.key) + Encode(e.value)
  }

  // ---- Numbers ----------------------------------------------------------------------

  lemma {:induction false} BigEndianRoundTrip(n: nat, width: nat)
    requires n < Pow256(width)
    ensures BigEndian(ToBigEndian(n, width)) == n
  {
    if width == 0 {
    } else {
      BigEndianRoundTrip(n / 256, width - 1);
      assert ToBigEndian(n, width)[..width - 1] == ToBigEndian(n / 256, width - 1);
    }
  }

  lemma {:induction false} BigEndianBound(b: seq<byte>)
    ensures BigEndian(b) < Pow256(|b|)
  {
    if b == [] {
    } else {
      BigEndianBound(b[..|b| - 1]);
    }
  }

  lemma {:induction false} Powers()
    ensures Pow256(1) == 256 && Pow256(2) == TWO_16 && Pow256(4) == TWO_32 && Pow256(8) == TWO_64
  {
    assert Pow256(3) == 0x100_0000 && Pow256(4) == TWO_32;
    assert Pow256(6) == 0x1_0000_0000_0000;
  }

  // ---- Heads --------------------------------------------------------------------------

  lemma {:induction false} HeadRoundTrip(major: nat, n: nat, rest: seq<byte>)
    requires major < 8 && n < TWO_64
    ensures ParseHead(EncodeHead(major, n) + rest) == Ok(Head(major, n, |EncodeHead(major, n)|))
  {
    Powers();
    var head := EncodeHead(major, n);
    var w := |head| - 1;
    if w > 0 {
      BigEndianRoundTrip(n, w);
      assert (head + rest)[1..1 + w] == ToBigEndian(n, w);
    }
  }

  /** Whatever width a head was written in, the shortest one is no longer. */
  lemma {:induction false} HeadShortest(b: seq<byte>)
    requires ParseHead(b).Ok?
    ensures var h := ParseHead(b).value;
            h.value < TWO_64 && |EncodeHead(h.major, h.value)| <= h.used
  {
    Powers();
    var h := ParseHead(b).value;
    BigEndianBound(b[1..h.used]);
  }

  lemma {:induction false} HeadPrefix(b: seq<byte>, c: seq<byte>)
    requires ParseHead(b).Ok? && ParseHead(b).value.used <= |c|
    requires b[..ParseHead(b).value.used] == c[..ParseHead(b).value.used]
    ensures ParseHead(c) == ParseHead(b)
  {
    var u := ParseHead(b).value.used;
    assert b[..u][0] == c[..u][0];
    assert b[1..u] == b[..u][1..] == c[..u][1..] == c[1..u];
  }

  // ---- Round trip ----------------------------------------------------------------------

  /** Reading an encoding, whatever follows it, returns the value and consumes exactly
      the encoding. */
  lemma {:induction false} RoundTrip(v: Value, rest: seq<byte>)
    requires Encodable(v)
    ensures ParseValue(Encode(v) + rest) == Ok(Parsed(v, |Encode(v)|))
    decreases v, 0
  {
    hide EncodeHead, ParseHead, EncodeItems, EncodeEntries, ParseItems, ParseEntries;
    match v {
      case Unsigned(u) => HeadRoundTrip(0, u, rest);
      case Negative(n) => HeadRoundTrip(1, -1 - n, rest);
      case Bytes(b) => StringRoundTrip(2, b, rest);
      case Text(t) => StringRoundTrip(3, t, rest);
      case Array(items) =>
        var head, body := EncodeHead(4, |items|), EncodeItems(items);
        HeadRoundTrip(4, |items|, body + rest);
        Splits(head, body, rest);
        ItemsRoundTrip(items, rest);
      case Map(entries) =>
        var head, body := EncodeHead(5, |entries|), EncodeEntries(entries);
        HeadRoundTrip(5, |entries|, body + rest);
        Splits(head, body, rest);
        EntriesRoundTrip(entries, rest);
    }
  }

  lemma {:induction false} Splits(head: seq<byte>, body: seq<byte>, rest: seq<byte>)
    ensures head + body + rest == head + (body + rest)
    ensures (head + body + rest)[|head|..] == body + rest
    ensures (head + body + rest)[|head|..|head| + |body|] == body
  {
  }

  lemma {:induction false} StringRoundTrip(major: nat, b: seq<byte>, rest: seq<byte>)
    requires (major == 2 || (major == 3 && Utf8(b))) && |b| < TWO_64
    ensures var head := EncodeHead(major, |b|);
            ParseValue(head + b + rest) == Ok(Parsed(if major == 2 then Bytes(b) else Text(b), |head| + |b|))
  {
    var head := EncodeHead(major, |b|);
    HeadRoundTrip(major, |b|, b + rest);
    Splits(head, b, rest);
    hide EncodeHead, ParseHead;
  }

  lemma {:induction false} ItemsRoundTrip(items: seq<Value>, rest: seq<byte>)
    requires AllEncodable(items)
    ensures ParseItems(EncodeItems(items) + rest, |items|) == Ok(Parsed(items, |EncodeItems(items)|))
    decreases items, 1
  {
    hide ParseValue, Encode;
    if items == [] {
    } else {
      var first, more := Encode(items[0]), EncodeItems(items[1..]);
      Splits(first, more, rest);
      RoundTrip(items[0], more + rest);
      ItemsRoundTrip(items[1..], rest);
      assert [items[0]] + items[1..] == items;
    }
  }

  lemma {:induction false} EntryRoundTrip(e: Entry, rest: seq<byte>)
    requires EntryEncodable(e)
    ensures var b := EncodeEntry(e) + rest;
            && ParseValue(b) == Ok(Parsed(e.key, |Encode(e.key)|))
            && ParseValue(b[|Encode(e.key)|..]) == Ok(Parsed(e.value, |Encode(e.value)|))
    decreases e, 1
  {
    hide ParseValue, Encode;
    var k, v := Encode(e.key), Encode(e.value);
    Splits(k, v, rest);
    RoundTrip(e.key, v + rest);
    RoundTrip(e.value, rest);
  }

  lemma {:induction false} EntriesRoundTrip(entries: seq<Entry>, rest: seq<byte>)
    requires EntriesEncodable(entries)
    ensures ParseEntries(EncodeEntries(entries) + rest, |entries|) == Ok(Parsed(entries, |EncodeEntries(entries)|))
    decreases entries, 1
  {
    hide ParseValue, Encode;
    if entries == [] {
    } else {
      var entry, more := EncodeEntry(entries[0]), EncodeEntries(entries[1..]);
      Splits(entry, more, rest);
      EntryRoundTrip(entries[0], more + rest);
      EntriesRoundTrip(entries[1..], rest);
      assert [entries[0]] + entries[1..] == entries;
    }
  }

  // ---- The reader looks at what it consumes, and no further --------------------------

  /** Appending or changing bytes after the consumed prefix never changes the result. */
  lemma {:induction false} PrefixDecides(b: seq<byte>, c: seq<byte>)
    requires ParseValue(b).Ok? && ParseValue(b).value.used <= |c|
    requires b[..ParseValue(b).value.used] == c[..ParseValue(b).value.used]
    ensures ParseValue(c) == ParseValue(b)
    decreases |b|, 0
  {
    hide Utf8, BigEndian;
    var used := ParseValue(b).value.used;
    var h := ParseHead(b).value;
    SamePrefix(b, c, used, h.used);
    HeadPrefix(b, c);
    if h.major == 2 || h.major == 3 {
      assert b[h.used..used] == b[..used][h.used..] == c[..used][h.used..] == c[h.used..used];
    } else if h.major == 4 {
      ItemsPrefixDecides(b[h.used..], c[h.used..], h.value);
    } else if h.major == 5 {
      EntriesPrefixDecides(b[h.used..], c[h.used..], h.value);
    }
    hide ParseHead, ParseItems, ParseEntries, HeadWidth;
  }

  lemma {:induction false} SamePrefix(b: seq<byte>, c: seq<byte>, n: nat, k: nat)
    requires k <= n <= |b| && n <= |c| && b[..n] == c[..n]
    ensures b[..k] == c[..k] && b[k..][..n - k] == c[k..][..n - k]
  {
    assert b[..k] == b[..n][..k] && c[..k] == c[..n][..k];
    assert b[k..][..n - k] == b[..n][k..] && c[k..][..n - k] == c[..n][k..];
  }

  lemma {:induction false} ItemsPrefixDecides(b: seq<byte>, c: seq<byte>, n: nat)
    requires ParseItems(b, n).Ok? && ParseItems(b, n).value.used <= |c|
    requires b[..ParseItems(b, n).value.used] == c[..ParseItems(b, n).value.used]
    ensures ParseItems(c, n) == ParseItems(b, n)
    decreases |b|, 1
  {
    hide ParseValue;
    if n == 0 {
    } else {
      var used, k := ParseItems(b, n).value.used, ParseValue(b).value.used;
      SamePrefix(b, c, used, k);
      PrefixDecides(b, c);
      ItemsPrefixDecides(b[k..], c[k..], n - 1);
    }
  }

  lemma {:induction false} SameEntry(b: seq<byte>, c: seq<byte>, n: nat)
    requires n > 0 && ParseEntries(b, n).Ok? && ParseValue(c) == ParseValue(b)
    requires var k := ParseValue(b).value.used;
             && k <= |c| && ParseValue(c[k..]) == ParseValue(b[k..])
             && var v := ParseValue(b[k..]).value.used;
                k + v <= |c| && ParseEntries(c[k + v..], n - 1) == ParseEntries(b[k + v..], n - 1)
    ensures ParseEntries(c, n) == ParseEntries(b, n)
  {
    hide ParseValue;
  }

  lemma {:induction false} EntriesPrefixDecides(b: seq<byte>, c: seq<byte>, n: nat)
    requires ParseEntries(b, n).Ok? && ParseEntries(b, n).value.used <= |c|
    requires b[..ParseEntries(b, n).value.used] == c[..ParseEntries(b, n).value.used]
    ensures ParseEntries(c, n) == ParseEntries(b, n)
    decreases |b|, 1
  {
    hide ParseValue;
    if n == 0 {
    } else {
      var used, k := ParseEntries(b, n).value.used, ParseValue(b).value.used;
      var v := ParseValue(b[k..]).value.used;
      assert used == k + v + ParseEntries(b[k + v..], n - 1).value.used;
      hide ParseEntries;
      SamePrefix(b, c, used, k);
      PrefixDecides(b, c);
      SamePrefix(b[k..], c[k..], used - k, v);
      PrefixDecides(b[k..], c[k..]);
      SamePrefix(b, c, used, k + v);
      EntriesPrefixDecides(b[k + v..], c[k + v..], n - 1);
      SameEntry(b, c, n);
    }
  }

  // ---- Everything read can be written again, no longer than it was --------------------

  lemma {:induction false} ReencodesNoLonger(b: seq<byte>)
    requires ParseValue(b).Ok?
    ensures var p := ParseValue(b).value;
            Encodable(p.value) && |Encode(p.value)| <= p.used
    decreases |b|, 0
  {
    var h := ParseHead(b).value;
    HeadShortest(b);
    if h.major == 4 {
      ItemsReencode(b[h.used..], h.value);
    } else if h.major == 5 {
      EntriesReencode(b[h.used..], h.value);
    }
    hide ParseHead, EncodeHead, ParseItems, ParseEntries, EncodeItems, EncodeEntries, AllEncodable, EntriesEncodable;
  }

  lemma {:induction false} ItemsReencode(b: seq<byte>, n: nat)
    requires ParseItems(b, n).Ok?
    ensures var p := ParseItems(b, n).value;
            AllEncodable(p.value) && |EncodeItems(p.value)| <= p.used
    decreases |b|, 1
  {
    hide ParseValue, Encode, Encodable;
    if n == 0 {
    } else {
      var first := ParseValue(b).value;
      ReencodesNoLonger(b);
      ItemsReencode(b[first.used..], n - 1);
      assert ParseItems(b, n).value.value[1..] == ParseItems(b[first.used..], n - 1).value.value;
    }
  }

  lemma {:induction false} EntriesReencode(b: seq<byte>, n: nat)
    requires ParseEntries(b, n).Ok?
    ensures var p := ParseEntries(b, n).value;
            EntriesEncodable(p.value) && |EncodeEntries(p.value)| <= p.used
    decreases |b|, 1
  {
    hide ParseValue, Encode, Encodable;
    if n == 0 {
    } else {
      var k := ParseValue(b).value;
      var v := ParseValue(b[k.used..]).value;
      ReencodesNoLonger(b);
      ReencodesNoLonger(b[k.used..]);
      EntriesReencode(b[k.used + v.used..], n - 1);
      assert ParseEntries(b, n).value.value[1..] == ParseEntries(b[k.used + v.used..], n - 1).value.value;
    }
  }

  /** Two inputs that read as the same value have the same shortest encoding, and
      the reader accepts a value exactly when it is encodable. */
  lemma {:induction false} AcceptedValues(v: Value)
    ensures Encodable(v) <==> exists b: seq<byte> :: ParseValue(b).Ok? && ParseValue(b).value.value == v
  {
    if Encodable(v) {
      RoundTrip(v, []);
      var b := Encode(v) + [];
      assert ParseValue(b).Ok? && ParseValue(b).value.value == v;
    }
    forall b: seq<byte> | ParseValue(b).Ok? && ParseValue(b).value.value == v
      ensures Encodable(v)
    {
      ReencodesNoLonger(b);
    }
  }
}
