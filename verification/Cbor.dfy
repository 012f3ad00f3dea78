/** The hand-written CBOR reader of the passkey code: what it accepts, and that it
    is the inverse of the shortest-head encoding of section 3 of RFC 8949. */
module Cbor {
  import opened Basics

  const TWO_16: nat := 0x1_0000
  const TWO_63: int := 0x8000_0000_0000_0000
  const TWO_64: nat := 0x1_0000_0000_0000_0000

  datatype Error = Truncated | UnsupportedInfo | IntegerOverflow | NotUtf8 | UnsupportedMajor | NotAMap

  /** A decoded value; a text is kept as its UTF-8 bytes. */
  datatype Value =
    | Unsigned(u: nat)
    | Negative(n: int)
    | Bytes(bytes: seq<byte>)
    | Text(text: seq<byte>)
    | Array(items: seq<Value>)
    | Map(entries: seq<Entry>)

  datatype Entry = Entry(key: Value, value: Value)

  datatype Head = Head(major: nat, value: nat, used: nat)
  datatype Parsed<+T> = Parsed(value: T, used: nat)

  // ---- Numbers and texts --------------------------------------------------------

  function Pow256(k: nat): nat {
    if k == 0 then 1 else Pow256(k - 1) * 256
  }

  predicate Continuation(b: byte) {
    0x80 <= b < 0xC0
  }

  /** Well-formed UTF-8, as Rust's String::from_utf8 decides it: no overlong form,
      no surrogate, nothing above U+10FFFF. */
  predicate Utf8(b: seq<byte>) {
    if b == [] then true
    else if b[0] < 0x80 then Utf8(b[1..])
    else if 0xC2 <= b[0] < 0xE0 then |b| >= 2 && Continuation(b[1]) && Utf8(b[2..])
    else if 0xE0 <= b[0] < 0xF0 then
      && |b| >= 3 && Continuation(b[1]) && Continuation(b[2])
      && (b[0] == 0xE0 ==> b[1] >= 0xA0) && (b[0] == 0xED ==> b[1] < 0xA0)
      && Utf8(b[3..])
    else if 0xF0 <= b[0] < 0xF5 then
      && |b| >= 4 && Continuation(b[1]) && Continuation(b[2]) && Continuation(b[3])
      && (b[0] == 0xF0 ==> b[1] >= 0x90) && (b[0] == 0xF4 ==> b[1] < 0x90)
      && Utf8(b[4..])
    else false
  }

  // ---- What the reader computes ---------------------------------------------------

  /** Bytes that follow the initial byte for each additional-information value. */
  function HeadWidth(info: nat): nat {
    if info < 24 then 0 else if info == 24 then 1 else if info == 25 then 2 else if info == 26 then 4 else 8
  }

  function ParseHead(b: seq<byte>): (r: Result<Head, Error>)
    ensures r.Ok? ==> 0 < r.value.used <= |b| && r.value.major < 8
  {
    if b == [] then Err(Truncated)
    else
      var major, info := b[0] / 32, b[0] % 32;
      var w := HeadWidth(info);
      if info > 27 then Err(UnsupportedInfo)
      else if |b| < 1 + w then Err(Truncated)
      else Ok(Head(major, if w == 0 then info else BigEndian(b[1..1 + w]), 1 + w))
  }

  function ParseValue(b: seq<byte>): (r: Result<Parsed<Value>, Error>)
    ensures r.Ok? ==> 0 < r.value.used <= |b|
    decreases |b|, 0
  {
    var head := ParseHead(b);
    if head.Err? then Err(head.error)
    else
      var Head(major, n, at) := head.value;
      if major == 0 then Ok(Parsed(Unsigned(n), at))
      else if major == 1 then
        if n >= TWO_63 then Err(IntegerOverflow) else Ok(Parsed(Negative(-1 - n), at))
      else if major == 2 || major == 3 then
        if |b| < at + n then Err(Truncated)
        else if major == 2 then Ok(Parsed(Bytes(b[at..at + n]), at + n))
        else if Utf8(b[at..at + n]) then Ok(Parsed(Text(b[at..at + n]), at + n))
        else Err(NotUtf8)
      else if major == 4 then
        var items := ParseItems(b[at..], n);
        if items.Err? then Err(items.error)
        else Ok(Parsed(Array(items.value.value), at + items.value.used))
      else if major == 5 then
        var entries := ParseEntries(b[at..], n);
        if entries.Err? then Err(entries.error)
        else Ok(Parsed(Map(entries.value.value), at + entries.value.used))
      else Err(UnsupportedMajor)
  }

  function ParseItems(b: seq<byte>, n: nat): (r: Result<Parsed<seq<Value>>, Error>)
    ensures r.Ok? ==> r.value.used <= |b| && |r.value.value| == n
    decreases |b|, 1
  {
    if n == 0 then Ok(Parsed([], 0))
    else
      var first := ParseValue(b);
      if first.Err? then Err(first.error)
      else
        var rest := ParseItems(b[first.value.used..], n - 1);
        if rest.Err? then Err(rest.error)
        else Ok(Parsed([first.value.value] + rest.value.value, first.value.used + rest.value.used))
  }

  function ParseEntries(b: seq<byte>, n: nat): (r: Result<Parsed<seq<Entry>>, Error>)
    ensures r.Ok? ==> r.value.used <= |b| && |r.value.value| == n
    decreases |b|, 1
  {
    if n == 0 then Ok(Parsed([], 0))
    else
      var k := ParseValue(b);
      if k.Err? then Err(k.error)
      else
        var v := ParseValue(b[k.value.used..]);
        if v.Err? then Err(v.error)
        else
          var at := k.value.used + v.value.used;
          var rest := ParseEntries(b[at..], n - 1);
          if rest.Err? then Err(rest.error)
          else Ok(Parsed([Entry(k.value.value, v.value.value)] + rest.value.value, at + rest.value.used))
  }

  /** A top-level map: the head is read twice, once to check the major type. */
  function ParseTopLevelMap(b: seq<byte>): (r: Result<Value, Error>)
    ensures r.Ok? ==> r.value.Map?
  {
    var head := ParseHead(b);
    if head.Err? then Err(head.error)
    else if head.value.major != 5 then Err(NotAMap)
    else
      var v := ParseValue(b);
      if v.Err? then Err(v.error) else Ok(v.value.value)
  }

  /** What a loop has read so far, followed by what remains to be read. */
  function Then<T>(done: seq<T>, used: nat, rest: Result<Parsed<seq<T>>, Error>): Result<Parsed<seq<T>>, Error> {
    if rest.Err? then rest else Ok(Parsed(done + rest.value.value, used + rest.value.used))
  }

  lemma {:induction false} ThenEnds<T>(done: seq<T>, used: nat, rest: Result<Parsed<seq<T>>, Error>)
    ensures Then([], 0, rest) == rest
    ensures Then(done, used, Ok(Parsed([], 0))) == Ok(Parsed(done, used))
    ensures forall b :: ParseItems(b, 0) == Ok(Parsed([], 0)) && ParseEntries(b, 0) == Ok(Parsed([], 0))
  {
    assert done + [] == done;
    if rest.Ok? { assert [] + rest.value.value == rest.value.value; }
  }

  lemma {:induction false} OneItemOn(done: seq<Value>, used: nat, b: seq<byte>, n: nat)
    requires n > 0
    ensures var first := ParseValue(b);
            Then(done, used, ParseItems(b, n)) ==
            if first.Err? then Err(first.error)
            else Then(done + [first.value.value], used + first.value.used, ParseItems(b[first.value.used..], n - 1))
  {
    hide ParseValue;
    var first := ParseValue(b);
    if first.Ok? {
      var rest := ParseItems(b[first.value.used..], n - 1);
      if rest.Ok? {
        assert done + ([first.value.value] + rest.value.value) == done + [first.value.value] + rest.value.value;
      }
    }
  }

  lemma {:induction false} OneEntryOn(done: seq<Entry>, used: nat, b: seq<byte>, n: nat)
    requires n > 0
    ensures var k := ParseValue(b);
            Then(done, used, ParseEntries(b, n)) ==
            if k.Err? then Err(k.error)
            else
              var v := ParseValue(b[k.value.used..]);
              if v.Err? then Err(v.error)
              else
                var at := k.value.used + v.value.used;
                Then(done + [Entry(k.value.value, v.value.value)], used + at, ParseEntries(b[at..], n - 1))
  {
    hide ParseValue;
    var k := ParseValue(b);
    if k.Ok? {
      var v := ParseValue(b[k.value.used..]);
      if v.Ok? {
        var at, entry := k.value.used + v.value.used, Entry(k.value.value, v.value.value);
        var rest := ParseEntries(b[at..], n - 1);
        hide ParseEntries;
        if rest.Ok? {
          assert done + ([entry] + rest.value.value) == done + [entry] + rest.value.value;
        }
      }
    }
  }

  // ---- The reader and its cursor ----------------------------------------------------

  class Reader {
    const data: seq<byte>
    var pos: nat

    ghost predicate Valid()
      reads this
    {
      pos <= |data|
    }

    constructor (data: seq<byte>)
      ensures Valid() && this.data == data && pos == 0
    {
      this.data, pos := data, 0;
    }

    method Take(n: nat) returns (r: Result<seq<byte>, Error>)
      requires Valid()
      modifies this
      ensures Valid()
      ensures r == if old(pos) + n > |data| then Err(Truncated) else Ok(data[old(pos)..old(pos) + n])
      ensures pos == if r.Ok? then old(pos) + n else old(pos)
    {
      if pos + n > |data| { return Err(Truncated); }
      r := Ok(data[pos..pos + n]);
      pos := pos + n;
    }

    method ReadHead() returns (r: Result<(nat, nat), Error>)
      requires Valid()
      modifies this
      ensures Valid() && old(pos) <= pos
      ensures var spec := ParseHead(data[old(pos)..]);
              && r.Ok? == spec.Ok?
              && (r.Ok? ==> r.value == (spec.value.major, spec.value.value) && pos == old(pos) + spec.value.used)
              && (r.Err? ==> r.error == spec.error)
    {
      var initial := Take(1);
      if initial.Err? { return Err(initial.error); }
      var major, info := initial.value[0] / 32, initial.value[0] % 32;
      if info < 24 { return Ok((major, info)); }
      if info > 27 { return Err(UnsupportedInfo); }
      var w := HeadWidth(info);
      var argument := Take(w);
      if argument.Err? { return Err(argument.error); }
      assert data[old(pos)..][1..1 + w] == argument.value;
      r := Ok((major, BigEndian(argument.value)));
    }

    method ReadValue() returns (r: Result<Value, Error>)
      requires Valid()
      modifies this
      ensures Valid() && old(pos) <= pos
      ensures var spec := ParseValue(data[old(pos)..]);
              && r.Ok? == spec.Ok?
              && (r.Ok? ==> r.value == spec.value.value && pos == old(pos) + spec.value.used)
              && (r.Err? ==> r.error == spec.error)
      decreases |data| - pos, 0
    {
      hide ParseHead, Utf8, BigEndian;
      ghost var start := pos;
      ghost var b := data[start..];
      var head := ReadHead();
      if head.Err? { return Err(head.error); }
      var (major, n) := head.value;
      ghost var at := pos - start;
      assert b[at..] == data[pos..];
      if major == 0 {
        r := Ok(Unsigned(n));
      } else if major == 1 {
        if n >= TWO_63 { return Err(IntegerOverflow); }
        r := Ok(Negative(-1 - n));
      } else if major == 2 || major == 3 {
        var taken := Take(n);
        if taken.Err? { return Err(taken.error); }
        assert b[at..at + n] == taken.value;
        if major == 2 {
          r := Ok(Bytes(taken.value));
        } else if Utf8(taken.value) {
          r := Ok(Text(taken.value));
        } else {
          r := Err(NotUtf8);
        }
      } else if major == 4 {
        var items := ReadItems(n);
        if items.Err? { return Err(items.error); }
        r := Ok(Array(items.value));
      } else if major == 5 {
        var entries := ReadEntries(n);
        if entries.Err? { return Err(entries.error); }
        r := Ok(Map(entries.value));
      } else {
        r := Err(UnsupportedMajor);
      }
    }

    /** The `for _ in 0..value` loop of an array. */
    method ReadItems(n: nat) returns (r: Result<seq<Value>, Error>)
      requires Valid()
      modifies this
      ensures Valid() && old(pos) <= pos
      ensures var spec := ParseItems(data[old(pos)..], n);
              && r.Ok? == spec.Ok?
              && (r.Ok? ==> r.value == spec.value.value && pos == old(pos) + spec.value.used)
              && (r.Err? ==> r.error == spec.error)
      decreases |data| - pos, 1
    {
      hide ParseItems, ParseValue, Then;
      var items: seq<Value> := [];
      ghost var start := pos;
      ThenEnds(items, 0, ParseItems(data[start..], n));
      for i := 0 to n
        invariant Valid() && start <= pos && |items| == i && (i > 0 ==> start < pos)
        invariant ParseItems(data[start..], n) == Then(items, pos - start, ParseItems(data[pos..], n - i))
      {
        ghost var before := pos;
        OneItemOn(items, pos - start, data[pos..], n - i);
        var item := ReadValue();
        if item.Err? { return Err(item.error); }
        assert data[before..][pos - before..] == data[pos..];
        items := items + [item.value];
      }
      ThenEnds(items, pos - start, ParseItems(data[pos..], 0));
      r := Ok(items);
    }

    method ReadEntries(n: nat) returns (r: Result<seq<Entry>, Error>)
      requires Valid()
      modifies this
      ensures Valid() && old(pos) <= pos
      ensures var spec := ParseEntries(data[old(pos)..], n);
              && r.Ok? == spec.Ok?
              && (r.Ok? ==> r.value == spec.value.value && pos == old(pos) + spec.value.used)
              && (r.Err? ==> r.error == spec.error)
      decreases |data| - pos, 1
    {
      hide ParseEntries, ParseValue, Then;
      var entries: seq<Entry> := [];
      ghost var start := pos;
      ThenEnds(entries, 0, ParseEntries(data[start..], n));
      for i := 0 to n
        invariant Valid() && start <= pos && |entries| == i && (i > 0 ==> start < pos)
        invariant ParseEntries(data[start..], n) == Then(entries, pos - start, ParseEntries(data[pos..], n - i))
      {
        ghost var before := pos;
        OneEntryOn(entries, pos - start, data[pos..], n - i);
        var k := ReadValue();
        if k.Err? { return Err(k.error); }
        assert data[before..][pos - before..] == data[pos..];
        ghost var middle := pos;
        var v := ReadValue();
        if v.Err? { return Err(v.error); }
        assert data[before..][pos - before..] == data[pos..];
        entries := entries + [Entry(k.value, v.value)];
      }
      ThenEnds(entries, pos - start, ParseEntries(data[pos..], 0));
      r := Ok(entries);
    }
  }

  method ReadTopLevelMap(data: seq<byte>) returns (r: Result<Value, Error>)
    ensures r == ParseTopLevelMap(data)
  {
    var reader := new Reader(data);
    assert data[0..] == data;
    var head := reader.ReadHead();
    if head.Err? { return Err(head.error); }
    if head.value.0 != 5 { return Err(NotAMap); }
    reader := new Reader(data);
    r := reader.ReadValue();
  }
}
