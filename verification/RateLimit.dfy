/** The fixed-window request limiter: one counter and window start per key. */
module RateLimit {
  import opened Basics

  datatype Entry = Entry(count: nat, start: nat)
  datatype Limits = Limits(maxRequests: nat, window: nat)
  datatype Request = Request(key: string, now: nat)
  datatype Answer = Answer(now: nat, allowed: bool)

  // ---- One decision -------------------------------------------------------------------

  /** What one request at `now` makes of its key's entry, and whether it may proceed. */
  function Decide(limits: Limits, entry: Option<Entry>, now: nat): (Entry, bool) {
    var e := if entry.Some? then entry.value else Entry(0, now);
    if now > e.start + limits.window then (Entry(1, now), true)
    else if e.count >= limits.maxRequests then (e, false)
    else (Entry(e.count + 1, e.start), true)
  }

  function Lookup(entries: map<string, Entry>, key: string): Option<Entry> {
    if key in entries then Some(entries[key]) else None
  }

  class RateLimiter {
    var entries: map<string, Entry>
    const limits: Limits

    constructor (maxRequests: nat, window: nat)
      ensures entries == map[] && limits == Limits(maxRequests, window)
    {
      entries := map[];
      limits := Limits(maxRequests, window);
    }

    /** Counts the request before anything else can look at the map. */
    method Check(key: string, now: nat) returns (allowed: bool)
      modifies this`entries
      ensures (entries, allowed)
           == var d := Decide(limits, Lookup(old(entries), key), now); (old(entries)[key := d.0], d.1)
    {
      if key !in entries { entries := entries[key := Entry(0, now)]; }
      var entry := entries[key];
      if now > entry.start + limits.window {
        entries := entries[key := Entry(1, now)];
        assert entries == old(entries)[key := Entry(1, now)];
        return true;
      }
      if entry.count >= limits.maxRequests {
        assert entries == old(entries)[key := entry];
        return false;
      }
      entries := entries[key := entry.(count := entry.count + 1)];
      assert entries == old(entries)[key := entries[key]];
      return true;
    }
  }

  // ---- Traces ---------------------------------------------------------------------------

  /** What the requests of one key are answered while the whole trace is served. */
  function Answers(limits: Limits, entries: map<string, Entry>, trace: seq<Request>, key: string): seq<Answer>
    decreases |trace|
  {
    if trace == [] then []
    else
      var r := trace[0];
      var d := Decide(limits, Lookup(entries, r.key), r.now);
      var rest := Answers(limits, entries[r.key := d.0], trace[1..], key);
      if r.key == key then [Answer(r.now, d.1)] + rest else rest
  }

  /** The same limiter serving a single key. */
  function Solo(limits: Limits, entry: Option<Entry>, times: seq<nat>): seq<Answer>
    decreases |times|
  {
    if times == [] then []
    else
      var d := Decide(limits, entry, times[0]);
      [Answer(times[0], d.1)] + Solo(limits, Some(d.0), times[1..])
  }

  function TimesOf(trace: seq<Request>, key: string): seq<nat> {
    if trace == [] then []
    else (if trace[0].key == key then [trace[0].now] else []) + TimesOf(trace[1..], key)
  }

  /** How many requests at times from `low` to `high`, both included, were allowed. */
  function AllowedIn(answers: seq<Answer>, low: nat, high: nat): nat {
    if answers == [] then 0
    else (if answers[0].allowed && low <= answers[0].now <= high then 1 else 0) + AllowedIn(answers[1..], low, high)
  }

  ghost predicate Ordered(times: seq<nat>) {
    forall i, j :: 0 <= i < j < |times| ==> times[i] <= times[j]
  }

  ghost predicate OrderedTrace(trace: seq<Request>) {
    forall i, j :: 0 <= i < j < |trace| ==> trace[i].now <= trace[j].now
  }

  /** Decisions for a key depend on that key's own requests and nothing else. */
  lemma {:induction false} KeysAreIndependent(limits: Limits, entries: map<string, Entry>, trace: seq<Request>,
      key: string)
    ensures Answers(limits, entries, trace, key) == Solo(limits, Lookup(entries, key), TimesOf(trace, key))
    decreases |trace|
  {
    if trace == [] {
    } else {
      var r := trace[0];
      var d := Decide(limits, Lookup(entries, r.key), r.now);
      KeysAreIndependent(limits, entries[r.key := d.0], trace[1..], key);
      if r.key == key {
        assert TimesOf(trace, key)[1..] == TimesOf(trace[1..], key);
      } else {
        assert TimesOf(trace, key) == TimesOf(trace[1..], key);
      }
    }
  }

  lemma {:induction false} TimesAreOrdered(trace: seq<Request>, key: string)
    requires OrderedTrace(trace)
    ensures Ordered(TimesOf(trace, key))
    ensures forall t :: t in TimesOf(trace, key) ==> trace != [] && trace[0].now <= t
  {
    if trace == [] {
    } else {
      var rest := TimesOf(trace[1..], key);
      TimesAreOrdered(trace[1..], key);
      assert forall t :: t in rest ==> trace[0].now <= t;
      assert forall i :: 0 <= i < |rest| ==> rest[i] in rest;
      assert TimesOf(trace, key) == (if trace[0].key == key then [trace[0].now] else []) + rest;
    }
  }

  // ---- The bound --------------------------------------------------------------------------

  function AtLeastOne(n: nat): nat {
    if n == 0 then 1 else n
  }

  /** Requests the current window still lets through. */
  function Room(limits: Limits, e: Entry): nat {
    if e.count < limits.maxRequests then limits.maxRequests - e.count else 0
  }

  lemma {:induction false} NothingAfter(limits: Limits, entry: Option<Entry>, times: seq<nat>, low: nat, high: nat)
    requires Ordered(times) && times != [] && times[0] > high
    ensures AllowedIn(Solo(limits, entry, times), low, high) == 0
    decreases |times|
  {
    if |times| > 1 {
      NothingAfter(limits, Some(Decide(limits, entry, times[0]).0), times[1..], low, high);
    }
    assert Solo(limits, entry, times)[1..] == Solo(limits, Some(Decide(limits, entry, times[0]).0), times[1..]);
  }

  /** Up to `high`, a window lets its room through and at most `more` windows follow. */
  lemma {:induction false} BoundFrom(limits: Limits, e: Entry, times: seq<nat>, low: nat, high: nat, more: nat)
    requires Ordered(times) && high <= e.start + limits.window + more * limits.window
    ensures AllowedIn(Solo(limits, Some(e), times), low, high)
         <= Room(limits, e) + more * AtLeastOne(limits.maxRequests)
    decreases |times|
  {
    var m := AtLeastOne(limits.maxRequests);
    if times == [] {
      assert more * m >= 0;
    } else if times[0] > high {
      NothingAfter(limits, Some(e), times, low, high);
      assert more * m >= 0;
    } else {
      var d := Decide(limits, Some(e), times[0]).0;
      assert Solo(limits, Some(e), times)[1..] == Solo(limits, Some(d), times[1..]);
      if times[0] > e.start + limits.window {
        assert more != 0;
        assert more * limits.window == limits.window + (more - 1) * limits.window;
        BoundFrom(limits, d, times[1..], low, high, more - 1);
        assert more * m == m + (more - 1) * m;
      } else {
        BoundFrom(limits, d, times[1..], low, high, more);
      }
    }
  }

  /** A stored entry has counted the request that made it. */
  ghost predicate Counted(limits: Limits, entry: Option<Entry>) {
    entry.Some? ==> entry.value.count >= 1 || limits.maxRequests == 0
  }

  lemma {:induction false} SoloBound(limits: Limits, entry: Option<Entry>, times: seq<nat>, low: nat, k: nat)
    requires Ordered(times) && Counted(limits, entry) && k >= 1
    ensures AllowedIn(Solo(limits, entry, times), low, low + k * limits.window)
         <= (k + 1) * AtLeastOne(limits.maxRequests) - 1
    decreases |times|
  {
    var m, w := AtLeastOne(limits.maxRequests), limits.window;
    var high := low + k * w;
    assert (k + 1) * m == m + k * m && k * m == m + (k - 1) * m && (k - 1) * m >= 0;
    assert k * w == w + (k - 1) * w && (k - 1) * w >= 0;
    if times == [] {
    } else {
      var d := Decide(limits, entry, times[0]).0;
      assert Solo(limits, entry, times)[1..] == Solo(limits, Some(d), times[1..]);
      if times[0] < low {
        SoloBound(limits, Some(d), times[1..], low, k);
      } else if d.start == times[0] {
        BoundFrom(limits, d, times[1..], low, high, k - 1);
      } else {
        BoundFrom(limits, d, times[1..], low, high, k);
      }
    }
  }

  /** Whatever the other keys do, a closed interval as long as k >= 1 windows never sees
      (k + 1) * m requests of one key allowed, for a limit m >= 1; a limit of 0 lets one
      request per expired window through and behaves like 1. */
  lemma {:induction false} TraceBound(limits: Limits, trace: seq<Request>, key: string, low: nat, k: nat)
    requires OrderedTrace(trace) && k >= 1
    ensures AllowedIn(Answers(limits, map[], trace, key), low, low + k * limits.window)
          < (k + 1) * AtLeastOne(limits.maxRequests)
  {
    KeysAreIndependent(limits, map[], trace, key);
    TimesAreOrdered(trace, key);
    SoloBound(limits, None, TimesOf(trace, key), low, k);
  }

  // ---- The bound is reached -----------------------------------------------------------------

  function Burst(n: nat, now: nat): seq<nat> {
    if n == 0 then [] else [now] + Burst(n - 1, now)
  }

  /** Requests inside the window are all allowed while there is room. */
  lemma {:induction false} BurstFits(limits: Limits, e: Entry, n: nat, now: nat, after: seq<nat>, low: nat, high: nat)
    requires n <= Room(limits, e) && low <= now <= high && now <= e.start + limits.window
    ensures AllowedIn(Solo(limits, Some(e), Burst(n, now) + after), low, high)
         == n + AllowedIn(Solo(limits, Some(e.(count := e.count + n)), after), low, high)
    decreases n
  {
    var times := Burst(n, now) + after;
    if n == 0 {
      assert times == after;
    } else {
      var next := Entry(e.count + 1, e.start);
      BurstFits(limits, next, n - 1, now, after, low, high);
      assert times[1..] == Burst(n - 1, now) + after;
      assert Solo(limits, Some(e), times)[1..] == Solo(limits, Some(next), times[1..]);
    }
  }

  /** `n` full windows, each opening right after the one before, at multiples of w + 1. */
  function Windows(m: nat, w: nat, first: nat, n: nat): seq<nat>
    requires m >= 1
    decreases n
  {
    if n == 0 then []
    else [first * (w + 1)] + (Burst(m - 1, first * (w + 1)) + Windows(m, w, first + 1, n - 1))
  }

  lemma {:induction false} WindowsFill(limits: Limits, e: Entry, first: nat, n: nat, low: nat, high: nat)
    requires limits.maxRequests >= 1 && e.start + limits.window < first * (limits.window + 1)
    requires low <= first * (limits.window + 1)
    requires n > 0 ==> (first + n - 1) * (limits.window + 1) <= high
    ensures AllowedIn(Solo(limits, Some(e), Windows(limits.maxRequests, limits.window, first, n)), low, high)
         == n * limits.maxRequests
    decreases n
  {
    if n == 0 {
    } else {
      var m, w := limits.maxRequests, limits.window;
      var at := first * (w + 1);
      var after := Windows(m, w, first + 1, n - 1);
      var times := Windows(m, w, first, n);
      NextWindow(first, n, w);
      assert times[0] == at && times[1..] == Burst(m - 1, at) + after;
      assert Solo(limits, Some(e), times)[1..] == Solo(limits, Some(Entry(1, at)), times[1..]);
      BurstFits(limits, Entry(1, at), m - 1, at, after, low, high);
      WindowsFill(limits, Entry(m, at), first + 1, n - 1, low, high);
      assert n * m == m + (n - 1) * m;
    }
  }

  lemma NextWindow(first: nat, n: nat, w: nat)
    requires n > 0
    ensures (first + 1) * (w + 1) == first * (w + 1) + w + 1
    ensures first * (w + 1) <= (first + n - 1) * (w + 1)
  {
    assert (first + n - 1) * (w + 1) == first * (w + 1) + (n - 1) * (w + 1);
  }

  /** A trace that reaches the bound: one early request, the rest of its window at that
      window's end, then k full windows. */
  function Worst(m: nat, w: nat, k: nat): seq<nat>
    requires m >= 1
  {
    [0] + (Burst(m - 1, w) + Windows(m, w, 1, k))
  }

  /** The bound cannot be lowered, for any number of windows: when a window is at least k
      long, (k + 1) * m - 1 requests are allowed within k windows' length. So a limit of m
      per window lets 2m - 1 through within one window's length. */
  lemma {:induction false} BoundIsReached(limits: Limits, k: nat)
    requires limits.maxRequests >= 1 && limits.window >= k >= 1
    ensures var m, w := limits.maxRequests, limits.window;
            AllowedIn(Solo(limits, None, Worst(m, w, k)), w, w + k * w) == (k + 1) * m - 1
  {
    var m, w := limits.maxRequests, limits.window;
    var later := Windows(m, w, 1, k);
    var times := Worst(m, w, k);
    assert times[1..] == Burst(m - 1, w) + later;
    assert Solo(limits, None, times)[1..] == Solo(limits, Some(Entry(1, 0)), times[1..]);
    BurstFits(limits, Entry(1, 0), m - 1, w, later, w, w + k * w);
    assert (1 + k - 1) * (w + 1) == k * w + k;
    WindowsFill(limits, Entry(m, 0), 1, k, w, w + k * w);
    assert (k + 1) * m == k * m + m;
  }

  lemma {:induction false} BurstIsOrdered(n: nat, now: nat)
    ensures forall t :: t in Burst(n, now) ==> t == now
  {
    if n == 0 {
    } else {
      BurstIsOrdered(n - 1, now);
    }
  }

  /** The times of that trace do not decrease, as the clock's do not. */
  lemma {:induction false} WindowsAreOrdered(m: nat, w: nat, first: nat, n: nat)
    requires m >= 1
    ensures Ordered(Windows(m, w, first, n))
    ensures forall t :: t in Windows(m, w, first, n) ==> first * (w + 1) <= t
    decreases n
  {
    if n == 0 {
    } else {
      var at := first * (w + 1);
      var burst, after := [at] + Burst(m - 1, at), Windows(m, w, first + 1, n - 1);
      WindowsAreOrdered(m, w, first + 1, n - 1);
      BurstIsOrdered(m - 1, at);
      NextWindow(first, n, w);
      assert Windows(m, w, first, n) == burst + after;
      forall i | 0 <= i < |burst|
        ensures burst[i] == at
      {
        assert i > 0 ==> burst[i] in Burst(m - 1, at);
      }
      assert forall i :: 0 <= i < |after| ==> after[i] in after;
    }
  }

  lemma {:induction false} WorstIsOrdered(m: nat, w: nat, k: nat)
    requires m >= 1
    ensures Ordered(Worst(m, w, k))
  {
    BurstIsOrdered(m - 1, w);
    WindowsAreOrdered(m, w, 1, k);
    var early, later := [0] + Burst(m - 1, w), Windows(m, w, 1, k);
    assert Worst(m, w, k) == early + later;
    assert forall i :: 0 < i < |early| ==> early[i] in Burst(m - 1, w);
    assert forall i :: 0 <= i < |later| ==> later[i] in later;
  }

  // ---- Which requests are allowed --------------------------------------------------------------

  /** The request that opened the window request i falls in: the first, or the first one later
      than the window before it. Requests that are denied open nothing and prolong nothing. */
  function Opener(times: seq<nat>, window: nat, i: nat): (o: nat)
    requires i < |times|
    ensures o <= i
  {
    if i == 0 then 0
    else
      var o := Opener(times, window, i - 1);
      if times[i] > times[o] + window then i else o
  }

  function EntryAfter(limits: Limits, entry: Option<Entry>, times: seq<nat>, i: nat): Option<Entry>
    requires i <= |times|
  {
    if i == 0 then entry else Some(Decide(limits, EntryAfter(limits, entry, times, i - 1), times[i - 1]).0)
  }

  lemma {:induction false} EntryAfterRest(limits: Limits, entry: Option<Entry>, times: seq<nat>, i: nat)
    requires i < |times|
    ensures EntryAfter(limits, entry, times, i + 1)
         == EntryAfter(limits, Some(Decide(limits, entry, times[0]).0), times[1..], i)
  {
    hide Decide;
    if i == 0 {
      assert EntryAfter(limits, entry, times, 0) == entry;
    } else {
      EntryAfterRest(limits, entry, times, i - 1);
    }
  }

  lemma {:induction false} SoloAt(limits: Limits, entry: Option<Entry>, times: seq<nat>, i: nat)
    requires i < |times|
    ensures |Solo(limits, entry, times)| == |times|
    ensures Solo(limits, entry, times)[i]
         == Answer(times[i], Decide(limits, EntryAfter(limits, entry, times, i), times[i]).1)
    decreases |times|
  {
    hide Decide;
    var rest := Some(Decide(limits, entry, times[0]).0);
    if i > 0 {
      SoloAt(limits, rest, times[1..], i - 1);
      EntryAfterRest(limits, entry, times, i - 1);
    } else if |times| > 1 {
      SoloAt(limits, rest, times[1..], 0);
    } else {
      assert times[1..] == [] && Solo(limits, rest, []) == [];
    }
  }

  lemma {:induction false} EntryIsWindow(limits: Limits, times: seq<nat>, i: nat)
    requires 0 < i <= |times|
    ensures var e := EntryAfter(limits, None, times, i);
            var o := Opener(times, limits.window, i - 1);
            && e.Some? && e.value.start == times[o]
            && e.value.count == if i - o < limits.maxRequests then i - o
                                else if o > 0 then AtLeastOne(limits.maxRequests) else limits.maxRequests
  {
    if i == 1 {
      assert EntryAfter(limits, None, times, 0) == None;
    } else {
      EntryIsWindow(limits, times, i - 1);
    }
  }

  /** Request i of a key is allowed exactly when fewer than the limit came before it since its
      window was opened, or when it opens a window itself. */
  lemma {:induction false} AllowsExactly(limits: Limits, times: seq<nat>, i: nat)
    requires i < |times|
    ensures var answers := Solo(limits, None, times);
            var o := Opener(times, limits.window, i);
            && |answers| == |times| && answers[i].now == times[i]
            && (answers[i].allowed <==> i - o < limits.maxRequests || (i == o && i > 0))
  {
    SoloAt(limits, None, times, i);
    if i == 0 {
      assert EntryAfter(limits, None, times, 0) == None;
    } else {
      EntryIsWindow(limits, times, i);
    }
  }
}
