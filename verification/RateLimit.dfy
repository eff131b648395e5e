/** The sliding-window rate limiter (broker/qdistro_admin_ratelimit.py).

    The limiter keeps, per (uid, action), a queue of accepted call times that it trims and
    sometimes evicts.  The reference it is compared with keeps every accepted call for ever. */
module RateLimit {
  import opened Options

  datatype Key = Key(uid: int, action: string)

  datatype Limits = Limits(limit: nat, window: real, maxKeys: nat)

  ghost predicate ValidLimits(c: Limits) { c.limit >= 1 && c.window > 0.0 && c.maxKeys >= 1 }

  type Buckets = map<Key, seq<real>>

  ghost predicate IsSuffix(tail: seq<real>, whole: seq<real>) {
    |tail| <= |whole| && forall i :: 0 <= i < |tail| ==> tail[i] == whole[|whole| - |tail| + i]
  }

  /** The head of the queue is dropped while it is older than the cutoff. */
  function Trim(bucket: seq<real>, cutoff: real): seq<real> {
    if bucket != [] && bucket[0] < cutoff then Trim(bucket[1..], cutoff) else bucket
  }

  lemma {:induction false} TrimIsSuffix(bucket: seq<real>, cutoff: real)
    ensures var r := Trim(bucket, cutoff);
            && IsSuffix(r, bucket)
            && (forall i :: 0 <= i < |bucket| - |r| ==> bucket[i] < cutoff)
            && (r != [] ==> r[0] >= cutoff)
  {
    if bucket != [] && bucket[0] < cutoff {
      TrimIsSuffix(bucket[1..], cutoff);
    }
  }

  function LastSeen(bucket: seq<real>): real {
    if bucket == [] then -1.0 else bucket[|bucket| - 1]
  }

  /** A key the limiter may evict: one whose most recent entry is oldest. */
  ghost predicate IsVictim(b: Buckets, v: Key) {
    v in b && forall k :: k in b ==> LastSeen(b[v]) <= LastSeen(b[k])
  }

  predicate MustEvict(c: Limits, b: Buckets, key: Key) { key !in b && |b| >= c.maxKeys }

  function Evict(b: Buckets, v: Key): (r: Buckets)
    requires v in b
    ensures r.Keys == b.Keys - {v} && |r| == |b| - 1
    ensures forall k :: k in r ==> r[k] == b[k]
  {
    var r := map k | k in b && k != v :: b[k];
    assert r.Keys == b.Keys - {v};
    r
  }

  /** One call.  `victim` resolves the choice among equally old keys and is read only on overflow. */
  datatype Call = Call(key: Key, at: real, victim: Key)

  predicate CanEvict(c: Limits, b: Buckets, call: Call) {
    MustEvict(c, b, call.key) ==> call.victim in b
  }

  ghost predicate Legal(c: Limits, b: Buckets, call: Call) {
    MustEvict(c, b, call.key) ==> IsVictim(b, call.victim)
  }

  function AfterEviction(c: Limits, b: Buckets, call: Call): (r: Buckets)
    requires CanEvict(c, b, call)
  {
    if MustEvict(c, b, call.key) then Evict(b, call.victim) else b
  }

  function Trimmed(c: Limits, b: Buckets, call: Call): (r: seq<real>) {
    if call.key in b then Trim(b[call.key], call.at - c.window) else []
  }

  predicate Accepts(c: Limits, b: Buckets, call: Call) { |Trimmed(c, b, call)| < c.limit }

  function AfterCheck(c: Limits, b: Buckets, call: Call): (r: Buckets)
    requires CanEvict(c, b, call)
  {
    var queue := Trimmed(c, b, call);
    AfterEviction(c, b, call)[call.key := if Accepts(c, b, call) then queue + [call.at] else queue]
  }

  // ---------------------------------------------------------------- the reference

  /** Every call accepted on a key since the key was last forgotten, oldest first. */
  type History = map<Key, seq<real>>

  function Past(h: History, key: Key): seq<real> { if key in h then h[key] else [] }

  /** How many of these times lie in the closed interval from `lo` to `hi`. */
  function CountIn(times: seq<real>, lo: real, hi: real): nat {
    if times == [] then 0
    else CountIn(times[..|times| - 1], lo, hi)
         + (if lo <= times[|times| - 1] <= hi then 1 else 0)
  }

  /** The naive limiter counts all accepted calls in the window that ends now. */
  predicate NaiveAccepts(c: Limits, h: History, call: Call) {
    CountIn(Past(h, call.key), call.at - c.window, call.at) < c.limit
  }

  function Naive(c: Limits, h: History, call: Call, forgotten: Option<Key>): History {
    var h' := if forgotten.Some? then map k | k in h && k != forgotten.value :: h[k] else h;
    h'[call.key := if NaiveAccepts(c, h, call) then Past(h, call.key) + [call.at] else Past(h, call.key)]
  }

  function Forgotten(c: Limits, b: Buckets, call: Call): Option<Key> {
    if MustEvict(c, b, call.key) then Some(call.victim) else None
  }

  // ---------------------------------------------------------------- the simulation

  ghost predicate Sorted(times: seq<real>) {
    forall i, j :: 0 <= i <= j < |times| ==> times[i] <= times[j]
  }

  /** The queue is what is left of the full history once calls older than a window are dropped. */
  ghost predicate Recent(c: Limits, past: seq<real>, queue: seq<real>, now: real) {
    && Sorted(past)
    && (forall i :: 0 <= i < |past| ==> past[i] <= now)
    && queue != [] && IsSuffix(queue, past)
    && (forall i :: 0 <= i < |past| - |queue| ==> past[i] < now - c.window)
  }

  /** Any `limit + 1` consecutive accepted calls span more than a window. */
  ghost predicate Spaced(c: Limits, past: seq<real>) {
    forall i, j :: 0 <= i < |past| && i + c.limit <= j < |past| ==> past[j] - past[i] > c.window
  }

  ghost predicate Refines(c: Limits, b: Buckets, h: History, now: real) {
    && ValidLimits(c)
    && b.Keys == h.Keys && |b| <= c.maxKeys
    && forall k :: k in b ==> Recent(c, h[k], b[k], now) && Spaced(c, h[k])
  }

  /** In a sorted history, counting the window that ends now is counting a suffix. */
  lemma {:induction false} CountSuffix(times: seq<real>, lo: real, hi: real, n: nat)
    requires n <= |times|
    requires forall i :: 0 <= i < |times| - n ==> times[i] < lo
    requires forall i :: |times| - n <= i < |times| ==> lo <= times[i] <= hi
    ensures CountIn(times, lo, hi) == n
  {
    if times != [] {
      var m := |times| - 1;
      CountSuffix(times[..m], lo, hi, if n == 0 then 0 else n - 1);
    }
  }

  /** `queue` holds exactly the calls of `past` in the window that ends at `at`. */
  ghost predicate InWindow(c: Limits, past: seq<real>, queue: seq<real>, at: real) {
    && IsSuffix(queue, past)
    && (forall i :: 0 <= i < |past| - |queue| ==> past[i] < at - c.window)
    && (forall i :: |past| - |queue| <= i < |past| ==> at - c.window <= past[i] <= at)
  }

  lemma TrimLeavesWindow(c: Limits, past: seq<real>, bucket: seq<real>, now: real, at: real)
    requires Recent(c, past, bucket, now) && now <= at
    ensures InWindow(c, past, Trim(bucket, at - c.window), at)
  {
    var queue := Trim(bucket, at - c.window);
    TrimIsSuffix(bucket, at - c.window);
    var cut, kept := |past| - |queue|, |past| - |bucket|;
    forall i | 0 <= i < cut ensures past[i] < at - c.window {
      if i >= kept {
        assert past[i] == bucket[i - kept];
      }
    }
    forall i | cut <= i < |past| ensures at - c.window <= past[i] {
      assert queue[0] == past[cut];
    }
  }

  lemma WindowCounts(c: Limits, past: seq<real>, queue: seq<real>, at: real)
    requires InWindow(c, past, queue, at)
    ensures CountIn(past, at - c.window, at) == |queue|
  {
    CountSuffix(past, at - c.window, at, |queue|);
  }

  /** An accepted call joins queue and history; a rejected one leaves the trimmed queue. */
  lemma QueueStaysRecent(c: Limits, past: seq<real>, queue: seq<real>, at: real)
    requires ValidLimits(c) && InWindow(c, past, queue, at) && Sorted(past) && Spaced(c, past)
    requires forall i :: 0 <= i < |past| ==> past[i] <= at
    ensures |queue| < c.limit ==> Recent(c, past + [at], queue + [at], at) && Spaced(c, past + [at])
    ensures |queue| >= c.limit ==> Recent(c, past, queue, at)
  {
    if |queue| < c.limit {
      var past' := past + [at];
      forall i, j | 0 <= i < |past'| && i + c.limit <= j < |past'| ensures past'[j] - past'[i] > c.window {
        if j == |past| {
          assert past[i] < at - c.window;
        } else {
          assert past[j] - past[i] > c.window;
        }
      }
    }
  }

  /** What one call does to a tracked key. */
  lemma TrackedKey(c: Limits, past: seq<real>, bucket: seq<real>, now: real, at: real, past': seq<real>,
                   queue': seq<real>)
    requires ValidLimits(c) && Recent(c, past, bucket, now) && Spaced(c, past) && now <= at
    requires var queue := Trim(bucket, at - c.window);
             if |queue| < c.limit then past' == past + [at] && queue' == queue + [at]
                   else past' == past && queue' == queue
    ensures Recent(c, past', queue', at) && Spaced(c, past')
  {
    TrimLeavesWindow(c, past, bucket, now, at);
    QueueStaysRecent(c, past, Trim(bucket, at - c.window), at);
  }

  lemma TrackedKeyCounts(c: Limits, past: seq<real>, bucket: seq<real>, now: real, at: real)
    requires Recent(c, past, bucket, now) && now <= at
    ensures |Trim(bucket, at - c.window)| == CountIn(past, at - c.window, at)
  {
    TrimLeavesWindow(c, past, bucket, now, at);
    WindowCounts(c, past, Trim(bucket, at - c.window), at);
  }

  /** The queue answers exactly as the full history does. */
  lemma AcceptsAsNaive(c: Limits, b: Buckets, h: History, now: real, call: Call)
    requires Refines(c, b, h, now) && now <= call.at
    ensures Accepts(c, b, call) <==> NaiveAccepts(c, h, call)
  {
    if call.key in b {
      TrackedKeyCounts(c, h[call.key], b[call.key], now, call.at);
    }
  }

  lemma PutSize(b: Buckets, key: Key, queue: seq<real>)
    ensures b[key := queue].Keys == b.Keys + {key}
    ensures |b[key := queue]| == if key in b then |b| else |b| + 1
  {
    var b' := b[key := queue];
    assert |b'| == |b'.Keys| && |b| == |b.Keys|;
    if key in b {
      assert b'.Keys == b.Keys;
    }
  }

  lemma CheckKeys(c: Limits, b: Buckets, call: Call)
    requires CanEvict(c, b, call) && |b| <= c.maxKeys && c.maxKeys >= 1
    ensures AfterCheck(c, b, call).Keys == b.Keys - (if MustEvict(c, b, call.key) then {call.victim} else {})
             + {call.key}
    ensures |AfterCheck(c, b, call)| <= c.maxKeys
  {
    var queue := Trimmed(c, b, call);
    PutSize(AfterEviction(c, b, call), call.key, if Accepts(c, b, call) then queue + [call.at] else queue);
  }

  lemma SameKeys(c: Limits, b: Buckets, h: History, call: Call)
    requires CanEvict(c, b, call) && |b| <= c.maxKeys && c.maxKeys >= 1 && b.Keys == h.Keys
    ensures AfterCheck(c, b, call).Keys == Naive(c, h, call, Forgotten(c, b, call)).Keys
    ensures |AfterCheck(c, b, call)| <= c.maxKeys
  {
    CheckKeys(c, b, call);
  }

  lemma CalledKeyStaysInStep(c: Limits, b: Buckets, h: History, now: real, call: Call, past: seq<real>,
                             queue: seq<real>)
    requires Refines(c, b, h, now) && now <= call.at && CanEvict(c, b, call)
    requires past == Naive(c, h, call, Forgotten(c, b, call))[call.key] && queue == AfterCheck(c, b, call)[call.key]
    ensures Recent(c, past, queue, call.at) && Spaced(c, past)
  {
    AcceptsAsNaive(c, b, h, now, call);
    if call.key in b {
      CalledKeyValues(c, b, h, call);
      TrackedKey(c, h[call.key], b[call.key], now, call.at, past, queue);
    } else {
      assert past == [call.at] && queue == [call.at];
    }
  }

  lemma CalledKeyValues(c: Limits, b: Buckets, h: History, call: Call)
    requires CanEvict(c, b, call) && call.key in b && call.key in h
    requires Accepts(c, b, call) <==> NaiveAccepts(c, h, call)
    ensures var queue, past := Trim(b[call.key], call.at - c.window), h[call.key];
            && Accepts(c, b, call) == (|queue| < c.limit)
            && Naive(c, h, call, Forgotten(c, b, call))[call.key]
                == (if |queue| < c.limit then past + [call.at] else past)
            && AfterCheck(c, b, call)[call.key] == (if |queue| < c.limit then queue + [call.at] else queue)
  {
  }

  lemma OtherKeyStaysInStep(c: Limits, b: Buckets, h: History, now: real, call: Call, k: Key)
    requires Refines(c, b, h, now) && now <= call.at && CanEvict(c, b, call) && k != call.key
    requires k in AfterCheck(c, b, call) && k in Naive(c, h, call, Forgotten(c, b, call))
    ensures var past := Naive(c, h, call, Forgotten(c, b, call))[k];
            Recent(c, past, AfterCheck(c, b, call)[k], call.at) && Spaced(c, past)
  {
    assert Naive(c, h, call, Forgotten(c, b, call))[k] == h[k] && AfterCheck(c, b, call)[k] == b[k];
    RecentLater(c, h[k], b[k], now, call.at);
  }

  /** One call keeps the queues and the full history in step. */
  lemma CheckRefines(c: Limits, b: Buckets, h: History, now: real, call: Call)
    requires Refines(c, b, h, now) && now <= call.at && CanEvict(c, b, call)
    ensures Refines(c, AfterCheck(c, b, call), Naive(c, h, call, Forgotten(c, b, call)), call.at)
  {
    SameKeys(c, b, h, call);
    var b', h' := AfterCheck(c, b, call), Naive(c, h, call, Forgotten(c, b, call));
    forall k | k in b' ensures Recent(c, h'[k], b'[k], call.at) && Spaced(c, h'[k]) {
      if k == call.key {
        CalledKeyStaysInStep(c, b, h, now, call, h'[k], b'[k]);
      } else {
        OtherKeyStaysInStep(c, b, h, now, call, k);
      }
    }
  }

  lemma RecentLater(c: Limits, past: seq<real>, bucket: seq<real>, now: real, at: real)
    requires Recent(c, past, bucket, now) && now <= at
    ensures Recent(c, past, bucket, at)
  {
  }

  // ---------------------------------------------------------------- whole runs
  //
  // A run may evict any tracked key on overflow; what follows does not depend on the choice.

  ghost predicate LegalRun(c: Limits, b: Buckets, now: real, calls: seq<Call>)
    decreases |calls|
  {
    calls != [] ==>
      && now <= calls[0].at && CanEvict(c, b, calls[0])
      && LegalRun(c, AfterCheck(c, b, calls[0]), calls[0].at, calls[1..])
  }

  function Replies(c: Limits, b: Buckets, now: real, calls: seq<Call>): (r: seq<bool>)
    requires LegalRun(c, b, now, calls)
    ensures |r| == |calls|
    decreases |calls|
  {
    if calls == [] then []
    else [Accepts(c, b, calls[0])] + Replies(c, AfterCheck(c, b, calls[0]), calls[0].at, calls[1..])
  }

  /** The naive limiter's replies; it is told only which keys to forget. */
  function NaiveReplies(c: Limits, b: Buckets, h: History, now: real, calls: seq<Call>): seq<bool>
    requires LegalRun(c, b, now, calls)
    decreases |calls|
  {
    if calls == [] then []
    else
      [NaiveAccepts(c, h, calls[0])]
      + NaiveReplies(c, AfterCheck(c, b, calls[0]), Naive(c, h, calls[0], Forgotten(c, b, calls[0])),
                     calls[0].at, calls[1..])
  }

  lemma {:induction false} RunRefines(c: Limits, b: Buckets, h: History, now: real, calls: seq<Call>)
    requires Refines(c, b, h, now) && LegalRun(c, b, now, calls)
    ensures Replies(c, b, now, calls) == NaiveReplies(c, b, h, now, calls)
    decreases |calls|
  {
    if calls != [] {
      AcceptsAsNaive(c, b, h, now, calls[0]);
      CheckRefines(c, b, h, now, calls[0]);
      RunRefines(c, AfterCheck(c, b, calls[0]), Naive(c, h, calls[0], Forgotten(c, b, calls[0])), calls[0].at,
                 calls[1..]);
    }
  }

  /** From a fresh limiter, every reply is the full-history limiter's reply. */
  lemma LimiterIsFullHistoryLimiter(c: Limits, now: real, calls: seq<Call>)
    requires ValidLimits(c) && LegalRun(c, map[], now, calls)
    ensures Replies(c, map[], now, calls) == NaiveReplies(c, map[], map[], now, calls)
  {
    RunRefines(c, map[], map[], now, calls);
  }

  /** No closed interval one window long ever holds more than `limit` accepted calls of a key. */
  lemma WindowHoldsAtMostLimit(c: Limits, b: Buckets, h: History, now: real, key: Key, from: real)
    requires Refines(c, b, h, now) && key in h
    ensures CountIn(h[key], from, from + c.window) <= c.limit
  {
    SpacedCount(c, h[key], from);
  }

  lemma {:induction false} SpacedCount(c: Limits, times: seq<real>, from: real)
    requires Sorted(times) && Spaced(c, times) && c.limit >= 1
    ensures CountIn(times, from, from + c.window) <= c.limit
  {
    if times != [] {
      var m := |times| - 1;
      var before := times[..m];
      SpacedCount(c, before, from);
      if from <= times[m] <= from + c.window && |times| > c.limit {
        assert times[m - c.limit] < from;
        CountAfter(before, from, from + c.window, m - c.limit + 1);
      } else if |times| <= c.limit {
        CountAtMostLength(times, from, from + c.window);
      }
    }
  }

  lemma {:induction false} CountAfter(times: seq<real>, lo: real, hi: real, n: nat)
    requires n <= |times| && forall i :: 0 <= i < n ==> times[i] < lo
    ensures CountIn(times, lo, hi) <= |times| - n
  {
    if |times| > n {
      CountAfter(times[..|times| - 1], lo, hi, n);
    } else if n > 0 {
      CountAfter(times[..n - 1], lo, hi, n - 1);
    }
  }

  lemma {:induction false} CountAtMostLength(times: seq<real>, lo: real, hi: real)
    ensures CountIn(times, lo, hi) <= |times|
  {
    if times != [] {
      CountAtMostLength(times[..|times| - 1], lo, hi);
    }
  }

  // ---------------------------------------------------------------- bounds over whole runs

  /** Queues and full history after a run. */
  function AfterRun(c: Limits, b: Buckets, h: History, now: real, calls: seq<Call>): (Buckets, History)
    requires LegalRun(c, b, now, calls)
    decreases |calls|
  {
    if calls == [] then (b, h)
    else AfterRun(c, AfterCheck(c, b, calls[0]), Naive(c, h, calls[0], Forgotten(c, b, calls[0])), calls[0].at,
                  calls[1..])
  }

  function EndTime(now: real, calls: seq<Call>): real {
    if calls == [] then now else calls[|calls| - 1].at
  }

  /** The queues were in step with the full history when they were last touched. */
  ghost predicate InStep(c: Limits, b: Buckets, h: History, now: real) {
    exists t :: t <= now && Refines(c, b, h, t)
  }

  lemma CheckStaysInStep(c: Limits, b: Buckets, h: History, now: real, call: Call)
    requires InStep(c, b, h, now) && now <= call.at && CanEvict(c, b, call)
    ensures InStep(c, AfterCheck(c, b, call), Naive(c, h, call, Forgotten(c, b, call)), call.at)
  {
    var t :| t <= now && Refines(c, b, h, t);
    CheckRefines(c, b, h, t, call);
  }

  function OneMore(c: Limits, bh: (Buckets, History), call: Call): (Buckets, History)
    requires CanEvict(c, bh.0, call)
  {
    (AfterCheck(c, bh.0, call), Naive(c, bh.1, call, Forgotten(c, bh.0, call)))
  }

  lemma {:induction false} RunSplitsAtLast(c: Limits, b: Buckets, h: History, now: real, calls: seq<Call>, call: Call)
    requires LegalRun(c, b, now, calls + [call])
    ensures LegalRun(c, b, now, calls) && EndTime(now, calls) <= call.at
    ensures CanEvict(c, AfterRun(c, b, h, now, calls).0, call)
    ensures AfterRun(c, b, h, now, calls + [call]) == OneMore(c, AfterRun(c, b, h, now, calls), call)
    decreases |calls|
  {
    if calls == [] {
      assert ([] + [call])[1..] == [];
    } else {
      var b1, h1 := AfterCheck(c, b, calls[0]), Naive(c, h, calls[0], Forgotten(c, b, calls[0]));
      assert (calls + [call])[1..] == calls[1..] + [call];
      RunSplitsAtLast(c, b1, h1, calls[0].at, calls[1..], call);
    }
  }

  lemma {:induction false} RunStaysInStep(c: Limits, b: Buckets, h: History, now: real, calls: seq<Call>)
    requires InStep(c, b, h, now) && LegalRun(c, b, now, calls)
    ensures var (b', h') := AfterRun(c, b, h, now, calls);
            InStep(c, b', h', EndTime(now, calls))
    decreases |calls|
  {
    if calls != [] {
      var n := |calls| - 1;
      assert calls == calls[..n] + [calls[n]];
      RunSplitsAtLast(c, b, h, now, calls[..n], calls[n]);
      RunStaysInStep(c, b, h, now, calls[..n]);
      var (b1, h1) := AfterRun(c, b, h, now, calls[..n]);
      CheckStaysInStep(c, b1, h1, EndTime(now, calls[..n]), calls[n]);
    }
  }

  lemma FreshRunInStep(c: Limits, now: real, calls: seq<Call>)
    requires ValidLimits(c) && LegalRun(c, map[], now, calls)
    ensures var (b, h) := AfterRun(c, map[], map[], now, calls);
            InStep(c, b, h, EndTime(now, calls))
  {
    assert Refines(c, map[], map[], now);
    RunStaysInStep(c, map[], map[], now, calls);
  }

  /** After any run from a fresh limiter: at most `maxKeys` keys, no empty queue, and no closed
      interval one window long with more than `limit` accepted calls of a key. */
  lemma RunBounds(c: Limits, now: real, calls: seq<Call>, key: Key, from: real)
    requires ValidLimits(c) && LegalRun(c, map[], now, calls)
    ensures var (b, h) := AfterRun(c, map[], map[], now, calls);
            && |b| <= c.maxKeys
            && (key in b ==> key in h && b[key] != [] && CountIn(h[key], from, from + c.window) <= c.limit)
  {
    FreshRunInStep(c, now, calls);
    var (b, h) := AfterRun(c, map[], map[], now, calls);
    var t :| Refines(c, b, h, t);
    if key in b {
      WindowHoldsAtMostLimit(c, b, h, t, key, from);
    }
  }

  // ---------------------------------------------------------------- the true history, evictions included

  /** Every call accepted on a key, whether or not the limiter still remembers it. */
  function AllAccepted(c: Limits, b: Buckets, past: seq<real>, now: real, calls: seq<Call>, key: Key): seq<real>
    requires LegalRun(c, b, now, calls)
    decreases |calls|
  {
    if calls == [] then past
    else AllAccepted(c, AfterCheck(c, b, calls[0]), WithCall(c, b, past, calls[0], key), calls[0].at, calls[1..], key)
  }

  function WithCall(c: Limits, b: Buckets, past: seq<real>, call: Call, key: Key): seq<real> {
    if call.key == key && Accepts(c, b, call) then past + [call.at] else past
  }

  /** An overflow that evicts by the limiter's rule while some tracked key has been quiet for more than a window. */
  ghost predicate EvictsQuiet(c: Limits, b: Buckets, call: Call) {
    MustEvict(c, b, call.key) ==>
      IsVictim(b, call.victim) && exists k :: k in b && LastSeen(b[k]) < call.at - c.window
  }

  ghost predicate QuietRun(c: Limits, b: Buckets, now: real, calls: seq<Call>)
    requires LegalRun(c, b, now, calls)
    decreases |calls|
  {
    calls != [] ==> EvictsQuiet(c, b, calls[0]) && QuietRun(c, AfterCheck(c, b, calls[0]), calls[0].at, calls[1..])
  }

  /** By the limiter's rule, a key called within the window is evicted only if every tracked key was. */
  lemma LiveKeyGoesLast(c: Limits, b: Buckets, call: Call, k: Key)
    requires Legal(c, b, call) && MustEvict(c, b, call.key) && k in b && LastSeen(b[call.victim]) >= call.at - c.window
    ensures |b| >= c.maxKeys && LastSeen(b[k]) >= call.at - c.window
  {
  }

  /** What is known is the end of the true history, and the rest is more than a window before it. */
  ghost predicate KnownEnd(c: Limits, known: seq<real>, past: seq<real>, now: real) {
    && Sorted(past) && Spaced(c, past) && (forall i :: 0 <= i < |past| ==> past[i] <= now)
    && IsSuffix(known, past)
    && (forall i :: 0 <= i < |past| - |known| ==> past[i] < (if known == [] then now else known[0]) - c.window)
  }

  /** What the limiter remembers of a key ends its true history, and what it has forgotten is too old to count. */
  ghost predicate TrueOk(c: Limits, h: History, past: seq<real>, now: real, key: Key) {
    KnownEnd(c, Past(h, key), past, now) && (key in h ==> h[key] != [])
  }

  /** One more call, more than a window after everything forgotten. */
  lemma SpacedWithCall(c: Limits, past: seq<real>, known: seq<real>, at: real)
    requires Spaced(c, past) && Spaced(c, known + [at]) && IsSuffix(known, past)
    requires forall i :: 0 <= i < |past| - |known| ==> past[i] < at - c.window
    ensures Spaced(c, past + [at])
  {
    var past', known' := past + [at], known + [at];
    forall i, j | 0 <= i < |past'| && i + c.limit <= j < |past'| ensures past'[j] - past'[i] > c.window {
      if j == |past| && i >= |past| - |known| {
        var d := |past| - |known|;
        assert known'[|known|] == at;
        assert i < |past| ==> known'[i - d] == past[i];
        assert i == |past| ==> known'[i - d] == at;
      }
    }
  }

  lemma KnownEndGrows(c: Limits, known: seq<real>, past: seq<real>, now: real, at: real)
    requires KnownEnd(c, known, past, now) && now <= at && Spaced(c, known + [at])
    ensures KnownEnd(c, known + [at], past + [at], at)
  {
    assert known != [] ==> known[0] == past[|past| - |known|] && known[0] <= now;
    SpacedWithCall(c, past, known, at);
  }

  lemma KnownEndLater(c: Limits, known: seq<real>, past: seq<real>, now: real, at: real)
    requires KnownEnd(c, known, past, now) && now <= at
    ensures KnownEnd(c, known, past, at)
  {
  }

  lemma OwnCallStaysTrue(c: Limits, b: Buckets, h: History, past: seq<real>, now: real, call: Call)
    requires Refines(c, b, h, now) && TrueOk(c, h, past, now, call.key) && now <= call.at && CanEvict(c, b, call)
    requires Refines(c, AfterCheck(c, b, call), Naive(c, h, call, Forgotten(c, b, call)), call.at)
    ensures TrueOk(c, Naive(c, h, call, Forgotten(c, b, call)), WithCall(c, b, past, call, call.key), call.at, call.key)
  {
    AcceptsAsNaive(c, b, h, now, call);
    var h' := Naive(c, h, call, Forgotten(c, b, call));
    assert Spaced(c, h'[call.key]) by {
      assert call.key in AfterCheck(c, b, call);
    }
    if Accepts(c, b, call) {
      KnownEndGrows(c, Past(h, call.key), past, now, call.at);
    } else {
      assert call.key in b;
      KnownEndLater(c, Past(h, call.key), past, now, call.at);
    }
  }

  lemma OtherCallStaysTrue(c: Limits, b: Buckets, h: History, past: seq<real>, now: real, call: Call, key: Key)
    requires Refines(c, b, h, now) && TrueOk(c, h, past, now, key) && now <= call.at && CanEvict(c, b, call)
    requires key != call.key && EvictsQuiet(c, b, call)
    ensures TrueOk(c, Naive(c, h, call, Forgotten(c, b, call)), past, call.at, key)
  {
    var h' := Naive(c, h, call, Forgotten(c, b, call));
    if MustEvict(c, b, call.key) && call.victim == key {
      var k :| k in b && LastSeen(b[k]) < call.at - c.window;
      assert LastSeen(b[key]) <= LastSeen(b[k]);
      assert Recent(c, h[key], b[key], now);
      assert b[key][|b[key]| - 1] == h[key][|h[key]| - 1] == past[|past| - 1];
    } else {
      KnownEndLater(c, Past(h, key), past, now, call.at);
    }
  }

  lemma {:induction false} RunStaysTrue(c: Limits, b: Buckets, h: History, past: seq<real>, now: real,
                                        calls: seq<Call>, key: Key)
    requires Refines(c, b, h, now) && LegalRun(c, b, now, calls) && QuietRun(c, b, now, calls)
             && TrueOk(c, h, past, now, key)
    ensures var all := AllAccepted(c, b, past, now, calls, key); Sorted(all) && Spaced(c, all)
    decreases |calls|
  {
    if calls != [] {
      var call := calls[0];
      CheckRefines(c, b, h, now, call);
      if call.key == key {
        OwnCallStaysTrue(c, b, h, past, now, call);
      } else {
        OtherCallStaysTrue(c, b, h, past, now, call, key);
      }
      RunStaysTrue(c, AfterCheck(c, b, call), Naive(c, h, call, Forgotten(c, b, call)),
                   WithCall(c, b, past, call, key), call.at,
                   calls[1..], key);
    }
  }

  /** Over the true history: as long as every overflow finds some key quiet for more than a window, no closed interval
      one window long ever holds more than `limit` accepted calls of any key, evicted or not. */
  lemma TrueHistoryIsBounded(c: Limits, now: real, calls: seq<Call>, key: Key, from: real)
    requires ValidLimits(c) && LegalRun(c, map[], now, calls) && QuietRun(c, map[], now, calls)
    ensures CountIn(AllAccepted(c, map[], [], now, calls, key), from, from + c.window) <= c.limit
  {
    RunStaysTrue(c, map[], map[], [], now, calls, key);
    SpacedCount(c, AllAccepted(c, map[], [], now, calls, key), from);
  }

  /** The only key makes room for another one. */
  lemma TakeTurns(x: Key, y: Key)
    requires x != y
    ensures var c, b := Limits(1, 1.0, 1), map[x := [0.0]];
            var call := Call(y, 0.0, x);
            CanEvict(c, b, call) && Accepts(c, b, call) && AfterCheck(c, b, call) == map[y := [0.0]]
  {
    var c: Limits, b: Buckets := Limits(1, 1.0, 1), map[x := [0.0]];
    var call := Call(y, 0.0, x);
    assert |b| == |b.Keys| && b.Keys == {x};
    assert Evict(b, x) == map[];
    assert Trimmed(c, b, call) + [0.0] == [0.0];
  }

  /** Without a quiet key the bound fails: with room for one key and one call a second, two keys taking turns at one
      instant are both let through again and again. */
  lemma BusyOverflowForgets(x: Key, y: Key)
    requires x != y
    ensures var c, b: Buckets := Limits(1, 1.0, 1), map[x := [0.0]];
            var calls := [Call(y, 0.0, x), Call(x, 0.0, y)];
            && LegalRun(c, b, 0.0, calls)
            && CountIn(AllAccepted(c, b, [0.0], 0.0, calls, x), 0.0, 1.0) == 2
  {
    var c: Limits, b: Buckets := Limits(1, 1.0, 1), map[x := [0.0]];
    var p, q := Call(y, 0.0, x), Call(x, 0.0, y);
    TakeTurns(x, y);
    TakeTurns(y, x);
    var b1 := AfterCheck(c, b, p);
    assert [p, q][1..] == [q] && [q][1..] == [];
    assert LegalRun(c, b1, 0.0, [q]);
    assert AllAccepted(c, b1, [0.0], 0.0, [q], x) == [0.0] + [0.0];
    assert ([0.0] + [0.0])[..1] == [0.0] && [0.0][..0] == [];
  }

  // ---------------------------------------------------------------- rejections leave no mark

  /** Queues that differ only in entries too old to count. */
  ghost predicate SameFrom(c: Limits, a: Buckets, b: Buckets, now: real) {
    && a.Keys == b.Keys
    && forall k :: k in a ==>
         Trim(a[k], now - c.window) == Trim(b[k], now - c.window)
  }

  lemma {:induction false} TrimTwice(bucket: seq<real>, lo: real, hi: real)
    requires lo <= hi
    ensures Trim(Trim(bucket, lo), hi) == Trim(bucket, hi)
  {
    if bucket != [] && bucket[0] < lo {
      TrimTwice(bucket[1..], lo, hi);
    }
  }

  lemma SameLater(c: Limits, a: Buckets, b: Buckets, now: real, at: real)
    requires SameFrom(c, a, b, now) && now <= at
    ensures SameFrom(c, a, b, at)
  {
    forall k | k in a ensures Trim(a[k], at - c.window) == Trim(b[k], at - c.window) {
      TrimTwice(a[k], now - c.window, at - c.window);
      TrimTwice(b[k], now - c.window, at - c.window);
    }
  }

  lemma SameCalls(c: Limits, a: Buckets, b: Buckets, call: Call)
    requires SameFrom(c, a, b, call.at)
    ensures Accepts(c, a, call) <==> Accepts(c, b, call)
    ensures MustEvict(c, a, call.key) <==> MustEvict(c, b, call.key)
    ensures CanEvict(c, a, call) <==> CanEvict(c, b, call)
    ensures CanEvict(c, a, call) ==> SameFrom(c, AfterCheck(c, a, call), AfterCheck(c, b, call), call.at)
  {
    assert |a| == |a.Keys| && |b| == |b.Keys|;
    if CanEvict(c, a, call) {
      assert AfterEviction(c, a, call).Keys == AfterEviction(c, b, call).Keys;
      forall k | k in AfterCheck(c, a, call)
        ensures Trim(AfterCheck(c, a, call)[k], call.at - c.window)
                 == Trim(AfterCheck(c, b, call)[k], call.at - c.window)
      {
        if k == call.key {
          assert Trimmed(c, a, call) == Trimmed(c, b, call);
        } else {
          assert k in a && AfterCheck(c, a, call)[k] == a[k] && AfterCheck(c, b, call)[k] == b[k];
        }
      }
    }
  }

  lemma {:induction false} SameReplies(c: Limits, a: Buckets, b: Buckets, now: real, calls: seq<Call>)
    requires SameFrom(c, a, b, now) && LegalRun(c, a, now, calls)
    ensures LegalRun(c, b, now, calls) && Replies(c, a, now, calls) == Replies(c, b, now, calls)
    decreases |calls|
  {
    if calls != [] {
      SameLater(c, a, b, now, calls[0].at);
      SameCalls(c, a, b, calls[0]);
      SameReplies(c, AfterCheck(c, a, calls[0]), AfterCheck(c, b, calls[0]), calls[0].at, calls[1..]);
    }
  }

  lemma RejectionKeepsQueues(c: Limits, b: Buckets, now: real, call: Call)
    requires c.limit >= 1 && now <= call.at && CanEvict(c, b, call) && !Accepts(c, b, call)
    ensures SameFrom(c, AfterCheck(c, b, call), b, call.at)
  {
    var k, cutoff := call.key, call.at - c.window;
    assert k in b && AfterCheck(c, b, call) == b[k := Trim(b[k], cutoff)];
    TrimTwice(b[k], cutoff, cutoff);
    assert b[k := Trim(b[k], cutoff)].Keys == b.Keys;
  }

  lemma LegalLater(c: Limits, b: Buckets, now: real, at: real, calls: seq<Call>)
    requires LegalRun(c, b, at, calls) && now <= at
    ensures LegalRun(c, b, now, calls) && Replies(c, b, now, calls) == Replies(c, b, at, calls)
  {
  }

  lemma FirstRejectionIsInvisible(c: Limits, b: Buckets, now: real, calls: seq<Call>)
    requires c.limit >= 1 && LegalRun(c, b, now, calls) && calls != [] && !Accepts(c, b, calls[0])
    ensures LegalRun(c, b, now, calls[1..])
    ensures Replies(c, b, now, calls[1..]) == Replies(c, b, now, calls)[1..]
  {
    var at := calls[0].at;
    RejectionKeepsQueues(c, b, now, calls[0]);
    SameReplies(c, AfterCheck(c, b, calls[0]), b, at, calls[1..]);
    LegalLater(c, b, now, at, calls[1..]);
  }

  lemma LaterCalls(c: Limits, b: Buckets, now: real, call: Call, rest: seq<Call>)
    requires now <= call.at && CanEvict(c, b, call) && LegalRun(c, AfterCheck(c, b, call), call.at, rest)
    ensures LegalRun(c, b, now, [call] + rest)
    ensures Replies(c, b, now, [call] + rest)
              == [Accepts(c, b, call)] + Replies(c, AfterCheck(c, b, call), call.at, rest)
  {
    assert ([call] + rest)[1..] == rest;
  }

  function Without<T>(s: seq<T>, i: nat): seq<T>
    requires i < |s|
  {
    s[..i] + s[i + 1..]
  }

  lemma WithoutTail<T>(x: T, s: seq<T>, i: nat)
    requires i < |s|
    ensures Without([x] + s, i + 1) == [x] + Without(s, i)
  {
  }

  lemma WithoutLater(c: Limits, b: Buckets, now: real, call: Call, later: seq<Call>, i: nat)
    requires now <= call.at && CanEvict(c, b, call) && i < |later|
    requires LegalRun(c, AfterCheck(c, b, call), call.at, later)
    requires LegalRun(c, AfterCheck(c, b, call), call.at, Without(later, i))
    requires Replies(c, AfterCheck(c, b, call), call.at, Without(later, i))
               == Without(Replies(c, AfterCheck(c, b, call), call.at, later), i)
    ensures LegalRun(c, b, now, Without([call] + later, i + 1)) && LegalRun(c, b, now, [call] + later)
    ensures Replies(c, b, now, Without([call] + later, i + 1)) == Without(Replies(c, b, now, [call] + later), i + 1)
  {
    LaterCalls(c, b, now, call, later);
    LaterCalls(c, b, now, call, Without(later, i));
    WithoutTail(call, later, i);
    WithoutTail(Accepts(c, b, call), Replies(c, AfterCheck(c, b, call), call.at, later), i);
  }

  /** Erasing a rejected call from a run changes no other reply. */
  lemma {:induction false} RejectionIsInvisible(c: Limits, b: Buckets, now: real, calls: seq<Call>, i: nat)
    requires c.limit >= 1 && LegalRun(c, b, now, calls)
    requires i < |calls| && !Replies(c, b, now, calls)[i]
    ensures LegalRun(c, b, now, Without(calls, i))
    ensures Replies(c, b, now, Without(calls, i)) == Without(Replies(c, b, now, calls), i)
    decreases i
  {
    var call, later := calls[0], calls[1..];
    if i == 0 {
      assert Without(calls, 0) == later;
      FirstRejectionIsInvisible(c, b, now, calls);
    } else {
      var b' := AfterCheck(c, b, call);
      assert Replies(c, b, now, calls) == [Accepts(c, b, call)] + Replies(c, b', call.at, later);
      RejectionIsInvisible(c, b', call.at, later, i - 1);
      assert calls == [call] + later;
      WithoutLater(c, b, now, call, later, i - 1);
    }
  }

  // ---------------------------------------------------------------- the object

  lemma {:induction false} RunOneMore(c: Limits, b: Buckets, h: History, now: real, calls: seq<Call>, call: Call)
    requires LegalRun(c, b, now, calls)
    requires EndTime(now, calls) <= call.at && CanEvict(c, AfterRun(c, b, h, now, calls).0, call)
    ensures LegalRun(c, b, now, calls + [call])
    ensures AfterRun(c, b, h, now, calls + [call]).0 == AfterCheck(c, AfterRun(c, b, h, now, calls).0, call)
    decreases |calls|
  {
    var more := calls + [call];
    if calls == [] {
      assert more[1..] == [];
    } else {
      var b1, h1 := AfterCheck(c, b, calls[0]), Naive(c, h, calls[0], Forgotten(c, b, calls[0]));
      RunOneMore(c, b1, h1, calls[0].at, calls[1..], call);
      assert more[0] == calls[0] && more[1..] == calls[1..] + [call];
    }
  }

  /** At the end of any run from a fresh limiter, the next reply is the full history's reply. */
  lemma NextReply(c: Limits, now: real, calls: seq<Call>, call: Call)
    requires ValidLimits(c) && LegalRun(c, map[], now, calls) && EndTime(now, calls) <= call.at
    ensures var (b, h) := AfterRun(c, map[], map[], now, calls);
            Accepts(c, b, call) <==> NaiveAccepts(c, h, call)
  {
    FreshRunInStep(c, now, calls);
    var (b, h) := AfterRun(c, map[], map[], now, calls);
    var t :| t <= EndTime(now, calls) && Refines(c, b, h, t);
    AcceptsAsNaive(c, b, h, t, call);
  }

  class RateLimiter {
    const limits: Limits
    const start: real
    var buckets: Buckets
    ghost var log: seq<Call>

    /** The queues are where a legal run of the logged calls leaves them. */
    ghost predicate Valid() reads this {
      && ValidLimits(limits)
      && LegalRun(limits, map[], start, log)
      && buckets == AfterRun(limits, map[], map[], start, log).0
    }

    constructor (limit: nat, window: real, maxKeys: nat, now: real)
      requires ValidLimits(Limits(limit, window, maxKeys))
      ensures Valid() && limits == Limits(limit, window, maxKeys) && start == now && log == []
    {
      limits := Limits(limit, window, maxKeys);
      start := now;
      buckets := map[];
      log := [];
    }

    /** Limits the source refuses with an error give no limiter. */
    static method Make(limit: int, window: real, maxKeys: int, now: real) returns (limiter: RateLimiter?)
      ensures limiter == null <==> limit < 1 || window <= 0.0 || maxKeys < 1
      ensures limiter != null ==> fresh(limiter) && limiter.Valid() && limiter.start == now && limiter.log == []
                                  && limiter.limits == Limits(limit, window, maxKeys)
    {
      if limit < 1 || window <= 0.0 || maxKeys < 1 {
        return null;
      }
      limiter := new RateLimiter(limit, window, maxKeys, now);
    }

    /** The key whose most recent entry is oldest. */
    static method Victim(buckets: Buckets) returns (victim: Key)
      requires |buckets| > 0
      ensures IsVictim(buckets, victim)
    {
      assert |buckets| == |buckets.Keys|;
      victim :| victim in buckets.Keys;
      var left := buckets.Keys - {victim};
      while left != {}
        invariant left <= buckets.Keys && victim in buckets && victim !in left
        invariant forall k :: k in buckets && k !in left ==> LastSeen(buckets[victim]) <= LastSeen(buckets[k])
        decreases |left|
      {
        var k :| k in left;
        left := left - {k};
        if LastSeen(buckets[k]) < LastSeen(buckets[victim]) {
          victim := k;
        }
      }
    }

    /** The trimming loop. */
    static method DropOld(queue: seq<real>, cutoff: real) returns (bucket: seq<real>)
      ensures bucket == Trim(queue, cutoff)
    {
      bucket := queue;
      while bucket != [] && bucket[0] < cutoff
        invariant Trim(bucket, cutoff) == Trim(queue, cutoff)
        decreases |bucket|
      {
        bucket := bucket[1..];
      }
    }

    /** Makes room for a new key when the table is full. */
    static method MakeRoom(c: Limits, buckets: Buckets, key: Key, now: real) returns (kept: Buckets, victim: Key)
      requires c.maxKeys >= 1
      ensures Legal(c, buckets, Call(key, now, victim))
      ensures kept == AfterEviction(c, buckets, Call(key, now, victim))
    {
      kept, victim := buckets, key;
      if key !in buckets && |buckets| >= c.maxKeys {
        victim := Victim(buckets);
        kept := Evict(buckets, victim);
      }
    }

    /** Evicts, trims and records. */
    static method Admit(c: Limits, buckets: Buckets, key: Key, now: real)
      returns (ok: bool, next: Buckets, ghost call: Call)
      requires c.maxKeys >= 1
      ensures call.key == key && call.at == now && Legal(c, buckets, call)
      ensures ok == Accepts(c, buckets, call) && next == AfterCheck(c, buckets, call)
    {
      var kept, victim := MakeRoom(c, buckets, key, now);
      call := Call(key, now, victim);
      var bucket := DropOld(if key in buckets then buckets[key] else [], now - c.window);
      ok := |bucket| < c.limit;
      next := kept[key := if ok then bucket + [now] else bucket];
    }

    /** True iff fewer than `limit` calls accepted on this key lie in the window ending now. */
    method Check(key: Key, now: real) returns (ok: bool, ghost call: Call)
      requires Valid() && EndTime(start, log) <= now
      modifies this
      ensures Valid() && log == old(log) + [call] && call.key == key && call.at == now
      ensures ok == NaiveAccepts(limits, AfterRun(limits, map[], map[], start, old(log)).1, call)
    {
      var next;
      ok, next, call := Admit(limits, buckets, key, now);
      NextReply(limits, start, log, call);
      RunOneMore(limits, map[], map[], start, log, call);
      buckets := next;
      log := log + [call];
    }

    /** The same for a caller that does not look at evictions. */
    method Allow(key: Key, now: real) returns (ok: bool)
      requires Valid() && EndTime(start, log) <= now
      modifies this
      ensures Valid()
      ensures ok == NaiveAccepts(limits, AfterRun(limits, map[], map[], start, old(log)).1, Call(key, now, key))
    {
      var accepted, call := Check(key, now);
      ok := accepted;
    }
  }
}
