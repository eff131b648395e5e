/** Denying several requests at once, as the reaper and a cancel do it: first every request's fields, then, request
    by request, the audit row, the callbacks and the signal.  The model takes the requests one by one; the two agree. */
module BrokerDenials {
  import opened Options
  import opened BrokerModel
  import opened BrokerMoves
  import opened BrokerCauses

  /** Which undecided requests the reaper or a cancel denies. */
  datatype Target = StaleAt(now: real) | CancelledBy(cookie: string, sender: string)

  predicate Denies(x: Target, q: Request) {
    match x
    case StaleAt(now) => q.retained && Stale(q, now)
    case CancelledBy(cookie, sender) => CancelHits(q, cookie, sender)
  }

  function DeciderOf(x: Target): Decider { if x.StaleAt? then ByStaleReap else ByCancel(x.sender) }

  function SourceOf(x: Target): Source { if x.StaleAt? then StaleReapSource else PolkitCancelSource }

  /** A denied request and the callbacks it owed. */
  datatype Denial = Denial(rid: nat, filing: Filing, waiters: seq<Waiter>)

  function DenialsFrom(x: Target, reqs: seq<Request>, from: nat): seq<Denial>
    requires from <= |reqs|
    decreases |reqs| - from
  {
    if from == |reqs| then []
    else if Denies(x, reqs[from]) then [Denial(from, reqs[from].filing, reqs[from].waiters)]
        + DenialsFrom(x, reqs, from + 1)
    else DenialsFrom(x, reqs, from + 1)
  }

  function DenialEvents(x: Target, d: Denial, audited: set<nat>, now: real): seq<Event> {
    AuditIf(d.rid in audited, DenyRow(d.filing, d.rid, SourceOf(x))) + [Decided(d.rid, DeciderOf(x), false, now)]
      + Release(d.waiters, d.rid, false, false)
  }

  function AllDenialEvents(x: Target, ds: seq<Denial>, audited: set<nat>, now: real): seq<Event> {
    if ds == [] then [] else DenialEvents(x, ds[0], audited, now) + AllDenialEvents(x, ds[1..], audited, now)
  }

  lemma {:induction false} DenialsDependOnRest(x: Target, a: seq<Request>, b: seq<Request>, from: nat)
    requires |a| == |b| && from <= |a| && forall i :: from <= i < |a| ==> a[i] == b[i]
    ensures DenialsFrom(x, a, from) == DenialsFrom(x, b, from)
    decreases |a| - from
  {
    if from < |a| {
      DenialsDependOnRest(x, a, b, from + 1);
    }
  }

  /** Undecided requests have no finisher. */
  ghost predicate Unfinished(reqs: seq<Request>) {
    forall i :: 0 <= i < |reqs| && reqs[i].decision.None? ==> reqs[i].ticket.None?
  }

  /** What a denial does to the trace, one request at a time. */
  lemma DenialTrace(x: Target, s: State, rid: nat, q: Request, audited: set<nat>)
    requires rid < |s.reqs| && s.reqs[rid].ticket.None?
    ensures var row := DenyRow(s.reqs[rid].filing, rid, SourceOf(x));
            SettleAs(Log(s, AuditIf(rid in audited, row)), rid, q, DeciderOf(x), false, false)
            == Log(s, DenialEvents(x, Denial(rid, s.reqs[rid].filing, s.reqs[rid].waiters), audited,
                                   s.now)).(reqs := s.reqs[rid := q])
  {
    var ws := s.reqs[rid].waiters;
    assert Owed(s.reqs[rid]) == ws;
    var a, b, d := AuditIf(rid in audited, DenyRow(s.reqs[rid].filing, rid, SourceOf(x))),
        [Decided(rid, DeciderOf(x), false, s.now)], Release(ws, rid, false, false);
    assert ((s.trace + a) + b) + d == s.trace + ((a + b) + d);
  }

  lemma LogNext(t: seq<Event>, a: seq<Event>, b: seq<Event>)
    ensures (t + a) + b == t + (a + b)
  {
  }

  lemma ReapOneInParts(c: Config, s: State, rid: nat, audited: set<nat>)
    requires rid < |s.reqs| && Unfinished(s.reqs)
    ensures var q, x := s.reqs[rid], StaleAt(s.now);
            ReapOne(c, s, rid, audited)
            == s.(reqs := s.reqs[rid := ReapedTo(c, q, s.now)],
                  trace := s.trace + (if Denies(x, q) then DenialEvents(x, Denial(rid, q.filing, q.waiters), audited,
                                                                        s.now) else []))
  {
    var q := s.reqs[rid];
    if Denies(StaleAt(s.now), q) {
      DenialTrace(StaleAt(s.now), s, rid, q.(decision := Some(false), waiters := [], decidedAt := Some(s.now)),
                  audited);
    } else {
      assert s.trace + [] == s.trace && s.reqs[rid := q] == s.reqs;
    }
  }

  lemma DenialsStep(x: Target, t: seq<Event>, reqs: seq<Request>, from: nat, audited: set<nat>, now: real)
    requires from < |reqs|
    ensures var q := reqs[from];
            t + AllDenialEvents(x, DenialsFrom(x, reqs, from), audited, now)
            == (t + (if Denies(x, q) then DenialEvents(x, Denial(from, q.filing, q.waiters), audited, now) else []))
               + AllDenialEvents(x, DenialsFrom(x, reqs, from + 1), audited, now)
  {
    var q := reqs[from];
    LogNext(t, if Denies(x, q) then DenialEvents(x, Denial(from, q.filing, q.waiters), audited, now) else [],
            AllDenialEvents(x, DenialsFrom(x, reqs, from + 1), audited, now));
  }

  /** A reaper pass: every request moves by `ReapedTo`, and the stale ones' events follow in order. */
  lemma {:induction false} ReapInParts(c: Config, s: State, from: nat, audited: set<nat>)
    requires from <= |s.reqs| && Unfinished(s.reqs)
    ensures var s', x := ReapFrom(c, s, from, audited), StaleAt(s.now);
            s' == s.(reqs := s'.reqs,
                     trace := s.trace + AllDenialEvents(x, DenialsFrom(x, s.reqs, from), audited, s.now))
    decreases |s.reqs| - from
  {
    if from < |s.reqs| {
      var x := StaleAt(s.now);
      var s1 := ReapOne(c, s, from, audited);
      ReapOneInParts(c, s, from, audited);
      ReapInParts(c, s1, from + 1, audited);
      DenialsDependOnRest(x, s.reqs, s1.reqs, from + 1);
      DenialsStep(x, s.trace, s.reqs, from, audited, s.now);
    } else {
      assert s.trace + [] == s.trace;
    }
  }

  lemma CancelOneInParts(s: State, rid: nat, cookie: string, sender: string, audited: set<nat>)
    requires rid < |s.reqs| && Unfinished(s.reqs)
    ensures var q, x := s.reqs[rid], CancelledBy(cookie, sender);
            CancelOne(s, rid, cookie, sender, audited)
            == s.(reqs := s.reqs[rid := CancelledTo(q, cookie, sender)],
                  trace := s.trace + (if Denies(x, q) then DenialEvents(x, Denial(rid, q.filing, q.waiters), audited,
                                                                        s.now) else []))
  {
    var q, x := s.reqs[rid], CancelledBy(cookie, sender);
    if Denies(x, q) {
      DenialTrace(x, s, rid, q.(decision := Some(false), waiters := []), audited);
    } else {
      assert s.trace + [] == s.trace && s.reqs[rid := q] == s.reqs;
    }
  }

  /** A cancel likewise. */
  lemma {:induction false} CancelInParts(s: State, from: nat, cookie: string, sender: string, audited: set<nat>)
    requires from <= |s.reqs| && Unfinished(s.reqs)
    ensures var s', x := CancelFrom(s, from, cookie, sender, audited), CancelledBy(cookie, sender);
            s' == s.(reqs := s'.reqs,
                     trace := s.trace + AllDenialEvents(x, DenialsFrom(x, s.reqs, from), audited, s.now))
    decreases |s.reqs| - from
  {
    if from < |s.reqs| {
      var x := CancelledBy(cookie, sender);
      var s1 := CancelOne(s, from, cookie, sender, audited);
      CancelOneInParts(s, from, cookie, sender, audited);
      CancelInParts(s1, from + 1, cookie, sender, audited);
      DenialsDependOnRest(x, s.reqs, s1.reqs, from + 1);
      DenialsStep(x, s.trace, s.reqs, from, audited, s.now);
    } else {
      assert s.trace + [] == s.trace;
    }
  }

  lemma {:induction false} CancelIsPointwise(s: State, from: nat, cookie: string, sender: string, audited: set<nat>)
    requires from <= |s.reqs| && Unfinished(s.reqs)
    ensures var s' := CancelFrom(s, from, cookie, sender, audited);
            && |s'.reqs| == |s.reqs|
            && (forall i :: 0 <= i < from ==> s'.reqs[i] == s.reqs[i])
            && (forall i :: from <= i < |s.reqs| ==> s'.reqs[i] == CancelledTo(s.reqs[i], cookie, sender))
    decreases |s.reqs| - from
  {
    if from < |s.reqs| {
      CancelOneInParts(s, from, cookie, sender, audited);
      CancelIsPointwise(CancelOne(s, from, cookie, sender, audited), from + 1, cookie, sender, audited);
    }
  }

  function CancelledTo(q: Request, cookie: string, sender: string): Request {
    if CancelHits(q, cookie, sender) then q.(decision := Some(false), waiters := []) else q
  }

  lemma {:induction false} NoDenials(x: Target, reqs: seq<Request>, from: nat)
    requires from <= |reqs|
    ensures DenialsFrom(x, reqs, from) == [] <==> forall i :: from <= i < |reqs| ==> !Denies(x, reqs[i])
    decreases |reqs| - from
  {
    if from < |reqs| {
      NoDenials(x, reqs, from + 1);
    }
  }

  /** A pass takes the request out of the pending map. */
  predicate Drops(c: Config, q: Request, now: real) { q.retained && !ReapedTo(c, q, now).retained }

  function DropsUpTo(c: Config, reqs: seq<Request>, now: real, n: nat): nat
    requires n <= |reqs|
  {
    if n == 0 then 0 else DropsUpTo(c, reqs, now, n - 1) + (if Drops(c, reqs[n - 1], now) then 1 else 0)
  }

  /** The first `n` requests have been through a pass. */
  ghost predicate ReapedUpTo(c: Config, before: seq<Request>, after: seq<Request>, now: real, n: nat) {
    && |after| == |before|
    && forall k :: 0 <= k < |before| ==> after[k] == if k < n then ReapedTo(c, before[k], now) else before[k]
  }

  lemma SweepStep(c: Config, before: seq<Request>, mid: seq<Request>, now: real, i: nat)
    requires ReapedUpTo(c, before, mid, now, i) && i < |before|
    ensures mid[i] == before[i] && ReapedUpTo(c, before, mid[i := ReapedTo(c, mid[i], now)], now, i + 1)
  {
  }

  lemma ReapAsParts(c: Config, s: State, after: seq<Request>, audited: set<nat>)
    requires Unfinished(s.reqs) && ReapedUpTo(c, s.reqs, after, s.now, |s.reqs|)
    ensures ReapFrom(c, s, 0, audited)
            == Log(s, AllDenialEvents(StaleAt(s.now), DenialsFrom(StaleAt(s.now), s.reqs, 0), audited,
                                      s.now)).(reqs := after)
  {
    ReapIsPointwise(c, s, s, 0, audited);
    ReapInParts(c, s, 0, audited);
    assert ReapFrom(c, s, 0, audited).reqs == after;
  }

  ghost predicate CancelledUpTo(before: seq<Request>, after: seq<Request>, cookie: string, sender: string, n: nat) {
    && |after| == |before|
    && forall k :: 0 <= k < |before| ==> after[k] == if k < n then CancelledTo(before[k], cookie, sender) else before[k]
  }

  lemma CancelSweepStep(before: seq<Request>, mid: seq<Request>, cookie: string, sender: string, i: nat)
    requires CancelledUpTo(before, mid, cookie, sender, i) && i < |before|
    ensures mid[i] == before[i]
             && CancelledUpTo(before, mid[i := CancelledTo(mid[i], cookie, sender)], cookie, sender, i + 1)
  {
  }

  lemma CancelAsParts(s: State, after: seq<Request>, cookie: string, sender: string, audited: set<nat>)
    requires Unfinished(s.reqs) && CancelledUpTo(s.reqs, after, cookie, sender, |s.reqs|)
    ensures var x := CancelledBy(cookie, sender);
            CancelFrom(s, 0, cookie, sender, audited)
            == Log(s, AllDenialEvents(x, DenialsFrom(x, s.reqs, 0), audited, s.now)).(reqs := after)
  {
    CancelInParts(s, 0, cookie, sender, audited);
    CancelIsPointwise(s, 0, cookie, sender, audited);
    assert CancelFrom(s, 0, cookie, sender, audited).reqs == after;
  }

  /** Collecting the denials while walking over the requests. */
  lemma CollectStep(x: Target, reqs: seq<Request>, i: nat, found: seq<Denial>)
    requires i < |reqs| && found + DenialsFrom(x, reqs, i) == DenialsFrom(x, reqs, 0)
    ensures var d := Denial(i, reqs[i].filing, reqs[i].waiters);
            (if Denies(x, reqs[i]) then found + [d] else found) + DenialsFrom(x, reqs, i + 1) == DenialsFrom(x, reqs, 0)
  {
    var d := Denial(i, reqs[i].filing, reqs[i].waiters);
    if Denies(x, reqs[i]) {
      assert (found + [d]) + DenialsFrom(x, reqs, i + 1) == found + ([d] + DenialsFrom(x, reqs, i + 1));
    }
  }

  /** Where a sweep stands after `i` requests: the denied ones collected and the dropped ones counted. */
  ghost predicate SweptTo(c: Config, s: State, m: State, now: real, i: nat, expired: seq<Denial>, removed: nat) {
    && i <= |s.reqs| && m == s.(reqs := m.reqs) && ReapedUpTo(c, s.reqs, m.reqs, now, i)
    && expired + DenialsFrom(StaleAt(now), s.reqs, i) == DenialsFrom(StaleAt(now), s.reqs, 0)
    && removed == DropsUpTo(c, s.reqs, now, i)
  }

  lemma SweptNext(c: Config, s: State, m: State, now: real, i: nat, expired: seq<Denial>, removed: nat)
    requires SweptTo(c, s, m, now, i, expired, removed) && i < |s.reqs|
    ensures i < |m.reqs|
    ensures var q := m.reqs[i];
            SweptTo(c, s, m.(reqs := m.reqs[i := ReapedTo(c, q, now)]), now, i + 1,
                    if Denies(StaleAt(now), q) then expired + [Denial(i, q.filing, q.waiters)] else expired,
                    if Drops(c, q, now) then removed + 1 else removed)
  {
    SweepStep(c, s.reqs, m.reqs, now, i);
    CollectStep(StaleAt(now), s.reqs, i, expired);
  }
}
