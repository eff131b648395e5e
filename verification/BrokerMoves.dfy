/** The elementary moves of the broker keep the invariant: changing one request, logging an effect,
    issuing a waiter, creating a request, touching the cache, the marks or the clock. */
module BrokerMoves {
  import opened Options
  import opened Cache
  import opened BrokerModel
  import opened BrokerInvariant

  // ---------------------------------------------------------------- answers to waiters

  lemma {:induction false} AnswerAllTallies(ws: seq<Waiter>, rid: nat, value: bool, w: Waiter)
    ensures Answered(AnswerAll(ws, rid, value), w) == Tally(ws, w)
    ensures Forwards(AnswerAll(ws, rid, value), w) == Approvals(AnswerAll(ws, rid, value), w)
  {
    if ws != [] {
      var before, last := ws[..|ws| - 1], ws[|ws| - 1];
      AnswerAllTallies(before, rid, value, w);
      ConcatAnswers(AnswerAll(before, rid, value), Answer(last, rid, value), w);
      AnswerTallies(last, rid, value, w);
    }
  }

  lemma AnswerTallies(v: Waiter, rid: nat, value: bool, w: Waiter)
    ensures Answered(Answer(v, rid, value), w) == (if v == w then 1 else 0)
    ensures Forwards(Answer(v, rid, value), w) == Approvals(Answer(v, rid, value), w)
  {
    var r, f := Replied(v, Some(rid), value), Forwarded(v, rid);
    assert [r][..0] == [];
    if value && v.relay {
      assert [r, f] == [r] + [f];
      ConcatAnswers([r], [f], w);
      assert [f][..0] == [];
    }
  }

  /** Answers are replies and forwards about one request, all with one value. */
  predicate IsAnswer(e: Event, rid: nat, value: bool) {
    || (e.Replied? && e.about == Some(rid) && e.value == value)
    || (e.Forwarded? && e.rid == rid && value && e.waiter.relay)
  }

  lemma {:induction false} AnswerAllShape(ws: seq<Waiter>, rid: nat, value: bool)
    ensures forall k :: 0 <= k < |AnswerAll(ws, rid, value)| ==> IsAnswer(AnswerAll(ws, rid, value)[k], rid, value)
  {
    if ws != [] {
      AnswerAllShape(ws[..|ws| - 1], rid, value);
    }
  }

  lemma {:induction false} AnswerAllReaches(ws: seq<Waiter>, rid: nat, value: bool)
    ensures forall w :: w in ws ==> Replied(w, Some(rid), value) in AnswerAll(ws, rid, value)
  {
    if ws != [] {
      var n := |ws| - 1;
      AnswerAllReaches(ws[..n], rid, value);
      forall w | w in ws ensures Replied(w, Some(rid), value) in AnswerAll(ws, rid, value) {
        if w in ws[..n] {
          assert Replied(w, Some(rid), value) in AnswerAll(ws[..n], rid, value);
        } else {
          assert w == ws[n];
          assert Answer(w, rid, value)[0] == Replied(w, Some(rid), value);
        }
      }
    }
  }

  /** A batch of events that decides and signals nothing. */
  predicate Quiet(e: Event) { !e.Decided? && !e.Signalled? }

  lemma {:induction false} QuietCounts(u: seq<Event>, rid: nat)
    requires forall k :: 0 <= k < |u| ==> Quiet(u[k])
    ensures Decs(u, rid) == 0 && LateDecs(u, rid) == 0 && Sigs(u, rid) == 0
  {
    if u != [] {
      QuietCounts(u[..|u| - 1], rid);
    }
  }

  /** A batch of events that answers nobody. */
  predicate Silent(e: Event) { !e.Replied? && !e.Refused? && !e.Forwarded? }

  lemma {:induction false} SilentAnswers(u: seq<Event>, w: Waiter)
    requires forall k :: 0 <= k < |u| ==> Silent(u[k])
    ensures Answered(u, w) == 0 && Forwards(u, w) == 0 && Approvals(u, w) == 0
  {
    if u != [] {
      SilentAnswers(u[..|u| - 1], w);
    }
  }

  lemma OneCounts(e: Event, rid: nat)
    ensures Decs([e], rid) == (if e.Decided? && e.rid == rid then 1 else 0)
    ensures LateDecs([e], rid) == (if e.Decided? && e.rid == rid && !e.decider.AtFiling? then 1 else 0)
    ensures Sigs([e], rid) == (if e.Signalled? && e.rid == rid then 1 else 0)
  {
    assert [e][..0] == [];
  }

  // ---------------------------------------------------------------- changing one request

  /** Events that do not touch the cache. */
  predicate Ordinary(e: Event) { !e.Stored? && !e.RevokedId? && !e.RevokedUid? }

  ghost predicate CountsChange(q: Request, q': Request, rid: nat, u: seq<Event>, r: nat) {
    if r != rid then Decs(u, r) == 0 && LateDecs(u, r) == 0 && Sigs(u, r) == 0
    else
      && Decs(u, r) == LateDecs(u, r) == (if q.decision.None? && q'.decision.Some? then 1 else 0)
      && Sigs(u, r) == (if Outcome(q).None? && Outcome(q').Some? then 1 else 0)
  }

  /** What a batch of events and the new value of one request must satisfy together. */
  ghost predicate Change(q: Request, q': Request, rid: nat, u: seq<Event>) {
    && Evolves(q, q') && Shape(q')
    && (forall w :: Held(q', w) + Answered(u, w) == Held(q, w) && Forwards(u, w) == Approvals(u, w))
    && (forall r: nat :: CountsChange(q, q', rid, u, r))
    && (forall k :: 0 <= k < |u| ==> Ordinary(u[k]))
  }

  /** The events hold of the new requests, and their audit rows and decisions are in the trace. */
  ghost predicate Grounded(c: Config, s: State, rid: nat, q: Request, u: seq<Event>)
    requires rid < |s.reqs|
  {
    && EventsOk(s.reqs[rid := q], u)
    && (c.auditRequired ==>
          && (forall k :: 0 <= k < |u| && NeedsAudit(u[k]) ==> Backed(s.reqs, s.trace + u, |s.trace| + k, u[k]))
          && (Outcome(q) == Some(true) ==> Recorded(s.reqs, s.trace + u, |s.trace + u|, rid)))
    && (q.ticket.Some? ==>
          q.ticket == s.reqs[rid].ticket || (q.ticket.value.allow ==> AdminAllowed(u, |u|, rid, q.ticket.value.scope)))
  }

  ghost predicate Timely(c: Config, q: Request, q': Request, u: seq<Event>, now: real) {
    && (forall at :: TimeOk(c, q, at, now) ==> TimeOk(c, q', at, now))
    && (forall k :: 0 <= k < |u| && u[k].Decided? ==> TimeOk(c, q', u[k].at, now))
  }

  function Changed(s: State, rid: nat, q: Request, u: seq<Event>): State
    requires rid < |s.reqs|
  {
    s.(reqs := s.reqs[rid := q], trace := s.trace + u)
  }

  lemma ChangeKeepsShapes(s: State, rid: nat, q: Request, u: seq<Event>)
    requires rid < |s.reqs| && Shapes(s) && Shape(q)
    ensures Shapes(Changed(s, rid, q, u))
  {
  }

  lemma ChangeKeepsWaiters(s: State, rid: nat, q: Request, u: seq<Event>)
    requires rid < |s.reqs| && Waiters(s) && Change(s.reqs[rid], q, rid, u)
    ensures Waiters(Changed(s, rid, q, u))
  {
    var s' := Changed(s, rid, q, u);
    forall w ensures WaiterOk(s', w) {
      assert WaiterOk(s, w);
      HeldUpdate(s.reqs, rid, q, w);
      ConcatAnswers(s.trace, u, w);
    }
  }

  lemma ChangeKeepsCounts(s: State, rid: nat, q: Request, u: seq<Event>)
    requires rid < |s.reqs| && Counts(s) && Shapes(s) && Change(s.reqs[rid], q, rid, u)
    ensures Counts(Changed(s, rid, q, u))
  {
    var s' := Changed(s, rid, q, u);
    forall r: nat ensures CountsFor(s'.reqs, s'.trace, r) {
      assert CountsFor(s.reqs, s.trace, r);
      assert CountsChange(s.reqs[rid], q, rid, u, r);
      ConcatCounts(s.trace, u, r);
      if r == rid {
        assert Shape(s.reqs[rid]) && Shape(q) && Evolves(s.reqs[rid], q);
      }
    }
  }

  lemma ChangeKeepsEvents(c: Config, s: State, rid: nat, q: Request, u: seq<Event>)
    requires rid < |s.reqs| && EventsOk(s.reqs, s.trace) && Evolves(s.reqs[rid], q)
    requires EventsOk(s.reqs[rid := q], u)
    ensures EventsOk(Changed(s, rid, q, u).reqs, Changed(s, rid, q, u).trace)
  {
    OneEvolves(s.reqs, rid, q);
    EventsStayOk(s.reqs, s.reqs[rid := q], s.trace);
    EventsOkConcat(s.reqs[rid := q], s.trace, u);
  }

  /** Effects that have their rows in the longer trace keep the audit order, whatever the requests become. */
  lemma AuditLater(a: seq<Request>, b: seq<Request>, t: seq<Event>, u: seq<Event>)
    requires AllEvolve(a, b) && AuditFirst(a, t)
    requires forall k :: 0 <= k < |u| && NeedsAudit(u[k]) ==> Backed(a, t + u, |t| + k, u[k])
    requires forall r :: 0 <= r < |b| && Outcome(b[r]) == Some(true) ==> Recorded(a, t + u, |t + u|, r)
    ensures AuditFirst(b, t + u) && OutcomesBacked(b, t + u)
  {
    var t' := t + u;
    assert t' + [] == t';
    forall k | 0 <= k < |u| && NeedsAudit(u[k]) ensures Backed(b, t', |t| + k, u[k]) {
      BackedLater(a, b, t', [], |t| + k, |t| + k, u[k]);
    }
    AuditFirstConcat(a, b, t, u);
    forall r | 0 <= r < |b| && Outcome(b[r]) == Some(true) ensures Recorded(b, t', |t'|, r) {
      RecordedLater(a, b, t', [], |t'|, |t'|, r);
    }
  }

  /** The same for effects whose rows were there before any of the new events. */
  lemma AuditAlready(a: seq<Request>, b: seq<Request>, t: seq<Event>, u: seq<Event>)
    requires AllEvolve(a, b) && AuditFirst(a, t)
    requires forall k :: 0 <= k < |u| && NeedsAudit(u[k]) ==> Backed(a, t, |t|, u[k]) && (k == 0 || !u[k].Delivered?)
    requires forall r :: 0 <= r < |b| && Outcome(b[r]) == Some(true) ==> Recorded(a, t, |t|, r)
    ensures AuditFirst(b, t + u) && OutcomesBacked(b, t + u)
  {
    AllStay(a);
    forall k | 0 <= k < |u| && NeedsAudit(u[k]) ensures Backed(a, t + u, |t| + k, u[k]) {
      BackedLater(a, a, t, u, |t|, |t| + k, u[k]);
    }
    forall r | 0 <= r < |b| && Outcome(b[r]) == Some(true) ensures Recorded(a, t + u, |t + u|, r) {
      RecordedLater(a, a, t, u, |t|, |t + u|, r);
    }
    AuditLater(a, b, t, u);
  }

  /** Finishers that were warranted before, or are by the new events, are warranted. */
  lemma WarrantedLater(a: seq<Request>, b: seq<Request>, t: seq<Event>, u: seq<Event>)
    requires Warranted(a, t) && forall k :: 0 <= k < |u| ==> !u[k].Stored?
    requires forall r :: 0 <= r < |b| && b[r].ticket.Some? && b[r].ticket.value.allow ==>
               (r < |a| && a[r].ticket == b[r].ticket) || AdminAllowed(t + u, |t + u|, r, b[r].ticket.value.scope)
    ensures Warranted(b, t + u)
  {
    var t' := t + u;
    assert forall k :: |t| <= k < |t'| ==> t'[k] == u[k - |t|];
    forall k | 0 <= k < |t'| && t'[k].Stored? ensures AllowedBy(t', k, t'[k].rid, t'[k].grant.scope, t'[k].at) {
      if k < |t| {
        assert t'[k] == t[k];
        AllowedByLater(t, u, k, k, t[k].rid, t[k].grant.scope, t[k].at);
      }
    }
    forall r | 0 <= r < |b| && b[r].ticket.Some? && b[r].ticket.value.allow
      ensures AdminAllowed(t', |t'|, r, b[r].ticket.value.scope)
    {
      if r < |a| && a[r].ticket == b[r].ticket {
        AdminAllowedLater(t, u, |t|, |t'|, r, b[r].ticket.value.scope);
      }
    }
  }

  lemma ChangeKeepsAudit(c: Config, s: State, rid: nat, q: Request, u: seq<Event>)
    requires rid < |s.reqs| && AuditFirst(s.reqs, s.trace) && OutcomesBacked(s.reqs, s.trace)
    requires Evolves(s.reqs[rid], q) && Grounded(c, s, rid, q, u) && c.auditRequired
    ensures AuditFirst(Changed(s, rid, q, u).reqs, Changed(s, rid, q, u).trace)
    ensures OutcomesBacked(Changed(s, rid, q, u).reqs, Changed(s, rid, q, u).trace)
  {
    OneEvolves(s.reqs, rid, q);
    AllStay(s.reqs);
    forall r | 0 <= r < |s.reqs[rid := q]| && Outcome(s.reqs[rid := q][r]) == Some(true)
      ensures Recorded(s.reqs, s.trace + u, |s.trace + u|, r)
    {
      if r != rid {
        RecordedLater(s.reqs, s.reqs, s.trace, u, |s.trace|, |s.trace + u|, r);
      }
    }
    AuditLater(s.reqs, s.reqs[rid := q], s.trace, u);
  }

  lemma ChangeKeepsWarrants(c: Config, s: State, rid: nat, q: Request, u: seq<Event>)
    requires rid < |s.reqs| && Warranted(s.reqs, s.trace) && forall k :: 0 <= k < |u| ==> Ordinary(u[k])
    requires Grounded(c, s, rid, q, u)
    ensures Warranted(Changed(s, rid, q, u).reqs, Changed(s, rid, q, u).trace)
  {
    if q.ticket.Some? && q.ticket.value.allow && q.ticket != s.reqs[rid].ticket {
      var scope, t' := q.ticket.value.scope, s.trace + u;
      var j :| 0 <= j < |u| && u[j].Decided? && u[j].rid == rid && u[j].decider == ByAdmin(scope) && u[j].value;
      assert t'[|s.trace| + j] == u[j];
      assert AdminAllowed(t', |t'|, rid, scope);
    }
    assert forall k :: 0 <= k < |u| ==> Ordinary(u[k]) && !u[k].Stored?;
    WarrantedLater(s.reqs, s.reqs[rid := q], s.trace, u);
  }

  /** Ordinary events leave the cached rows' origins alone. */
  lemma OrdinaryKeepsCache(s: State, s': State, u: seq<Event>)
    requires CacheOk(s) && s'.cache == s.cache && s'.trace == s.trace + u
    requires forall k :: 0 <= k < |u| ==> Ordinary(u[k])
    ensures CacheOk(s')
  {
    forall x | x in s'.cache ensures exists k :: StoredAt(s'.trace, k, x) {
      var k :| StoredAt(s.trace, k, x);
      assert forall i :: 0 <= i < |u| ==> Ordinary(u[i]) && !Revokes(u[i], x);
      StoredStays(s.trace, u, k, x);
    }
  }

  lemma ChangeKeepsTimes(c: Config, s: State, rid: nat, q: Request, u: seq<Event>)
    requires rid < |s.reqs| && Times(c, s) && Timely(c, s.reqs[rid], q, u, s.now)
    requires forall k :: 0 <= k < |u| ==> (u[k].Decided? ==> u[k].rid == rid) && !u[k].Stored?
    ensures Times(c, Changed(s, rid, q, u))
  {
    var s' := Changed(s, rid, q, u);
    assert forall k :: |s.trace| <= k < |s'.trace| ==> s'.trace[k] == u[k - |s.trace|];
    forall k | 0 <= k < |s'.trace| && s'.trace[k].Decided? && s'.trace[k].rid < |s'.reqs|
      ensures TimeOk(c, s'.reqs[s'.trace[k].rid], s'.trace[k].at, s'.now)
    {
      if k >= |s.trace| {
        assert s'.trace[k] == u[k - |s.trace|];
      } else {
        assert s'.trace[k] == s.trace[k];
        assert TimeOk(c, s.reqs[s.trace[k].rid], s.trace[k].at, s.now);
      }
    }
  }

  lemma ChangeKeepsCookies(s: State, rid: nat, q: Request, u: seq<Event>)
    requires rid < |s.reqs| && Cookies(s) && Evolves(s.reqs[rid], q)
    ensures Cookies(Changed(s, rid, q, u))
  {
    var s' := Changed(s, rid, q, u);
    forall i: nat, j: nat ensures SameOwner(s'.reqs, i, j) {
      assert SameOwner(s.reqs, i, j);
    }
    forall i: nat ensures BoundToFiler(s', i) {
      assert BoundToFiler(s, i);
    }
  }

  lemma ChangeKeepsInv(c: Config, s: State, rid: nat, q: Request, u: seq<Event>)
    requires rid < |s.reqs| && Inv(c, s)
    requires Change(s.reqs[rid], q, rid, u) && Grounded(c, s, rid, q, u) && Timely(c, s.reqs[rid], q, u, s.now)
    requires forall k :: 0 <= k < |u| && u[k].Decided? ==> u[k].rid == rid
    ensures Inv(c, Changed(s, rid, q, u))
  {
    ChangeKeepsShapes(s, rid, q, u);
    ChangeKeepsWaiters(s, rid, q, u);
    ChangeKeepsCounts(s, rid, q, u);
    ChangeKeepsEvents(c, s, rid, q, u);
    if c.auditRequired {
      ChangeKeepsAudit(c, s, rid, q, u);
    }
    ChangeKeepsWarrants(c, s, rid, q, u);
    OrdinaryKeepsCache(s, Changed(s, rid, q, u), u);
    assert forall k :: 0 <= k < |u| ==> Ordinary(u[k]) && !u[k].Stored?;
    ChangeKeepsTimes(c, s, rid, q, u);
    ChangeKeepsCookies(s, rid, q, u);
  }

  // ---------------------------------------------------------------- deciding and concluding

  function Release(ws: seq<Waiter>, rid: nat, value: bool, signalFirst: bool): seq<Event> {
    var answers := AnswerAll(ws, rid, value);
    if signalFirst then [Signalled(rid, value)] + answers else answers + [Signalled(rid, value)]
  }

  lemma {:induction false} ReleaseAnswers(ws: seq<Waiter>, rid: nat, value: bool, signalFirst: bool, w: Waiter)
    ensures Answered(Release(ws, rid, value, signalFirst), w) == Tally(ws, w)
    ensures Forwards(Release(ws, rid, value, signalFirst), w) == Approvals(Release(ws, rid, value, signalFirst), w)
  {
    var answers, signal := AnswerAll(ws, rid, value), [Signalled(rid, value)];
    AnswerAllTallies(ws, rid, value, w);
    SilentAnswers(signal, w);
    if signalFirst {
      ConcatAnswers(signal, answers, w);
    } else {
      ConcatAnswers(answers, signal, w);
    }
  }

  lemma ReleaseCounts(ws: seq<Waiter>, rid: nat, value: bool, signalFirst: bool, r: nat)
    ensures Decs(Release(ws, rid, value, signalFirst), r) == 0 && LateDecs(Release(ws, rid, value, signalFirst), r) == 0
    ensures Sigs(Release(ws, rid, value, signalFirst), r) == (if r == rid then 1 else 0)
  {
    var answers, signal := AnswerAll(ws, rid, value), Signalled(rid, value);
    AnswerAllShape(ws, rid, value);
    assert forall k :: 0 <= k < |answers| ==> IsAnswer(answers[k], rid, value) && Quiet(answers[k]);
    QuietCounts(answers, r);
    OneCounts(signal, r);
    ConcatCounts(answers, [signal], r);
    ConcatCounts([signal], answers, r);
  }

  /** Every released event is an answer or the signal. */
  lemma ReleaseShape(ws: seq<Waiter>, rid: nat, value: bool, signalFirst: bool)
    ensures var u := Release(ws, rid, value, signalFirst);
            forall k :: 0 <= k < |u| ==> u[k] == Signalled(rid, value) || IsAnswer(u[k], rid, value)
  {
    AnswerAllShape(ws, rid, value);
  }

  lemma {:induction false} DecidedIsCounted(t: seq<Event>, k: nat)
    requires k < |t| && t[k].Decided?
    ensures Decs(t, t[k].rid) >= 1
  {
    if k < |t| - 1 {
      DecidedIsCounted(t[..|t| - 1], k);
    }
  }

  lemma ReleaseBacked(reqs: seq<Request>, t: seq<Event>, n: nat, rid: nat, value: bool, e: Event)
    requires e == Signalled(rid, value) || IsAnswer(e, rid, value)
    requires value ==> Recorded(reqs, t, n, rid)
    ensures NeedsAudit(e) ==> Backed(reqs, t, n, e)
  {
  }

  /** A request that leaves the finisher as `q` does, with its outcome `value` known. */
  ghost predicate LeavesFinisher(o: Request, q: Request, value: bool) {
    && q.filing == o.filing && q.retained == o.retained && q.decidedAt == o.decidedAt && q.hooked == o.hooked
    && q.ticket.None? && q.waiters == []
    && (q.decision == o.decision || (o.decision == Some(true) && q.decision == Some(false)))
    && (q.finalizing ==> !q.retained)
    && Outcome(q) == Some(value)
  }

  lemma ConcludeChange(o: Request, q: Request, rid: nat, value: bool)
    requires Shape(o) && o.ticket.Some? && LeavesFinisher(o, q, value)
    ensures Change(o, q, rid, Release(Owed(o), rid, value, false)) && Evolves(o, q)
  {
    var u := Release(Owed(o), rid, value, false);
    assert Owed(q) == [];
    forall w ensures Held(q, w) + Answered(u, w) == Held(o, w) && Forwards(u, w) == Approvals(u, w) {
      ReleaseAnswers(Owed(o), rid, value, false, w);
    }
    forall r: nat ensures CountsChange(o, q, rid, u, r) {
      ReleaseCounts(Owed(o), rid, value, false, r);
    }
    ReleaseShape(Owed(o), rid, value, false);
  }

  /** The finisher's last act: its request's outcome becomes durable and everyone is told. */
  lemma ConcludeKeepsInv(c: Config, s: State, rid: nat, q: Request, value: bool)
    requires Inv(c, s) && rid < |s.reqs| && s.reqs[rid].ticket.Some?
    requires LeavesFinisher(s.reqs[rid], q, value)
    requires c.auditRequired && value ==> Recorded(s.reqs, s.trace, |s.trace|, rid)
    ensures Inv(c, Conclude(s, rid, q, value, false)) && Evolves(s.reqs[rid], q)
  {
    var o, u := s.reqs[rid], Release(Owed(s.reqs[rid]), rid, value, false);
    assert Shape(o);
    ConcludeChange(o, q, rid, value);
    if c.auditRequired && value {
      AllStay(s.reqs);
      forall m: nat | |s.trace| <= m ensures Recorded(s.reqs, s.trace + u, m, rid) {
        RecordedLater(s.reqs, s.reqs, s.trace, u, |s.trace|, m, rid);
      }
    }
    assert u == [] + u;
    ReleaseGrounded(c, s, rid, q, value, false, []);
    ReleaseShape(Owed(o), rid, value, false);
    ChangeKeepsInv(c, s, rid, q, u);
  }

  lemma ReleaseGrounded(c: Config, s: State, rid: nat, q: Request, value: bool, signalFirst: bool, head: seq<Event>)
    requires rid < |s.reqs| && Outcome(q) == Some(value) && q.ticket.None?
    requires forall k :: 0 <= k < |head| ==> EventOk(s.reqs[rid := q], head[k]) && !NeedsAudit(head[k])
    requires var u := head + Release(Owed(s.reqs[rid]), rid, value, signalFirst);
             c.auditRequired && value ==> forall m: nat :: |s.trace| + |head| <= m ==>
                 Recorded(s.reqs, s.trace + u, m, rid)
    ensures Grounded(c, s, rid, q, head + Release(Owed(s.reqs[rid]), rid, value, signalFirst))
  {
    var tail := Release(Owed(s.reqs[rid]), rid, value, signalFirst);
    var u := head + tail;
    ReleaseShape(Owed(s.reqs[rid]), rid, value, signalFirst);
    var reqs' := s.reqs[rid := q];
    assert forall k :: |head| <= k < |u| ==> u[k] == tail[k - |head|];
    forall k | 0 <= k < |u| ensures EventOk(reqs', u[k]) {
      assert k >= |head| ==> u[k] == Signalled(rid, value) || IsAnswer(u[k], rid, value);
      assert HasOutcome(reqs', rid, value);
    }
    if c.auditRequired {
      forall k | 0 <= k < |u| && NeedsAudit(u[k]) ensures Backed(s.reqs, s.trace + u, |s.trace| + k, u[k]) {
        assert k >= |head|;
        assert u[k] == Signalled(rid, value) || IsAnswer(u[k], rid, value);
        ReleaseBacked(s.reqs, s.trace + u, |s.trace| + k, rid, value, u[k]);
      }
    }
  }

  /** The row for a decision that is taken next. */
  ghost predicate RowReady(reqs: seq<Request>, t: seq<Event>, rid: nat, decider: Decider) {
    && rid < |reqs|
    && exists j :: && 0 <= j < |t| && t[j].Audited? && RowFits(reqs[rid].filing, t[j].entry, rid, decider)
                   && Placed(decider, j, |t|)
  }

  lemma RowBecomesOwn(reqs: seq<Request>, t: seq<Event>, rid: nat, decider: Decider, at: real, tail: seq<Event>, m: nat)
    requires RowReady(reqs, t, rid, decider) && !decider.ByAdmin? && |t| < m
    ensures Recorded(reqs, t + ([Decided(rid, decider, true, at)] + tail), m, rid)
  {
    var j :| 0 <= j < |t| && t[j].Audited? && RowFits(reqs[rid].filing, t[j].entry, rid, decider)
        && Placed(decider, j, |t|);
    var t' := t + ([Decided(rid, decider, true, at)] + tail);
    assert t'[j] == t[j] && t'[|t|] == Decided(rid, decider, true, at);
    assert OwnRow(reqs, t', j, |t|, rid);
  }

  /** Deciding an undecided request in one step. */
  lemma SettleKeepsInv(c: Config, s: State, rid: nat, q: Request, decider: Decider, value: bool, signalFirst: bool)
    requires Inv(c, s) && rid < |s.reqs| && s.reqs[rid].decision.None?
    requires q.decidedAt.None? || q.decidedAt == Some(s.now)
    requires q == s.reqs[rid].(decision := Some(value), waiters := [], decidedAt := q.decidedAt)
    requires DeciderOk(s.reqs[rid].filing, decider, value, s.now) && !decider.AtFiling? && !decider.ByAdmin?
    requires c.auditRequired && value ==> RowReady(s.reqs, s.trace, rid, decider)
    ensures Inv(c, SettleAs(s, rid, q, decider, value, signalFirst)) && Evolves(s.reqs[rid], q)
  {
    var o, d := s.reqs[rid], Decided(rid, decider, value, s.now);
    assert Shape(o);
    var tail := Release(Owed(o), rid, value, signalFirst);
    var u := [d] + tail;
    SettleChange(o, q, rid, decider, value, s.now, signalFirst);
    ReleaseShape(Owed(o), rid, value, signalFirst);
    if c.auditRequired && value {
      forall m: nat | |s.trace| + 1 <= m ensures Recorded(s.reqs, s.trace + u, m, rid) {
        RowBecomesOwn(s.reqs, s.trace, rid, decider, s.now, tail, m);
      }
    }
    assert EventOk(s.reqs[rid := q], d);
    ReleaseGrounded(c, s, rid, q, value, signalFirst, [d]);
    assert forall k :: 0 <= k < |u| && u[k].Decided? ==> k == 0;
    assert Timely(c, o, q, u, s.now);
    ChangeKeepsInv(c, s, rid, q, u);
    assert SettleAs(s, rid, q, decider, value, signalFirst) == Changed(s, rid, q, u) by {
      assert s.trace + u == (s.trace + [d]) + tail;
    }
  }

  lemma SettleChange(o: Request, q: Request, rid: nat, decider: Decider, value: bool, at: real, signalFirst: bool)
    requires Shape(o) && o.decision.None? && !decider.AtFiling?
    requires q == o.(decision := Some(value), waiters := [], decidedAt := q.decidedAt)
    ensures Change(o, q, rid, [Decided(rid, decider, value, at)] + Release(Owed(o), rid, value, signalFirst))
  {
    var d, tail := Decided(rid, decider, value, at), Release(Owed(o), rid, value, signalFirst);
    var u := [d] + tail;
    assert Owed(q) == [];
    forall w ensures Held(q, w) + Answered(u, w) == Held(o, w) && Forwards(u, w) == Approvals(u, w) {
      ReleaseAnswers(Owed(o), rid, value, signalFirst, w);
      SilentAnswers([d], w);
      ConcatAnswers([d], tail, w);
    }
    forall r: nat ensures CountsChange(o, q, rid, u, r) {
      ReleaseCounts(Owed(o), rid, value, signalFirst, r);
      OneCounts(d, r);
      ConcatCounts([d], tail, r);
    }
    ReleaseShape(Owed(o), rid, value, signalFirst);
    forall k | 0 <= k < |u| ensures Ordinary(u[k]) {
      if k > 0 {
        assert u[k] == tail[k - 1];
      }
    }
  }

  /** Taking the decision under the lock, with the waiters in the finisher's hands. */
  lemma BeginKeepsInv(c: Config, s: State, rid: nat, t: Ticket)
    requires Inv(c, s) && rid < |s.reqs| && s.reqs[rid].decision.None? && t.waiters == s.reqs[rid].waiters
    requires ScopeAllowed(s.reqs[rid].filing, t.allow, t.scope)
    ensures var q := s.reqs[rid].(decision := Some(t.allow), finalizing := true, waiters := [], ticket := Some(t));
            && Inv(c, Changed(s, rid, q, [Decided(rid, ByAdmin(t.scope), t.allow, s.now)]))
            && Evolves(s.reqs[rid], q)
  {
    var o := s.reqs[rid];
    var q := o.(decision := Some(t.allow), finalizing := true, waiters := [], ticket := Some(t));
    var d := Decided(rid, ByAdmin(t.scope), t.allow, s.now);
    assert Shape(o);
    assert Change(o, q, rid, [d]) by {
      assert Owed(q) == o.waiters + [] == o.waiters && Owed(o) == [] + o.waiters == o.waiters;
      forall w ensures Held(q, w) + Answered([d], w) == Held(o, w) && Forwards([d], w) == Approvals([d], w) {
        SilentAnswers([d], w);
      }
      forall r: nat ensures CountsChange(o, q, rid, [d], r) {
        OneCounts(d, r);
      }
    }
    assert EventOk(s.reqs[rid := q], d);
    assert t.allow ==> AdminAllowed([d], 1, rid, t.scope) by {
      if t.allow {
        assert [d][0].Decided? && [d][0].value;
      }
    }
    ChangeKeepsInv(c, s, rid, q, [d]);
  }

  /** Bookkeeping on one request: the reaper's stamp and drop, the end of a hook query. */
  lemma QuietlyKeepsInv(c: Config, s: State, rid: nat, q: Request)
    requires Inv(c, s) && rid < |s.reqs|
    requires q == s.reqs[rid].(decidedAt := q.decidedAt, retained := q.retained, hooked := q.hooked)
    requires q.hooked ==> s.reqs[rid].hooked
    requires q.decidedAt == s.reqs[rid].decidedAt
             || (s.reqs[rid].decidedAt.None? && q.decidedAt == Some(s.now) && q.decision.Some?)
    requires q.retained == s.reqs[rid].retained
             || (!q.retained && q.decision.Some? && c.retention > 0.0 && q.decidedAt.Some?
                 && s.now - q.decidedAt.value >= c.retention)
    ensures Inv(c, s.(reqs := s.reqs[rid := q])) && Evolves(s.reqs[rid], q)
  {
    var o := s.reqs[rid];
    assert Shape(o);
    assert Change(o, q, rid, []) by {
      assert Owed(q) == Owed(o);
      forall r: nat ensures CountsChange(o, q, rid, [], r) {
      }
    }
    assert s.trace + [] == s.trace;
    assert Grounded(c, s, rid, q, []);
    ChangeKeepsInv(c, s, rid, q, []);
    assert Changed(s, rid, q, []) == s.(reqs := s.reqs[rid := q]) by {
      assert s.trace + [] == s.trace;
    }
  }

  // ---------------------------------------------------------------- logging

  /** Events that concern no request's state. */
  ghost predicate Remark(c: Config, s: State, e: Event) {
    || e.Audited? || e.Prompted? || e.SentWithin?
    || (e.Delivered? && (c.auditRequired ==> Backed(s.reqs, s.trace, |s.trace|, e)))
  }

  lemma AllStay(reqs: seq<Request>)
    ensures AllEvolve(reqs, reqs)
  {
  }

  /** Events that decide and signal nothing leave the counts alone. */
  lemma QuietKeepsCounts(reqs: seq<Request>, t: seq<Event>, u: seq<Event>)
    requires (forall r: nat :: CountsFor(reqs, t, r)) && forall k :: 0 <= k < |u| ==> Quiet(u[k])
    ensures forall r: nat :: CountsFor(reqs, t + u, r)
  {
    forall r: nat ensures CountsFor(reqs, t + u, r) {
      assert CountsFor(reqs, t, r);
      QuietCounts(u, r);
      ConcatCounts(t, u, r);
    }
  }

  /** Events that answer nobody leave the waiters alone. */
  lemma SilentKeepsWaiters(s: State, s': State, u: seq<Event>)
    requires Waiters(s) && s'.reqs == s.reqs && s'.issued == s.issued && s'.trace == s.trace + u
    requires forall k :: 0 <= k < |u| ==> Silent(u[k])
    ensures Waiters(s')
  {
    forall w ensures WaiterOk(s', w) {
      assert WaiterOk(s, w);
      SilentAnswers(u, w);
      ConcatAnswers(s.trace, u, w);
    }
  }

  lemma LogKeepsOrders(c: Config, s: State, u: seq<Event>)
    requires Inv(c, s)
    requires c.auditRequired ==>
               forall k :: 0 <= k < |u| && NeedsAudit(u[k]) ==>
                     Backed(s.reqs, s.trace, |s.trace|, u[k]) && (k == 0 || !u[k].Delivered?)
    requires forall k :: 0 <= k < |u| ==> !u[k].Stored? && !u[k].Decided?
    ensures c.auditRequired ==> AuditFirst(s.reqs, s.trace + u) && OutcomesBacked(s.reqs, s.trace + u)
    ensures Warranted(s.reqs, s.trace + u) && Times(c, Log(s, u))
  {
    if c.auditRequired {
      AllStay(s.reqs);
      AuditAlready(s.reqs, s.reqs, s.trace, u);
    }
    WarrantedLater(s.reqs, s.reqs, s.trace, u);
    TimesLater(c, s, u);
  }

  lemma TimesLater(c: Config, s: State, u: seq<Event>)
    requires Times(c, s) && forall k :: 0 <= k < |u| ==> !u[k].Decided? && (u[k].Stored? ==> u[k].at <= s.now)
    ensures Times(c, Log(s, u))
  {
    var t' := s.trace + u;
    assert forall k :: |s.trace| <= k < |t'| ==> t'[k] == u[k - |s.trace|];
    forall k | 0 <= k < |t'| && t'[k].Decided? && t'[k].rid < |s.reqs|
        ensures TimeOk(c, s.reqs[t'[k].rid], t'[k].at, s.now) {
      if k < |s.trace| {
        assert t'[k] == s.trace[k];
      }
    }
  }

  lemma CookiesFrame(s: State, s': State)
    requires Cookies(s) && s'.reqs == s.reqs && s'.announced == s.announced && s'.cancelled == s.cancelled
    ensures Cookies(s')
  {
    forall i: nat ensures BoundToFiler(s', i) {
      assert BoundToFiler(s, i);
    }
  }

  lemma LogKeepsInv(c: Config, s: State, u: seq<Event>)
    requires Inv(c, s) && forall k :: 0 <= k < |u| ==> Remark(c, s, u[k]) && (k == 0 || !u[k].Delivered?)
    ensures Inv(c, Log(s, u))
  {
    assert forall k :: 0 <= k < |u| ==>
          Remark(c, s, u[k]) && Silent(u[k]) && Quiet(u[k]) && Ordinary(u[k]) && EventOk(s.reqs, u[k]);
    SilentKeepsWaiters(s, Log(s, u), u);
    QuietKeepsCounts(s.reqs, s.trace, u);
    EventsOkConcat(s.reqs, s.trace, u);
    LogKeepsOrders(c, s, u);
    OrdinaryKeepsCache(s, Log(s, u), u);
    CookiesFrame(s, Log(s, u));
  }

  // ---------------------------------------------------------------- new waiters

  lemma FreshWaiter(s: State, w: Waiter, v: Waiter)
    requires Waiters(s) && w.id == |s.issued|
    ensures w !in s.issued && HeldBy(s.reqs, w) == 0 && Answered(s.trace, w) == 0
    ensures v in s.issued + [w] <==> v in s.issued || v == w
  {
    assert WaiterOk(s, w);
    assert forall i :: 0 <= i < |s.issued| ==> s.issued[i].id == i && s.issued[i] != w;
  }

  /** The events answer this waiter once and nobody else. */
  ghost predicate AnswersOnce(u: seq<Event>, w: Waiter) {
    forall v :: Answered(u, v) == (if v == w then 1 else 0) && Forwards(u, v) == Approvals(u, v)
  }

  lemma AnswerNowKeepsWaiters(s: State, w: Waiter, u: seq<Event>)
    requires Waiters(s) && w.id == |s.issued|
    requires AnswersOnce(u, w)
    ensures Waiters(s.(issued := s.issued + [w], trace := s.trace + u))
  {
    var s' := s.(issued := s.issued + [w], trace := s.trace + u);
    forall v ensures WaiterOk(s', v) {
      assert WaiterOk(s, v);
      FreshWaiter(s, w, v);
      ConcatAnswers(s.trace, u, v);
    }
  }

  lemma AnswerNowKeepsOrders(c: Config, s: State, u: seq<Event>)
    requires Inv(c, s) && EventsOk(s.reqs, u)
    requires forall k :: 0 <= k < |u| ==> (u[k].Replied? || u[k].Refused? || u[k].Forwarded?)
    requires c.auditRequired ==>
               forall k :: 0 <= k < |u| && NeedsAudit(u[k]) ==> Backed(s.reqs, s.trace, |s.trace|, u[k])
    ensures forall r: nat :: CountsFor(s.reqs, s.trace + u, r)
    ensures EventsOk(s.reqs, s.trace + u)
    ensures c.auditRequired ==> AuditFirst(s.reqs, s.trace + u) && OutcomesBacked(s.reqs, s.trace + u)
    ensures Warranted(s.reqs, s.trace + u) && Times(c, Log(s, u))
  {
    QuietKeepsCounts(s.reqs, s.trace, u);
    EventsOkConcat(s.reqs, s.trace, u);
    LogKeepsOrders(c, s, u);
  }

  /** A waiter answered on the spot. */
  lemma AnswerNowKeepsInv(c: Config, s: State, w: Waiter, u: seq<Event>)
    requires Inv(c, s) && w.id == |s.issued|
    requires AnswersOnce(u, w)
    requires EventsOk(s.reqs, u)
    requires forall k :: 0 <= k < |u| ==> (u[k].Replied? || u[k].Refused? || u[k].Forwarded?)
    requires c.auditRequired ==>
               forall k :: 0 <= k < |u| && NeedsAudit(u[k]) ==> Backed(s.reqs, s.trace, |s.trace|, u[k])
    ensures Inv(c, s.(issued := s.issued + [w], trace := s.trace + u))
  {
    var s' := s.(issued := s.issued + [w], trace := s.trace + u);
    AnswerNowKeepsWaiters(s, w, u);
    AnswerNowKeepsOrders(c, s, u);
    OrdinaryKeepsCache(s, s', u);
    CookiesFrame(s, s');
  }

  lemma ParkKeepsWaiters(s: State, rid: nat, w: Waiter)
    requires Waiters(s) && w.id == |s.issued| && rid < |s.reqs|
    ensures var q := s.reqs[rid].(waiters := s.reqs[rid].waiters + [w]);
            Waiters(s.(issued := s.issued + [w], reqs := s.reqs[rid := q]))
  {
    var o := s.reqs[rid];
    var q := o.(waiters := o.waiters + [w]);
    var s' := s.(issued := s.issued + [w], reqs := s.reqs[rid := q]);
    forall v ensures WaiterOk(s', v) {
      assert WaiterOk(s, v);
      FreshWaiter(s, w, v);
      HeldUpdate(s.reqs, rid, q, v);
      assert Owed(q) == Owed(o) + [w];
      TallyConcat(Owed(o), [w], v);
      assert [w][..0] == [];
    }
  }

  /** A waiter parked on a request without a durable outcome. */
  lemma ParkKeepsInv(c: Config, s: State, rid: nat, w: Waiter)
    requires Inv(c, s) && w.id == |s.issued| && rid < |s.reqs| && s.reqs[rid].retained
    requires s.reqs[rid].decision.None? || s.reqs[rid].finalizing
    ensures var q := s.reqs[rid].(waiters := s.reqs[rid].waiters + [w]);
            Inv(c, s.(issued := s.issued + [w], reqs := s.reqs[rid := q])) && Evolves(s.reqs[rid], q)
  {
    var o := s.reqs[rid];
    var q := o.(waiters := o.waiters + [w]);
    var s' := s.(issued := s.issued + [w], reqs := s.reqs[rid := q]);
    assert Shape(o) && Outcome(o).None? && Outcome(q).None?;
    ParkKeepsWaiters(s, rid, w);
    forall r: nat ensures CountsFor(s'.reqs, s'.trace, r) {
      assert CountsFor(s.reqs, s.trace, r);
    }
    OneEvolves(s.reqs, rid, q);
    EventsStayOk(s.reqs, s'.reqs, s.trace);
    ParkKeepsOrders(c, s, rid, q, s');
    ChangeKeepsCookies(s, rid, q, []);
    CookiesFrame(Changed(s, rid, q, []), s');
  }

  lemma ParkKeepsOrders(c: Config, s: State, rid: nat, q: Request, s': State)
    requires Inv(c, s) && rid < |s.reqs| && q == s.reqs[rid].(waiters := q.waiters) && Outcome(q).None?
    requires s' == s.(reqs := s.reqs[rid := q], issued := s'.issued)
    requires AllEvolve(s.reqs, s'.reqs)
    ensures c.auditRequired ==> AuditFirst(s'.reqs, s'.trace) && OutcomesBacked(s'.reqs, s'.trace)
    ensures Warranted(s'.reqs, s'.trace) && Times(c, s') && CacheOk(s')
  {
    assert s.trace + [] == s.trace;
    if c.auditRequired {
      AuditAlready(s.reqs, s'.reqs, s.trace, []);
    }
    WarrantedLater(s.reqs, s'.reqs, s.trace, []);
    OrdinaryKeepsCache(s, s', []);
    ChangeKeepsTimes(c, s, rid, q, []);
  }

  // ---------------------------------------------------------------- new requests

  /** A filing may join the retained requests: nobody else holds its cookie. */
  ghost predicate CookieFree(s: State, f: Filing) {
    f.cookie != "" ==>
      && (forall i :: 0 <= i < |s.reqs| && s.reqs[i].retained && s.reqs[i].filing.cookie == f.cookie ==>
          s.reqs[i].filing.filedBy == f.filedBy)
      && (f.cookie in s.announced ==> s.announced[f.cookie].sender == f.filedBy)
  }

  /** The last event is the row of a decision at filing. */
  ghost predicate RowFiled(t: seq<Event>, rid: nat, f: Filing, decider: Decider) {
    t != [] && t[|t| - 1].Audited? && RowFits(f, t[|t| - 1].entry, rid, decider)
  }

  /** The event of a request's creation. */
  ghost predicate Creation(s: State, q: Request, u: seq<Event>) {
    || (q.decision.None? && (u == [] || u == [Prompted(|s.reqs|)]))
    || (q.decision.Some? && exists source :: u == [Decided(|s.reqs|, AtFiling(source), q.decision.value, s.now)])
  }

  lemma CreateKeepsCounts(s: State, q: Request, u: seq<Event>)
    requires Waiters(s) && Counts(s) && Creation(s, q, u) && q.waiters == [] && q.ticket.None? && !q.finalizing
    ensures var s' := s.(reqs := s.reqs + [q], trace := s.trace + u);
            Waiters(s') && Counts(s')
  {
    var s' := s.(reqs := s.reqs + [q], trace := s.trace + u);
    forall w ensures WaiterOk(s', w) {
      assert WaiterOk(s, w);
      HeldAppend(s.reqs, q, w);
      assert Owed(q) == [];
      SilentAnswers(u, w);
      ConcatAnswers(s.trace, u, w);
    }
    forall r: nat ensures CountsFor(s'.reqs, s'.trace, r) {
      assert CountsFor(s.reqs, s.trace, r);
      ConcatCounts(s.trace, u, r);
      if u != [] {
        OneCounts(u[0], r);
      }
    }
  }

  lemma CreateKeepsOrders(c: Config, s: State, q: Request, u: seq<Event>)
    requires Inv(c, s) && Creation(s, q, u) && q.ticket.None?
    requires c.auditRequired && q.decision == Some(true) ==>
             u != [] && u[0].Decided? && RowFiled(s.trace, |s.reqs|, q.filing, u[0].decider)
    requires q.decidedAt.None? && q.retained
    ensures var s' := s.(reqs := s.reqs + [q], trace := s.trace + u);
            && (c.auditRequired ==> AuditFirst(s'.reqs, s'.trace) && OutcomesBacked(s'.reqs, s'.trace))
            && Warranted(s'.reqs, s'.trace) && Times(c, s') && CacheOk(s')
  {
    var s' := s.(reqs := s.reqs + [q], trace := s.trace + u);
    var n := |s.reqs|;
    assert AllEvolve(s.reqs, s'.reqs);
    if c.auditRequired {
      AuditFirstConcat(s.reqs, s'.reqs, s.trace, u);
      forall r | 0 <= r < |s'.reqs| && Outcome(s'.reqs[r]) == Some(true)
          ensures Recorded(s'.reqs, s'.trace, |s'.trace|, r) {
        if r < n {
          assert s'.reqs[r] == s.reqs[r];
          RecordedLater(s.reqs, s'.reqs, s.trace, u, |s.trace|, |s'.trace|, r);
        } else {
          assert s'.trace[|s.trace| - 1] == s.trace[|s.trace| - 1] && s'.trace[|s.trace|] == u[0];
          assert OwnRow(s'.reqs, s'.trace, |s.trace| - 1, |s.trace|, n);
        }
      }
    }
    WarrantedLater(s.reqs, s'.reqs, s.trace, u);
    OrdinaryKeepsCache(s, s', u);
    assert forall k :: |s.trace| <= k < |s'.trace| ==> s'.trace[k] == u[k - |s.trace|];
    forall k | 0 <= k < |s'.trace| && s'.trace[k].Decided? && s'.trace[k].rid < |s'.reqs|
      ensures TimeOk(c, s'.reqs[s'.trace[k].rid], s'.trace[k].at, s'.now)
    {
      if k < |s.trace| {
        assert s'.trace[k] == s.trace[k] && EventOk(s.reqs, s.trace[k]);
      }
    }
  }

  lemma CreateKeepsInv(c: Config, s: State, q: Request, u: seq<Event>)
    requires Inv(c, s) && Creation(s, q, u)
    requires Shape(q) && q.waiters == [] && q.ticket.None? && !q.finalizing && q.decidedAt.None? && q.retained
    requires q.decision == Some(true) ==> !q.filing.oneShot
    requires CookieFree(s, q.filing)
    requires c.auditRequired && q.decision == Some(true) ==>
             u != [] && u[0].Decided? && RowFiled(s.trace, |s.reqs|, q.filing, u[0].decider)
    ensures Inv(c, s.(reqs := s.reqs + [q], trace := s.trace + u)) && AllEvolve(s.reqs, s.reqs + [q])
  {
    var s' := s.(reqs := s.reqs + [q], trace := s.trace + u);
    CreateKeepsCounts(s, q, u);
    assert AllEvolve(s.reqs, s'.reqs);
    EventsStayOk(s.reqs, s'.reqs, s.trace);
    assert EventsOk(s'.reqs, u);
    EventsOkConcat(s'.reqs, s.trace, u);
    CreateKeepsOrders(c, s, q, u);
    CreateKeepsCookies(s, q, s');
    assert forall i :: 0 <= i < |s'.reqs| ==> Shape(s'.reqs[i]);
  }

  lemma CreateKeepsCookies(s: State, q: Request, s': State)
    requires Cookies(s) && CookieFree(s, q.filing)
    requires s'.reqs == s.reqs + [q] && s'.announced == s.announced && s'.cancelled == s.cancelled
    ensures Cookies(s')
  {
    forall i: nat, j: nat ensures SameOwner(s'.reqs, i, j) {
      assert SameOwner(s.reqs, i, j);
    }
    forall i: nat ensures BoundToFiler(s', i) {
      assert BoundToFiler(s, i);
    }
  }

  // ---------------------------------------------------------------- the cache

  lemma StoreGrantKeepsInv(c: Config, s: State, rid: nat, g: Grant)
    requires Inv(c, s) && rid < |s.reqs| && StoredKind(g.scope, g.argv).Some?
    requires s.reqs[rid].ticket.Some? && s.reqs[rid].ticket.value.allow && !s.reqs[rid].filing.oneShot
    requires g == GrantOf(s.reqs[rid].filing, s.reqs[rid].ticket.value)
    requires c.auditRequired ==> RecordedGrant(s.reqs, s.trace, |s.trace|, rid, g.scope)
    ensures Inv(c, StoreGrant(s, rid, g))
  {
    var row := RowFor(g, NewId(s.cache), s.now.Floor);
    var e, s' := Stored(rid, g, row, s.now), StoreGrant(s, rid, g);
    assert Shape(s.reqs[rid]);
    assert EventOk(s.reqs, e);
    SilentKeepsWaiters(s, s', [e]);
    QuietKeepsCounts(s.reqs, s.trace, [e]);
    EventsOkConcat(s.reqs, s.trace, [e]);
    if c.auditRequired {
      AllStay(s.reqs);
      AuditAlready(s.reqs, s.reqs, s.trace, [e]);
    }
    StoreKeepsWarrants(c, s, e);
    StoreKeepsCache(s, rid, g, row);
    CookiesFrame(s, s');
    TimesLater(c, s, [e]);
  }

  /** The decision behind a finisher was taken before now. */
  lemma TicketAllowedBy(c: Config, s: State, rid: nat)
    requires Warranted(s.reqs, s.trace) && Times(c, s) && rid < |s.reqs|
    requires s.reqs[rid].ticket.Some? && s.reqs[rid].ticket.value.allow
    ensures AllowedBy(s.trace, |s.trace|, rid, s.reqs[rid].ticket.value.scope, s.now)
  {
    var t, scope := s.trace, s.reqs[rid].ticket.value.scope;
    var j :| 0 <= j < |t| && t[j].Decided? && t[j].rid == rid && t[j].decider == ByAdmin(scope) && t[j].value;
    assert TimeOk(c, s.reqs[rid], t[j].at, s.now);
  }

  lemma StoreKeepsWarrants(c: Config, s: State, e: Event)
    requires Warranted(s.reqs, s.trace) && Times(c, s) && e.Stored? && e.rid < |s.reqs| && e.at == s.now
    requires s.reqs[e.rid].ticket.Some? && s.reqs[e.rid].ticket.value.allow && s.reqs[e.rid].ticket.value.scope
             == e.grant.scope
    ensures Warranted(s.reqs, s.trace + [e])
  {
    var t' := s.trace + [e];
    TicketAllowedBy(c, s, e.rid);
    forall k | 0 <= k < |t'| && t'[k].Stored? ensures AllowedBy(t', k, t'[k].rid, t'[k].grant.scope, t'[k].at) {
      if k < |s.trace| {
        assert t'[k] == s.trace[k];
        AllowedByLater(s.trace, [e], k, k, t'[k].rid, t'[k].grant.scope, t'[k].at);
      } else {
        AllowedByLater(s.trace, [e], |s.trace|, k, e.rid, e.grant.scope, e.at);
      }
    }
    forall r | 0 <= r < |s.reqs| && s.reqs[r].ticket.Some? && s.reqs[r].ticket.value.allow
      ensures AdminAllowed(t', |t'|, r, s.reqs[r].ticket.value.scope)
    {
      AdminAllowedLater(s.trace, [e], |s.trace|, |t'|, r, s.reqs[r].ticket.value.scope);
    }
  }

  lemma StoreKeepsCache(s: State, rid: nat, g: Grant, row: Row)
    requires CacheOk(s) && StoredKind(g.scope, g.argv).Some? && row == RowFor(g, NewId(s.cache), s.now.Floor)
    ensures CacheOk(s.(cache := s.cache + [row], trace := s.trace + [Stored(rid, g, row, s.now)]))
  {
    var e := Stored(rid, g, row, s.now);
    StoreKeepsOrder(s.cache, g, s.now.Floor);
    forall x | x in s.cache + [row] ensures exists k :: StoredAt(s.trace + [e], k, x) {
      if x in s.cache {
        var k :| StoredAt(s.trace, k, x);
        StoredStays(s.trace, [e], k, x);
      } else {
        assert StoredAt(s.trace + [e], |s.trace|, x);
      }
    }
  }

  /** Dropping rows, and saying so when it is a revocation. */
  lemma DropRowsKeepsInv(c: Config, s: State, rows: seq<Row>, u: seq<Event>)
    requires Inv(c, s) && Ordered(rows)
    requires forall k :: 0 <= k < |u| ==> u[k].RevokedId? || u[k].RevokedUid?
    requires forall x :: x in rows ==> x in s.cache && forall k :: 0 <= k < |u| ==> !Revokes(u[k], x)
    ensures Inv(c, s.(cache := rows, trace := s.trace + u))
  {
    var s' := s.(cache := rows, trace := s.trace + u);
    SilentKeepsWaiters(s, s', u);
    QuietKeepsCounts(s.reqs, s.trace, u);
    EventsOkConcat(s.reqs, s.trace, u);
    LogKeepsOrders(c, s, u);
    forall x | x in rows ensures exists k :: StoredAt(s'.trace, k, x) {
      var k :| StoredAt(s.trace, k, x);
      StoredStays(s.trace, u, k, x);
    }
    CookiesFrame(s, s');
  }

  // ---------------------------------------------------------------- marks and clock

  /** Everything but the marks and the clock stays; the clock does not run back. */
  lemma MarksKeepInv(c: Config, s: State, s': State)
    requires Inv(c, s) && s.now <= s'.now
    requires s' == s.(cancelled := s'.cancelled, announced := s'.announced, now := s'.now, lastPass := s'.lastPass)
    requires Cookies(s')
    ensures Inv(c, s')
  {
    forall w ensures WaiterOk(s', w) {
      assert WaiterOk(s, w);
    }
    forall r: nat ensures CountsFor(s'.reqs, s'.trace, r) {
      assert CountsFor(s.reqs, s.trace, r);
    }
    forall k | 0 <= k < |s'.trace| && s'.trace[k].Decided? && s'.trace[k].rid < |s'.reqs|
      ensures TimeOk(c, s'.reqs[s'.trace[k].rid], s'.trace[k].at, s'.now)
    {
      assert TimeOk(c, s.reqs[s.trace[k].rid], s.trace[k].at, s.now);
    }
  }

  lemma ClockKeepsInv(c: Config, s: State, now: real)
    requires Inv(c, s) && s.now <= now
    ensures Inv(c, s.(now := now))
  {
    CookiesFrame(s, s.(now := now));
    MarksKeepInv(c, s, s.(now := now));
  }
}
