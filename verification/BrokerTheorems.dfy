/** The broker's promises over whole runs. */
module BrokerTheorems {
  import opened Options
  import opened Cache
  import opened BrokerModel
  import opened BrokerInvariant
  import opened BrokerMoves
  import opened BrokerCauses
  import opened BrokerSteps

  ghost predicate Reachable(c: Config, s: State) {
    exists start: real, run: seq<Timed> :: IsRun(c, Start(start), run) && s == After(c, Start(start), run)
  }

  lemma ReachableInv(c: Config, s: State)
    requires Reachable(c, s)
    ensures Inv(c, s)
  {
    var start: real, run: seq<Timed> :| IsRun(c, Start(start), run) && s == After(c, Start(start), run);
    StartInv(c, start);
    RunIsGood(c, Start(start), run);
  }

  // ---------------------------------------------------------------- waiters

  /** Conservation: every waiter ever handed in is in exactly one of a request's list, a finisher's list,
      or the answered ones, and exactly once; a request with a durable outcome owes nobody an answer. */
  lemma WaitersAreConserved(c: Config, s: State, w: Waiter)
    requires Reachable(c, s)
    ensures HeldBy(s.reqs, w) + Answered(s.trace, w) == (if w in s.issued then 1 else 0)
    ensures forall i :: 0 <= i < |s.reqs| && Outcome(s.reqs[i]).Some? ==> Owed(s.reqs[i]) == []
  {
    ReachableInv(c, s);
    assert WaiterOk(s, w);
    forall i | 0 <= i < |s.reqs| && Outcome(s.reqs[i]).Some? ensures Owed(s.reqs[i]) == [] {
      assert Shape(s.reqs[i]);
    }
  }

  /** A relay waiter was told True about a request. */
  ghost predicate Approved(t: seq<Event>, w: Waiter) {
    w.relay && exists k :: 0 <= k < |t| && t[k].Replied? && t[k].waiter == w && t[k].about.Some? && t[k].value
  }

  lemma {:induction false} ApprovalsAreAnswers(t: seq<Event>, w: Waiter)
    ensures Approvals(t, w) <= Answered(t, w)
    ensures Approved(t, w) <==> Approvals(t, w) > 0
  {
    if t != [] {
      var n := |t| - 1;
      ApprovalsAreAnswers(t[..n], w);
      if Approved(t[..n], w) {
        var k :| 0 <= k < n && t[..n][k].Replied? && t[..n][k].waiter == w && t[..n][k].about.Some? && t[..n][k].value;
        assert t[k] == t[..n][k];
      }
      if Approved(t, w) && Approvals(t, w) == Approvals(t[..n], w) {
        var k :| 0 <= k < |t| && t[k].Replied? && t[k].waiter == w && t[k].about.Some? && t[k].value;
        assert t[..n][k] == t[k];
      }
    }
  }

  /** A cross-silo message is forwarded exactly once if its sender is told True, and never otherwise; and only after its
      request was allowed for good. */
  lemma ApprovedIsForwardedOnce(c: Config, s: State, w: Waiter)
    requires Reachable(c, s)
    ensures Forwards(s.trace, w) == (if Approved(s.trace, w) then 1 else 0)
    ensures forall k :: 0 <= k < |s.trace| && s.trace[k].Forwarded? ==> HasOutcome(s.reqs, s.trace[k].rid, true)
  {
    ReachableInv(c, s);
    assert WaiterOk(s, w);
    ApprovalsAreAnswers(s.trace, w);
    forall k | 0 <= k < |s.trace| && s.trace[k].Forwarded? ensures HasOutcome(s.reqs, s.trace[k].rid, true) {
      assert EventOk(s.reqs, s.trace[k]);
    }
  }

  /** Nobody is told a provisional verdict: an answer about a request is its outcome in every later state. */
  lemma AnswersAreFinal(c: Config, s: State, run: seq<Timed>, k: nat)
    requires Reachable(c, s) && IsRun(c, s, run)
    requires k < |s.trace| && s.trace[k].Replied? && s.trace[k].about.Some?
    ensures HasOutcome(After(c, s, run).reqs, s.trace[k].about.value, s.trace[k].value)
  {
    ReachableInv(c, s);
    RunIsGood(c, s, run);
    var s' := After(c, s, run);
    assert s'.trace[k] == s.trace[k] && EventOk(s'.reqs, s'.trace[k]);
  }

  // ---------------------------------------------------------------- audit

  /** Event `k` stands directly behind a message within one silo, or behind that message's row. */
  ghost predicate BehindSend(t: seq<Event>, k: nat) {
    k < |t| && exists j :: && 0 <= j < k && t[j].SentWithin?
                           && (j + 1 == k || (j + 2 == k && t[j + 1].Audited? && t[j + 1].entry.source.SameSiloSource?))
  }

  lemma SendThenReply(c: Config, s: State, step: Step, k: nat)
    requires SendsWithin(step) && |s.trace| <= k < |Perform(c, s, step).trace|
    requires Perform(c, s, step).trace[k].Replied?
    ensures BehindSend(Perform(c, s, step).trace, k)
  {
    var t, n := Perform(c, s, step).trace, |s.trace|;
    assert t[n].SentWithin?;
    if step.world.auditOk {
      assert t[n + 1].Audited? && k == n + 2;
    }
  }

  /** A True that is about no request is given only directly behind a message within one silo. */
  lemma UnattachedTrueIsASend(c: Config, start: real, run: seq<Timed>, k: nat)
    requires var t := After(c, Start(start), run).trace;
             k < |t| && t[k].Replied? && t[k].about.None? && t[k].value
    ensures BehindSend(After(c, Start(start), run).trace, k)
  {
    var s, t := Start(start), After(c, Start(start), run).trace;
    var i := EventsHaveCauses(c, s, run, k);
    var s1 := After(c, s, run[..i]);
    var t1 := Next(c, s1, run[i]).trace;
    assert t1[k] == t[k];
    SendThenReply(c, s1.(now := run[i].at), run[i].step, k);
    var j :| 0 <= j < k && t1[j].SentWithin?
        && (j + 1 == k || (j + 2 == k && t1[j + 1].Audited? && t1[j + 1].entry.source.SameSiloSource?));
    assert t[j] == t1[j] && t[j + 1] == t1[j + 1];
  }

  /** When auditing is required, every allowing answer about a request, cross-silo forward, allow signal, cached row and
      approved polkit response comes after the decision that allowed its request and after that decision's own row; and
      every response to a local authentication stands directly behind its own row.  The only other True, required rows
      or not, is the reply to a message within one silo, directly behind that message. */
  lemma AuditComesFirst(c: Config, s: State, k: nat)
    requires Reachable(c, s) && k < |s.trace|
    ensures c.auditRequired && NeedsAudit(s.trace[k]) ==> Backed(s.reqs, s.trace, k, s.trace[k])
    ensures s.trace[k].Replied? && s.trace[k].value && s.trace[k].about.None? ==>
              s.trace[k].waiter.relay && BehindSend(s.trace, k)
  {
    ReachableInv(c, s);
    assert EventOk(s.reqs, s.trace[k]);
    if s.trace[k].Replied? && s.trace[k].value && s.trace[k].about.None? {
      var start: real, run: seq<Timed> :| IsRun(c, Start(start), run) && s == After(c, Start(start), run);
      UnattachedTrueIsASend(c, start, run, k);
    }
  }

  lemma {:induction false} TwoDecisionsCount(t: seq<Event>, i: nat, j: nat)
    requires i < j < |t| && t[i].Decided? && t[j].Decided? && t[i].rid == t[j].rid
    ensures Decs(t, t[i].rid) >= 2
  {
    var n := |t| - 1;
    if j < n {
      TwoDecisionsCount(t[..n], i, j);
    } else {
      DecidedIsCounted(t[..n], i);
    }
  }

  /** A row records one decision only: no two requests share a row, and a request has one decision for it to record. */
  lemma RowsRecordOneDecision(c: Config, s: State, j: int, i: int, i': int, rid: nat, rid': nat)
    requires Reachable(c, s) && OwnRow(s.reqs, s.trace, j, i, rid) && OwnRow(s.reqs, s.trace, j, i', rid')
    ensures rid == rid' && i == i'
  {
    ReachableInv(c, s);
    RowsAreNotShared(s.reqs, s.trace, j, i, i', rid, rid');
    assert CountsFor(s.reqs, s.trace, rid);
    if i < i' {
      TwoDecisionsCount(s.trace, i, i');
    } else if i' < i {
      TwoDecisionsCount(s.trace, i', i);
    }
  }

  /** The exception: a message between two applications of one user is forwarded before its row, and is forwarded
      when the row is lost, even if auditing is required. */
  lemma SameSiloGoesFirst(c: Config, s: State, a: Ask, e: World)
    ensures var s' := SendMessage(c, s, a, e, a.caller.uid, true);
            && s'.reqs == s.reqs && s.trace < s'.trace && s'.trace[|s.trace|] == SentWithin(a.caller.uid, a.action)
            && (e.auditOk <==> exists k :: |s.trace| < k < |s'.trace| && s'.trace[k].Audited?)
            && s'.trace[|s'.trace| - 1] == Replied(Waiter(|s.issued|, true), None, true)
    ensures SendMessage(c, s, a, e, a.caller.uid, false)
         == s.(issued := s.issued + [Waiter(|s.issued|, true)], trace := s.trace + [Refused(Waiter(|s.issued|, true))])
  {
    var s' := SendMessage(c, s, a, e, a.caller.uid, true);
    if e.auditOk {
      assert s'.trace[|s.trace| + 1].Audited?;
    }
  }

  /** A hook-time decision stands right behind its own row: the recheck against rules and cache writes that row
      without a request id, so its place in the trace is what ties it to the request. */
  lemma HookAllowFollowsItsRow(c: Config, s: State, rid: nat, h: HookAnswers)
    requires Inv(c, s) && c.auditRequired && rid < |s.reqs| && s.reqs[rid].decision.None?
    requires ApplyHook(c, s, rid, h).reqs[rid].decision == Some(true)
    ensures var t', n := ApplyHook(c, s, rid, h).trace, |s.trace|;
            && n + 1 < |t'| && s.trace == t'[..n]
            && t'[n].Audited? && t'[n].entry.allow && t'[n].entry.uid == s.reqs[rid].filing.uid
            && t'[n].entry.exe == s.reqs[rid].filing.exe && t'[n].entry.action == s.reqs[rid].filing.action
            && t'[n + 1] == Decided(rid, ByHook(t'[n].entry.source), true, s.now)
  {
    assert Shape(s.reqs[rid]);
    var s1 := Unhook(s, rid);
    var row := HookRow(s1, rid, h);
    assert row.allow && h.auditOk;
  }

  // ---------------------------------------------------------------- finality

  /** A request leaves "undecided" once; afterwards its durable outcome, once reached, never changes. */
  lemma DecidedOnce(c: Config, s: State, run: seq<Timed>, rid: nat)
    requires Reachable(c, s) && IsRun(c, s, run) && rid < |s.reqs|
    ensures Decs(s.trace, rid) == (if s.reqs[rid].decision.Some? then 1 else 0)
    ensures rid < |After(c, s, run).reqs| && Evolves(s.reqs[rid], After(c, s, run).reqs[rid])
    ensures Outcome(s.reqs[rid]).Some? ==> Outcome(After(c, s, run).reqs[rid]) == Outcome(s.reqs[rid])
  {
    ReachableInv(c, s);
    assert CountsFor(s.reqs, s.trace, rid);
    RunIsGood(c, s, run);
  }

  lemma {:induction false} DecidedCounts(t: seq<Event>, k: nat)
    requires k < |t| && t[k].Decided?
    ensures LateDecs(t, t[k].rid) <= Decs(t, t[k].rid)
    ensures if t[k].decider.AtFiling? then LateDecs(t, t[k].rid) < Decs(t, t[k].rid) else LateDecs(t, t[k].rid) >= 1
  {
    var n := |t| - 1;
    if k < n {
      DecidedCounts(t[..n], k);
    } else {
      LateAmongDecs(t[..n], t[k].rid);
    }
  }

  lemma {:induction false} LateAmongDecs(t: seq<Event>, rid: nat)
    ensures LateDecs(t, rid) <= Decs(t, rid)
  {
    if t != [] {
      LateAmongDecs(t[..|t| - 1], rid);
    }
  }

  /** A request left undecided by its filing is signalled exactly once, when its outcome becomes durable and with
      that outcome; a request decided at filing is never signalled. */
  lemma SignalledOnce(c: Config, s: State, k: nat)
    requires Reachable(c, s) && k < |s.trace| && s.trace[k].Decided?
    ensures var rid := s.trace[k].rid;
            && rid < |s.reqs|
            && Sigs(s.trace, rid) == (if Outcome(s.reqs[rid]).Some? && !s.trace[k].decider.AtFiling? then 1 else 0)
    ensures forall i :: 0 <= i < |s.trace| && s.trace[i].Signalled? ==>
             HasOutcome(s.reqs, s.trace[i].rid, s.trace[i].value)
  {
    ReachableInv(c, s);
    assert EventOk(s.reqs, s.trace[k]);
    assert CountsFor(s.reqs, s.trace, s.trace[k].rid);
    DecidedCounts(s.trace, k);
    forall i | 0 <= i < |s.trace| && s.trace[i].Signalled?
        ensures HasOutcome(s.reqs, s.trace[i].rid, s.trace[i].value) {
      assert EventOk(s.reqs, s.trace[i]);
    }
  }

  // ---------------------------------------------------------------- one-shot requests

  /** A one-shot request is allowed only by an administrator's "once" or, for a polkit filing, by its filer's own
      local authentication, and it leaves no cache row. */
  lemma OneShotIsIsolated(c: Config, s: State, k: nat)
    requires Reachable(c, s) && k < |s.trace|
    ensures s.trace[k].Decided? || s.trace[k].Stored? ==> s.trace[k].rid < |s.reqs|
    ensures s.trace[k].Decided? && s.trace[k].value && s.reqs[s.trace[k].rid].filing.oneShot ==>
              || s.trace[k].decider == ByAdmin(Once)
              || (s.reqs[s.trace[k].rid].filing.filedBy != ""
                  && s.trace[k].decider == ByLocalAuth(s.reqs[s.trace[k].rid].filing.filedBy))
    ensures s.trace[k].Stored? ==> !s.reqs[s.trace[k].rid].filing.oneShot
  {
    ReachableInv(c, s);
    assert EventOk(s.reqs, s.trace[k]);
  }

  // ---------------------------------------------------------------- provenance

  /** The cached row comes from an administrator's allow of request `rid` under `scope`, stored at event `k`, not before
      that decision, and not revoked since; and that grant, given when it was stored, covers the query now. */
  ghost predicate GrantCovers(s: State, row: Row, q: Query, k: nat, rid: nat, scope: Scope) {
    && StoredAt(s.trace, k, row) && s.trace[k].rid == rid && rid < |s.reqs|
    && AllowedBy(s.trace, k, rid, scope, s.trace[k].at) && s.trace[k].at <= s.now
    && var f := s.reqs[rid].filing;
       && f.uid == q.uid && f.action == q.action && !f.oneShot
       && (f.delegated ==> !DelegatedForbidden(scope))
       && Admits(scope, f.exe, f.argv, q.exe, q.argv)
       && Lasts(scope, s.trace[k].at.Floor, s.now.Floor)
       && (q.skipBlind ==> PinsArgv(scope, f.argv))
  }

  /** Whatever a lookup finds traces back to an administrator's decision whose scope admits the request. */
  lemma CacheHitsHaveProvenance(c: Config, s: State, q: Query) returns (k: nat, rid: nat, scope: Scope)
    requires Reachable(c, s) && Lookup(s.cache, q, s.now.Floor).Some?
    ensures var row := Lookup(s.cache, q, s.now.Floor).value;
            row.decision && GrantCovers(s, row, q, k, rid, scope)
  {
    ReachableInv(c, s);
    var row := Lookup(s.cache, q, s.now.Floor).value;
    var i :| StoredAt(s.trace, i, row);
    k := i;
    rid := s.trace[k].rid;
    var g := s.trace[k].grant;
    scope := g.scope;
    assert EventOk(s.reqs, s.trace[k]);
    assert AllowedBy(s.trace, k, rid, scope, s.trace[k].at);
    RowMeansScope(g, row.id, row.created, q.exe, q.argv);
    RowLastsAsScope(g, row.id, row.created, s.now.Floor);
  }

  // ---------------------------------------------------------------- cookies

  /** All retained filings of a cookie and its announcement name one sender. */
  lemma OneCookieOwner(c: Config, s: State, i: nat, j: nat)
    requires Reachable(c, s) && i < |s.reqs| && j < |s.reqs| && s.reqs[i].retained && s.reqs[j].retained
    requires s.reqs[i].filing.cookie != "" && s.reqs[i].filing.cookie == s.reqs[j].filing.cookie
    ensures s.reqs[i].filing.filedBy == s.reqs[j].filing.filedBy
    ensures s.reqs[i].filing.cookie in s.announced ==>
             s.announced[s.reqs[i].filing.cookie].sender == s.reqs[i].filing.filedBy
  {
    ReachableInv(c, s);
    assert SameOwner(s.reqs, i, j) && BoundToFiler(s, i);
  }

  /** A local authentication that delivers anything does so for the one sender that filed and announced the cookie. */
  lemma LocalAuthDeliversForOwner(c: Config, s: State, cookie: string, hasIdentity: bool, sender: string,
                                  caller: Caller,
                                  auditOk: bool, callOk: bool)
    requires Reachable(c, s) && cookie != ""
    requires LocalAuth(c, s, cookie, hasIdentity, sender, caller, auditOk, callOk) != s
    ensures !MarkedBy(s, cookie, sender)
    ensures cookie in s.announced ==> s.announced[cookie].sender == sender
    ensures forall i :: 0 <= i < |s.reqs| && s.reqs[i].retained && s.reqs[i].filing.cookie == cookie ==>
              s.reqs[i].filing.filedBy == sender
    ensures cookie in s.announced ||
             exists i :: 0 <= i < |s.reqs| && s.reqs[i].retained && s.reqs[i].filing.cookie == cookie
  {
    ReachableInv(c, s);
    assert Owns(s, cookie, sender);
    OwnerIsFiler(s, cookie, sender);
    var first := FirstWith(s, cookie, 0);
    if first.Some? {
      assert BoundToFiler(s, first.value);
    }
    forall i | 0 <= i < |s.reqs| && s.reqs[i].retained && s.reqs[i].filing.cookie == cookie
        ensures s.reqs[i].filing.filedBy == sender {
      assert first.Some? && SameOwner(s.reqs, i, first.value);
    }
  }

  /** Both mark tables stay within their bound. */
  lemma MarksStayBounded(c: Config, s: State)
    requires Reachable(c, s)
    ensures |s.announced| <= POLKIT_MARKS_MAX && |s.cancelled| <= POLKIT_MARKS_MAX
  {
    ReachableInv(c, s);
  }

  // ---------------------------------------------------------------- the reaper

  /** Undecided requests are never dropped; a dropped one was decided at least the retention time ago; and a
      request the reaper denied was a polkit filing past its time. */
  lemma ReapedNotTooEarly(c: Config, s: State, k: nat)
    requires Reachable(c, s)
    ensures forall i :: 0 <= i < |s.reqs| && s.reqs[i].decision.None? ==> s.reqs[i].retained
    ensures k < |s.trace| && s.trace[k].Decided? ==>
              && s.trace[k].rid < |s.reqs|
              && (!s.reqs[s.trace[k].rid].retained ==> c.retention > 0.0 && s.now - s.trace[k].at >= c.retention)
              && (s.trace[k].decider.ByStaleReap? ==>
                    && !s.trace[k].value && s.reqs[s.trace[k].rid].filing.cookie != ""
                    && s.trace[k].at - s.reqs[s.trace[k].rid].filing.createdAt >= POLKIT_UNDECIDED_TTL)
  {
    ReachableInv(c, s);
    forall i | 0 <= i < |s.reqs| && s.reqs[i].decision.None? ensures s.reqs[i].retained {
      assert Shape(s.reqs[i]);
    }
    if k < |s.trace| && s.trace[k].Decided? {
      assert EventOk(s.reqs, s.trace[k]);
      assert TimeOk(c, s.reqs[s.trace[k].rid], s.trace[k].at, s.now);
    }
  }
}
