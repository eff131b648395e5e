/** Every step of the broker keeps the invariant, lets requests only evolve, and only appends to the trace. */
module BrokerSteps {
  import opened Options
  import opened Cache
  import opened BrokerModel
  import opened BrokerInvariant
  import opened BrokerMoves

  ghost predicate Good(c: Config, s: State, s': State) {
    exists later :: later == s'.reqs && Inv(c, s') && AllEvolve(s.reqs, later) && s.trace <= s'.trace
  }

  lemma GoodTransitive(c: Config, a: State, b: State, d: State)
    requires Good(c, a, b) && Good(c, b, d)
    ensures Good(c, a, d)
  {
    AllEvolveTransitive(a.reqs, b.reqs, d.reqs);
    assert a.trace <= d.trace by {
      assert b.trace == d.trace[..|b.trace|] && a.trace == b.trace[..|a.trace|];
    }
  }

  lemma LogIsGood(c: Config, s: State, u: seq<Event>)
    requires Inv(c, s) && forall k :: 0 <= k < |u| ==> Remark(c, s, u[k]) && (k == 0 || !u[k].Delivered?)
    ensures Good(c, s, Log(s, u))
  {
    LogKeepsInv(c, s, u);
    AllStay(s.reqs);
  }

  lemma SettleIsGood(c: Config, s: State, rid: nat, q: Request, decider: Decider, value: bool, signalFirst: bool)
    requires Inv(c, s) && rid < |s.reqs| && s.reqs[rid].decision.None?
    requires q.decidedAt.None? || q.decidedAt == Some(s.now)
    requires q == s.reqs[rid].(decision := Some(value), waiters := [], decidedAt := q.decidedAt)
    requires DeciderOk(s.reqs[rid].filing, decider, value, s.now) && !decider.AtFiling? && !decider.ByAdmin?
    requires c.auditRequired && value ==> RowReady(s.reqs, s.trace, rid, decider)
    ensures Good(c, s, SettleAs(s, rid, q, decider, value, signalFirst))
  {
    SettleKeepsInv(c, s, rid, q, decider, value, signalFirst);
    OneEvolves(s.reqs, rid, q);
  }

  /** A decider that denies. */
  lemma DenyIsGood(c: Config, s: State, rid: nat, stamp: Option<real>, row: AuditRow, ok: bool, decider: Decider,
                   signalFirst: bool)
    requires Inv(c, s) && rid < |s.reqs| && s.reqs[rid].decision.None?
    requires stamp.None? || stamp == Some(s.now)
    requires DeciderOk(s.reqs[rid].filing, decider, false, s.now) && !decider.AtFiling? && !decider.ByAdmin?
    ensures var s1 := Log(s, AuditIf(ok, row));
            var q := s.reqs[rid].(decision := Some(false), waiters := [], decidedAt := stamp);
            Good(c, s, SettleAs(s1, rid, q, decider, false, signalFirst))
  {
    var s1 := Log(s, AuditIf(ok, row));
    var q := s.reqs[rid].(decision := Some(false), waiters := [], decidedAt := stamp);
    LogIsGood(c, s, AuditIf(ok, row));
    SettleIsGood(c, s1, rid, q, decider, false, signalFirst);
    GoodTransitive(c, s, s1, SettleAs(s1, rid, q, decider, false, signalFirst));
  }

  // ---------------------------------------------------------------- waiting and filing

  lemma AttendIsGood(c: Config, s: State, rid: nat, relay: bool)
    requires Inv(c, s) && rid < |s.reqs| && s.reqs[rid].retained
    ensures Good(c, s, Attend(Issue(s, relay).0, rid, Issue(s, relay).1))
  {
    var w, q := Waiter(|s.issued|, relay), s.reqs[rid];
    assert Shape(q);
    if q.decision.Some? && !q.finalizing {
      var u := Answer(w, rid, q.decision.value);
      assert Outcome(q) == q.decision;
      forall v ensures Answered(u, v) == (if v == w then 1 else 0) && Forwards(u, v) == Approvals(u, v) {
        AnswerTallies(w, rid, q.decision.value, v);
      }
      if c.auditRequired {
        forall k | 0 <= k < |u| && NeedsAudit(u[k]) ensures Backed(s.reqs, s.trace, |s.trace|, u[k]) {
          ReleaseBacked(s.reqs, s.trace, |s.trace|, rid, q.decision.value, u[k]);
        }
      }
      AnswerNowKeepsInv(c, s, w, u);
      AllStay(s.reqs);
    } else {
      ParkKeepsInv(c, s, rid, w);
      OneEvolves(s.reqs, rid, q.(waiters := q.waiters + [w]));
    }
  }

  lemma RefuseIsGood(c: Config, s: State, relay: bool, e: Event)
    requires Inv(c, s) && (e == Refused(Issue(s, relay).1)
                           || (e.Replied? && e.waiter == Issue(s, relay).1 && e.about.None? && (e.value ==> relay)))
    ensures Good(c, s, Log(Issue(s, relay).0, [e]))
  {
    forall v ensures Answered([e], v) == (if v == e.waiter then 1 else 0) && Forwards([e], v) == Approvals([e], v) {
      assert [e][..0] == [];
    }
    AnswerNowKeepsInv(c, s, e.waiter, [e]);
    AllStay(s.reqs);
  }

  lemma WaitIsGood(c: Config, s: State, rid: int, uid: int)
    requires Inv(c, s)
    ensures Good(c, s, WaitForDecision(s, rid, uid))
  {
    var (s1, w) := Issue(s, false);
    if !Retained(s1, rid) {
      RefuseIsGood(c, s, false, Replied(w, None, false));
    } else if uid != 0 && uid != ADMIN_UID && uid != s1.reqs[rid].filing.uid {
      RefuseIsGood(c, s, false, Refused(w));
    } else {
      AttendIsGood(c, s, rid, false);
    }
  }

  lemma RetireMarkIsGood(c: Config, s: State, a: Ask)
    requires Inv(c, s)
    ensures Good(c, s, RetireMark(s, a)) && RetireMark(s, a).reqs == s.reqs && RetireMark(s, a).trace == s.trace
    ensures RetireMark(s, a).announced == s.announced && RetireMark(s, a).now == s.now
  {
    var s' := RetireMark(s, a);
    if s' != s {
      assert s'.cancelled.Keys <= s.cancelled.Keys;
      SmallerMap(s'.cancelled, s.cancelled);
    }
    forall i: nat ensures BoundToFiler(s', i) {
      assert BoundToFiler(s, i);
    }
    MarksKeepInv(c, s, s');
    AllStay(s.reqs);
  }

  lemma SmallerMap<K, V>(a: map<K, V>, b: map<K, V>)
    requires a.Keys <= b.Keys
    ensures |a| <= |b|
  {
    assert |a| == |a.Keys| && |b| == |b.Keys|;
    SmallerSet(a.Keys, b.Keys);
  }

  lemma {:induction false} SmallerSet<K>(a: set<K>, b: set<K>)
    requires a <= b
    ensures |a| <= |b|
    decreases a
  {
    if a != {} {
      var x :| x in a;
      SmallerSet(a - {x}, b - {x});
    }
  }

  lemma AdmitIsGood(c: Config, s: State, a: Ask, e: World, verdict: Verdict)
    requires Inv(c, s) && CookieFree(s, FilingOf(a, s.now))
    requires a.kind.Polkit? ==> a.kind.sender != ""
    requires verdict.Closed? && verdict.allow ==> !FilingOf(a, s.now).oneShot
    ensures Good(c, s, Admit(c, s, a, e, verdict))
  {
    var f, rid := FilingOf(a, s.now), |s.reqs|;
    match verdict
    case Open =>
      var q := NewRequest(f, None, !f.oneShot && e.hookStarts);
      CreateKeepsInv(c, s, q, if q.hooked then [] else [Prompted(rid)]);
    case Closed(source, allow, scope) =>
      var row := AuditRow(f.uid, f.exe, f.action, allow, scope, source, Some(rid));
      var (events, stands) := RecordCheck(c, e.auditOk, row);
      var s1, q := Log(s, events), NewRequest(f, Some(stands), false);
      LogIsGood(c, s, events);
      if c.auditRequired && stands {
        assert s1.trace[|s.trace|] == Audited(row);
      }
      var d := Decided(rid, AtFiling(source), stands, s.now);
      CreateKeepsInv(c, s1, q, [d]);
      GoodTransitive(c, s, s1, Admit(c, s, a, e, verdict));
  }

  lemma FilingVerdictOneShot(s: State, a: Ask, e: World, now: real)
    ensures var v := FilingVerdict(s, a, e, now);
            v.Closed? && v.allow ==> !FilingOf(a, now).oneShot
  {
  }

  /** Without a foreign binding or filing the cookie is free. */
  lemma NotElsewhere(s: State, a: Ask)
    requires Cookies(s)
    requires a.kind.Polkit? ==>
             !BoundElsewhere(s, a.kind.cookie, a.kind.sender) && !FiledElsewhere(s, a.kind.cookie, a.kind.sender)
    ensures CookieFree(s, FilingOf(a, s.now))
  {
    var f := FilingOf(a, s.now);
    if f.cookie != "" {
      var first := FirstWith(s, f.cookie, 0);
      forall i | 0 <= i < |s.reqs| && s.reqs[i].retained && s.reqs[i].filing.cookie == f.cookie
        ensures s.reqs[i].filing.filedBy == f.filedBy
      {
        assert first.Some?;
        assert SameOwner(s.reqs, i, first.value);
      }
    }
  }

  lemma EnqueueIsGood(c: Config, s: State, a: Ask, e: World)
    requires Inv(c, s) && (a.kind.Polkit? ==> a.kind.sender != "")
    ensures Good(c, s, Enqueue(c, s, a, e).0)
    ensures Enqueue(c, s, a, e).1.Queued? ==> Enqueue(c, s, a, e).0.reqs[|s.reqs|].retained
  {
    if !e.rateOk {
      LogIsGood(c, s, AuditIf(e.auditOk,
                              AuditRow(a.caller.uid, a.caller.exe, a.action, false, None, RateLimitSource, None)));
    } else {
      var verdict, s1 := FilingVerdict(s, a, e, s.now), RetireMark(s, a);
      RetireMarkIsGood(c, s, a);
      if !(a.kind.Polkit? && (BoundElsewhere(s1, a.kind.cookie, a.kind.sender)
                              || FiledElsewhere(s1, a.kind.cookie, a.kind.sender))) {
        NotElsewhere(s1, a);
        FilingVerdictOneShot(s, a, e, s.now);
        AdmitIsGood(c, s1, a, e, verdict);
        GoodTransitive(c, s, s1, Admit(c, s1, a, e, verdict));
      }
    }
  }

  lemma RelayIsGood(c: Config, s: State, a: Ask, e: World)
    requires Inv(c, s)
    ensures Good(c, s, RelayMessage(c, s, a, e))
  {
    var (s1, filed) := Enqueue(c, s, a.(kind := Relay), e);
    EnqueueIsGood(c, s, a.(kind := Relay), e);
    if filed.Queued? {
      AttendIsGood(c, s1, filed.rid, true);
    } else {
      RefuseIsGood(c, s1, true, Refused(Issue(s1, true).1));
    }
    GoodTransitive(c, s, s1, RelayMessage(c, s, a, e));
  }

  lemma SendWithinIsGood(c: Config, s: State, caller: Caller, action: string, forwardOk: bool, auditOk: bool)
    requires Inv(c, s)
    ensures Good(c, s, SendWithin(s, caller, action, forwardOk, auditOk))
  {
    var w := Issue(s, true).1;
    if forwardOk {
      var row := AuditRow(caller.uid, caller.exe, action, true, Some(Once), SameSiloSource, None);
      var u := [SentWithin(caller.uid, action)] + AuditIf(auditOk, row);
      var s1 := Log(s, u);
      LogIsGood(c, s, u);
      RefuseIsGood(c, s1, true, Replied(w, None, true));
      assert SendWithin(s, caller, action, forwardOk, auditOk) == Log(Issue(s1, true).0, [Replied(w, None, true)]) by {
        assert (s.trace + u) + [Replied(w, None, true)] == s.trace + (u + [Replied(w, None, true)]);
      }
      GoodTransitive(c, s, s1, SendWithin(s, caller, action, forwardOk, auditOk));
    } else {
      RefuseIsGood(c, s, true, Refused(w));
    }
  }

  lemma SendMessageIsGood(c: Config, s: State, a: Ask, e: World, target: int, forwardOk: bool)
    requires Inv(c, s)
    ensures Good(c, s, SendMessage(c, s, a, e, target, forwardOk))
  {
    if a.caller.uid == target {
      SendWithinIsGood(c, s, a.caller, a.action, forwardOk, e.auditOk);
    } else {
      RelayIsGood(c, s, a, e);
    }
  }

  // ---------------------------------------------------------------- the admin's decision

  lemma BeginIsGood(c: Config, s: State, rid: int, allow: bool, scope: Scope, admin: int, startNow: int, auditOk: bool)
    requires Inv(c, s)
    ensures Good(c, s, Begin(s, rid, allow, scope, admin, startNow, auditOk))
  {
    match BeginAnswer(s, rid, allow, scope, startNow)
    case CallerGone =>
      var f := s.reqs[rid].filing;
      assert Shape(s.reqs[rid]);
      DenyIsGood(c, s, rid, None, AuditRow(f.uid, f.exe, f.action, false, None, CallerGoneSource, Some(rid)), auditOk,
                 ByCallerGone, true);
    case Started =>
      var t := Ticket(allow, scope, admin, s.reqs[rid].waiters);
      BeginKeepsInv(c, s, rid, t);
      OneEvolves(s.reqs, rid, s.reqs[rid].(decision := Some(allow), finalizing := true, waiters := [],
                                           ticket := Some(t)));
    case _ =>
      AllStay(s.reqs);
  }

  /** Right after its own row is written, the finisher's decision is recorded. */
  lemma FreshRowRecords(s: State, rid: nat, row: AuditRow)
    requires rid < |s.reqs| && s.reqs[rid].ticket.Some? && s.reqs[rid].ticket.value.allow && Warranted(s.reqs, s.trace)
    requires RowFits(s.reqs[rid].filing, row, rid, ByAdmin(s.reqs[rid].ticket.value.scope))
    ensures var s1 := Log(s, [Audited(row)]);
            && Recorded(s1.reqs, s1.trace, |s1.trace|, rid)
            && RecordedGrant(s1.reqs, s1.trace, |s1.trace|, rid, s.reqs[rid].ticket.value.scope)
  {
    var t, scope := s.trace, s.reqs[rid].ticket.value.scope;
    var i :| 0 <= i < |t| && t[i].Decided? && t[i].rid == rid && t[i].decider == ByAdmin(scope) && t[i].value;
    var t' := t + [Audited(row)];
    assert t'[i] == t[i] && t'[|t|] == Audited(row);
    assert OwnRow(s.reqs, t', |t|, i, rid);
  }

  lemma RespondIsGood(c: Config, s: State, rid: nat)
    requires Inv(c, s) && rid < |s.reqs|
    requires c.auditRequired ==> Recorded(s.reqs, s.trace, |s.trace|, rid)
    ensures Good(c, s, Log(s, Respond(s, rid)))
  {
    LogIsGood(c, s, Respond(s, rid));
  }

  lemma StillRecorded(a: State, b: State, rid: nat)
    requires AllEvolve(a.reqs, b.reqs) && a.trace <= b.trace && Recorded(a.reqs, a.trace, |a.trace|, rid)
    ensures Recorded(b.reqs, b.trace, |b.trace|, rid)
  {
    assert b.trace == a.trace + b.trace[|a.trace|..];
    RecordedLater(a.reqs, b.reqs, a.trace, b.trace[|a.trace|..], |a.trace|, |b.trace|, rid);
  }

  lemma StoreIsGood(c: Config, s: State, rid: nat, storeOk: bool)
    requires Inv(c, s) && rid < |s.reqs| && s.reqs[rid].ticket.Some?
    requires c.auditRequired ==> RecordedGrant(s.reqs, s.trace, |s.trace|, rid, s.reqs[rid].ticket.value.scope)
    ensures var f, t := s.reqs[rid].filing, s.reqs[rid].ticket.value;
            var s2 := if t.allow && !f.oneShot && storeOk then StoreGrant(s, rid, GrantOf(f, t)) else s;
            Good(c, s, s2) && s2.reqs == s.reqs
  {
    var f, t := s.reqs[rid].filing, s.reqs[rid].ticket.value;
    AllStay(s.reqs);
    if t.allow && !f.oneShot && storeOk && StoredKind(t.scope, f.argv).Some? {
      StoreGrantKeepsInv(c, s, rid, GrantOf(f, t));
    }
  }

  lemma FinishIsGood(c: Config, s: State, rid: nat, auditOk: bool, storeOk: bool)
    requires Inv(c, s)
    ensures Good(c, s, Finish(c, s, rid, auditOk, storeOk))
  {
    AllStay(s.reqs);
    if rid < |s.reqs| && s.reqs[rid].ticket.Some? {
      var q := s.reqs[rid];
      var f, t := q.filing, q.ticket.value;
      var row := AuditRow(f.uid, f.exe, f.action, t.allow, Some(t.scope), PromptSource, Some(rid));
      var s1 := Log(s, AuditIf(auditOk, row));
      assert Shape(q);
      LogIsGood(c, s, AuditIf(auditOk, row));
      if !auditOk && c.auditRequired {
        var q1 := q.(ticket := None, waiters := []);
        var q2 := if q.retained then q1.(decision := Some(false), finalizing := false) else q1;
        ConcludeKeepsInv(c, s1, rid, q2, false);
        OneEvolves(s1.reqs, rid, q2);
      } else {
        FinishGrants(c, s, s1, rid, auditOk, storeOk, row);
      }
      GoodTransitive(c, s, s1, Finish(c, s, rid, auditOk, storeOk));
    }
  }

  lemma FinishGrants(c: Config, s: State, s1: State, rid: nat, auditOk: bool, storeOk: bool, row: AuditRow)
    requires Inv(c, s1) && rid < |s.reqs| && s.reqs[rid].ticket.Some? && (auditOk || !c.auditRequired)
             && Warranted(s.reqs, s.trace)
    requires s1 == Log(s, AuditIf(auditOk, row)) && Shape(s.reqs[rid])
    requires var q := s.reqs[rid];
             row == AuditRow(q.filing.uid, q.filing.exe, q.filing.action, q.ticket.value.allow,
                             Some(q.ticket.value.scope),
                             PromptSource, Some(rid))
    ensures Good(c, s1, Finish(c, s, rid, auditOk, storeOk))
  {
    var q := s.reqs[rid];
    var f, t := q.filing, q.ticket.value;
    var s2 := if t.allow && !f.oneShot && storeOk then StoreGrant(s1, rid, GrantOf(f, t)) else s1;
    var s3 := if t.allow && f.cookie != "" then Log(s2, Respond(s2, rid)) else s2;
    if t.allow {
      if c.auditRequired {
        FreshRowRecords(s, rid, row);
      }
      StoreIsGood(c, s1, rid, storeOk);
      DeliverAllowed(c, s1, s2, rid);
    } else {
      AllStay(s1.reqs);
    }
    ConcludeTicket(c, s1, s3, rid);
  }

  lemma ConcludeTicket(c: Config, s1: State, s3: State, rid: nat)
    requires Good(c, s1, s3) && rid < |s3.reqs| && s3.reqs[rid].ticket.Some?
    requires c.auditRequired && s3.reqs[rid].ticket.value.allow ==> Recorded(s3.reqs, s3.trace, |s3.trace|, rid)
    ensures var q := s3.reqs[rid];
            Good(c, s1, Conclude(s3, rid, q.(ticket := None, waiters := [], finalizing := false),
                                 q.ticket.value.allow, false))
  {
    var q := s3.reqs[rid];
    var q', allow := q.(ticket := None, waiters := [], finalizing := false), q.ticket.value.allow;
    assert Shape(q);
    ConcludeKeepsInv(c, s3, rid, q', allow);
    OneEvolves(s3.reqs, rid, q');
    GoodTransitive(c, s1, s3, Conclude(s3, rid, q', allow, false));
  }

  lemma DeliverAllowed(c: Config, s1: State, s2: State, rid: nat)
    requires Good(c, s1, s2) && rid < |s2.reqs|
    requires c.auditRequired ==> Recorded(s1.reqs, s1.trace, |s1.trace|, rid)
    ensures var s3 := if s2.reqs[rid].filing.cookie != "" then Log(s2, Respond(s2, rid)) else s2;
            && Good(c, s1, s3)
            && (c.auditRequired ==> Recorded(s3.reqs, s3.trace, |s3.trace|, rid))
  {
    AllStay(s2.reqs);
    if c.auditRequired {
      StillRecorded(s1, s2, rid);
    }
    var s3 := Log(s2, Respond(s2, rid));
    RespondIsGood(c, s2, rid);
    GoodTransitive(c, s1, s2, s3);
    if c.auditRequired {
      StillRecorded(s2, s3, rid);
    }
  }

  // ---------------------------------------------------------------- the gate and the hook

  lemma CheckIsGood(c: Config, s: State, a: Ask, e: World)
    requires Inv(c, s)
    ensures Good(c, s, CheckPermission(c, s, a, e).0)
  {
    AllStay(s.reqs);
    if e.rateOk {
      match CheckVerdict(s, a.caller.uid, a.caller.exe, a.action, a.rawArgv, e.rules, e.sandboxed, s.now)
      case Open =>
      case Closed(source, allow, scope) =>
        var row := AuditRow(a.caller.uid, a.caller.exe, a.action, allow, scope, source, None);
        LogIsGood(c, s, RecordCheck(c, e.auditOk, row).0);
    }
  }

  lemma QuietlyIsGood(c: Config, s: State, rid: nat, q: Request)
    requires Inv(c, s) && rid < |s.reqs|
    requires q == s.reqs[rid].(decidedAt := q.decidedAt, retained := q.retained, hooked := q.hooked)
    requires q.hooked ==> s.reqs[rid].hooked
    requires q.decidedAt == s.reqs[rid].decidedAt
             || (s.reqs[rid].decidedAt.None? && q.decidedAt == Some(s.now) && q.decision.Some?)
    requires q.retained == s.reqs[rid].retained
             || (!q.retained && q.decision.Some? && c.retention > 0.0 && q.decidedAt.Some?
                 && s.now - q.decidedAt.value >= c.retention)
    ensures Good(c, s, s.(reqs := s.reqs[rid := q]))
  {
    QuietlyKeepsInv(c, s, rid, q);
    OneEvolves(s.reqs, rid, q);
  }

  lemma HookRowAllows(s: State, rid: nat, h: HookAnswers)
    requires rid < |s.reqs| && h.verdict.Some?
    ensures var row := HookRow(s, rid, h); row.allow ==> RowFits(s.reqs[rid].filing, row, rid, ByHook(row.source))
  {
  }

  lemma HookDecides(c: Config, s: State, rid: nat, h: HookAnswers)
    requires Inv(c, s) && rid < |s.reqs| && h.verdict.Some? && s.reqs[rid].decision.None? && !s.reqs[rid].filing.oneShot
    ensures var row := HookRow(s, rid, h);
            var (events, stands) := RecordCheck(c, h.auditOk, row);
            Good(c, s, Settle(Log(s, events), rid, ByHook(row.source), stands, true))
  {
    var row := HookRow(s, rid, h);
    var (events, stands) := RecordCheck(c, h.auditOk, row);
    var s2 := Log(s, events);
    LogIsGood(c, s, events);
    assert Shape(s.reqs[rid]);
    if c.auditRequired && stands {
      HookRowAllows(s, rid, h);
      assert s2.trace[|s.trace|] == Audited(row);
      assert RowReady(s2.reqs, s2.trace, rid, ByHook(row.source));
    }
    SettleIsGood(c, s2, rid, s2.reqs[rid].(decision := Some(stands), waiters := []), ByHook(row.source), stands, true);
    GoodTransitive(c, s, s2, Settle(s2, rid, ByHook(row.source), stands, true));
  }

  lemma HookIsGood(c: Config, s: State, rid: nat, h: HookAnswers)
    requires Inv(c, s)
    ensures Good(c, s, ApplyHook(c, s, rid, h))
  {
    AllStay(s.reqs);
    if rid < |s.reqs| && s.reqs[rid].hooked {
      assert Shape(s.reqs[rid]);
      var s1 := Unhook(s, rid);
      QuietlyIsGood(c, s, rid, s.reqs[rid].(hooked := false));
      if s1.reqs[rid].retained && s1.reqs[rid].decision.None? {
        if h.verdict.None? {
          LogIsGood(c, s1, [Prompted(rid)]);
        } else {
          HookDecides(c, s1, rid, h);
        }
        GoodTransitive(c, s, s1, ApplyHook(c, s, rid, h));
      }
    }
  }

  // ---------------------------------------------------------------- the reaper

  lemma ReapOneIsGood(c: Config, s: State, rid: nat, audited: set<nat>)
    requires Inv(c, s) && rid < |s.reqs|
    ensures Good(c, s, ReapOne(c, s, rid, audited))
  {
    AllStay(s.reqs);
    var q := s.reqs[rid];
    assert Shape(q);
    if q.retained && q.decision.None? && Stale(q, s.now) {
      DenyIsGood(c, s, rid, Some(s.now), DenyRow(q.filing, rid, StaleReapSource), rid in audited, ByStaleReap, false);
    } else if q.retained && q.decision.Some? && c.retention > 0.0 {
      if q.decidedAt.None? {
        QuietlyIsGood(c, s, rid, q.(decidedAt := Some(s.now)));
      } else if s.now - q.decidedAt.value >= c.retention {
        QuietlyIsGood(c, s, rid, q.(retained := false));
      }
    }
  }

  lemma {:induction false} ReapFromIsGood(c: Config, s: State, from: nat, audited: set<nat>)
    requires Inv(c, s) && from <= |s.reqs|
    ensures Good(c, s, ReapFrom(c, s, from, audited))
    decreases |s.reqs| - from
  {
    AllStay(s.reqs);
    if from < |s.reqs| {
      var s1 := ReapOne(c, s, from, audited);
      ReapOneIsGood(c, s, from, audited);
      ReapFromIsGood(c, s1, from + 1, audited);
      GoodTransitive(c, s, s1, ReapFrom(c, s, from, audited));
    }
  }

  lemma ReapIsGood(c: Config, s: State, audited: set<nat>)
    requires Inv(c, s)
    ensures Good(c, s, Reap(c, s, audited))
  {
    var s1 := s.(lastPass := s.now);
    CookiesFrame(s, s1);
    MarksKeepInv(c, s, s1);
    ReapFromIsGood(c, s1, 0, audited);
  }

  // ---------------------------------------------------------------- the polkit relay

  /** Marks and bindings may go; a new or refreshed binding must agree with the filings. */
  lemma MarksAreGood(c: Config, s: State, s': State)
    requires Inv(c, s) && s' == s.(cancelled := s'.cancelled, announced := s'.announced)
    requires "" !in s'.announced && |s'.announced| <= POLKIT_MARKS_MAX && |s'.cancelled| <= POLKIT_MARKS_MAX
    requires forall k :: k in s'.announced ==>
               || (k in s.announced && s'.announced[k].sender == s.announced[k].sender)
               || (forall i :: 0 <= i < |s.reqs| && s.reqs[i].retained && s.reqs[i].filing.cookie == k ==>
                     s.reqs[i].filing.filedBy == s'.announced[k].sender)
    ensures Good(c, s, s')
  {
    forall i: nat ensures BoundToFiler(s', i) {
      assert BoundToFiler(s, i);
    }
    MarksKeepInv(c, s, s');
    AllStay(s.reqs);
  }

  lemma PruneIsGood(c: Config, s: State)
    requires Inv(c, s)
    ensures Good(c, s, Prune(s, s.now))
  {
    var s' := Prune(s, s.now);
    assert s'.cancelled.Keys <= s.cancelled.Keys && s'.announced.Keys <= s.announced.Keys;
    SmallerMap(s'.cancelled, s.cancelled);
    SmallerMap(s'.announced, s.announced);
    MarksAreGood(c, s, s');
  }

  lemma PutBounded<V>(m: map<string, V>, k: string, v: V, max: nat)
    requires |m| <= max && (k in m || |m| < max)
    ensures |m[k := v]| <= max
  {
    var m' := m[k := v];
    assert |m'| == |m'.Keys| && |m| == |m.Keys|;
    if k in m {
      assert m'.Keys == m.Keys;
    } else {
      assert m'.Keys == m.Keys + {k};
    }
  }

  lemma AnnounceIsGood(c: Config, s: State, cookie: string, sender: string)
    requires Inv(c, s)
    ensures Good(c, s, Announce(s, cookie, sender))
  {
    AllStay(s.reqs);
    if cookie != "" {
      var s1, s2 := Prune(s, s.now), Announce(s, cookie, sender);
      PruneIsGood(c, s);
      if s2 != s1 {
        PutBounded(s1.announced, cookie, Binding(sender, s1.now), POLKIT_MARKS_MAX);
        var first := FirstWith(s1, cookie, 0);
        forall i | 0 <= i < |s1.reqs| && s1.reqs[i].retained && s1.reqs[i].filing.cookie == cookie
          ensures s1.reqs[i].filing.filedBy == sender
        {
          assert first.Some?;
          assert SameOwner(s1.reqs, i, first.value);
        }
        MarksAreGood(c, s1, s2);
        GoodTransitive(c, s, s1, s2);
      }
    }
  }

  lemma DeliverLocally(c: Config, s: State, first: Option<nat>, cookie: string, sender: string, row: AuditRow,
                       auditOk: bool)
    requires Inv(c, s) && (auditOk || !c.auditRequired)
    requires row.allow && row.source.LocalAuthSource? && row.rid == first
    requires first.Some? ==> first.value < |s.reqs| && row.action == s.reqs[first.value].filing.action
    ensures var s1 := Log(s, AuditIf(auditOk, row) + [Delivered(first, cookie, sender, true)]);
            && Good(c, s, s1)
            && (c.auditRequired && first.Some? ==> RowReady(s1.reqs, s1.trace, first.value, ByLocalAuth(sender)))
  {
    var e := Delivered(first, cookie, sender, true);
    var s0 := Log(s, AuditIf(auditOk, row));
    var s1 := Log(s, AuditIf(auditOk, row) + [e]);
    LogIsGood(c, s, AuditIf(auditOk, row));
    if c.auditRequired {
      assert s0.trace[|s.trace|] == Audited(row);
      assert IsLocalRow(s0.trace, |s.trace|, first);
    }
    LogIsGood(c, s0, [e]);
    assert s1 == Log(s0, [e]) by {
      assert (s.trace + AuditIf(auditOk, row)) + [e] == s.trace + (AuditIf(auditOk, row) + [e]);
    }
    GoodTransitive(c, s, s0, s1);
    if c.auditRequired && first.Some? {
      assert s1.trace[|s.trace|] == Audited(row);
    }
  }

  lemma LocalAuthIsGood(c: Config, s: State, cookie: string, hasIdentity: bool, sender: string, caller: Caller,
                        auditOk: bool, callOk: bool)
    requires Inv(c, s) && sender != ""
    ensures Good(c, s, LocalAuth(c, s, cookie, hasIdentity, sender, caller, auditOk, callOk))
  {
    AllStay(s.reqs);
    var first := FirstWith(s, cookie, 0);
    var s' := LocalAuth(c, s, cookie, hasIdentity, sender, caller, auditOk, callOk);
    if s' != s {
      var action := if first.Some? then s.reqs[first.value].filing.action else "polkit.local_auth";
      var row := AuditRow(caller.uid, caller.exe, action, true, Some(Once), LocalAuthSource, first);
      var s1 := Log(s, AuditIf(auditOk, row) + [Delivered(first, cookie, sender, true)]);
      DeliverLocally(c, s, first, cookie, sender, row, auditOk);
      if callOk && first.Some? && s.reqs[first.value].decision.None? {
        OwnerIsFiler(s, cookie, sender);
        assert Shape(s.reqs[first.value]);
        SettleIsGood(c, s1, first.value, s1.reqs[first.value].(decision := Some(true), waiters := []),
                     ByLocalAuth(sender), true, false);
        GoodTransitive(c, s, s1, s');
      }
    }
  }

  /** Whoever owns a cookie that is filed is the one who filed it. */
  lemma OwnerIsFiler(s: State, cookie: string, sender: string)
    requires Cookies(s) && Shapes(s) && Owns(s, cookie, sender)
    ensures var first := FirstWith(s, cookie, 0);
            first.Some? ==> s.reqs[first.value].filing.filedBy == sender
  {
    var first := FirstWith(s, cookie, 0);
    if first.Some? {
      assert BoundToFiler(s, first.value);
    }
  }

  lemma CancelOneIsGood(c: Config, s: State, rid: nat, cookie: string, sender: string, audited: set<nat>)
    requires Inv(c, s) && rid < |s.reqs|
    ensures Good(c, s, CancelOne(s, rid, cookie, sender, audited))
  {
    AllStay(s.reqs);
    if CancelHits(s.reqs[rid], cookie, sender) {
      assert Shape(s.reqs[rid]);
      DenyIsGood(c, s, rid, None, DenyRow(s.reqs[rid].filing, rid, PolkitCancelSource), rid in audited,
                 ByCancel(sender), false);
    }
  }

  lemma {:induction false} CancelFromIsGood(c: Config, s: State, from: nat, cookie: string, sender: string,
                                            audited: set<nat>)
    requires Inv(c, s) && from <= |s.reqs|
    ensures Good(c, s, CancelFrom(s, from, cookie, sender, audited))
    decreases |s.reqs| - from
  {
    AllStay(s.reqs);
    if from < |s.reqs| {
      var s1 := CancelOne(s, from, cookie, sender, audited);
      CancelOneIsGood(c, s, from, cookie, sender, audited);
      CancelFromIsGood(c, s1, from + 1, cookie, sender, audited);
      GoodTransitive(c, s, s1, CancelFrom(s, from, cookie, sender, audited));
    }
  }

  lemma NoteAndUnbindAreGood(c: Config, s: State, cookie: string, sender: string)
    requires Inv(c, s) && (cookie == "" || RoomForMark(s, cookie))
    ensures Good(c, s, Unbind(NoteCancelled(s, cookie, sender), cookie, sender))
  {
    var s' := Unbind(NoteCancelled(s, cookie, sender), cookie, sender);
    if cookie != "" {
      PutBounded(s.cancelled, cookie, s'.cancelled[cookie], POLKIT_MARKS_MAX);
    }
    assert s'.announced.Keys <= s.announced.Keys;
    SmallerMap(s'.announced, s.announced);
    MarksAreGood(c, s, s');
  }

  lemma CancelIsGood(c: Config, s: State, cookie: string, sender: string, caller: Caller, audited: set<nat>,
                     auditOk: bool)
    requires Inv(c, s)
    ensures Good(c, s, Cancel(s, cookie, sender, caller, audited, auditOk))
  {
    AllStay(s.reqs);
    var s1 := if cookie == "" then s else Prune(s, s.now);
    PruneIsGood(c, s);
    if cookie == "" || RoomForMark(s1, cookie) {
      var s3 := Unbind(NoteCancelled(s1, cookie, sender), cookie, sender);
      NoteAndUnbindAreGood(c, s1, cookie, sender);
      var s4 := CancelFrom(s3, 0, cookie, sender, audited);
      CancelFromIsGood(c, s3, 0, cookie, sender, audited);
      GoodTransitive(c, s, s1, s3);
      GoodTransitive(c, s, s3, s4);
      var row := AuditRow(caller.uid, caller.exe, "polkit.local_auth", false, None, PolkitCancelSource, None);
      LogIsGood(c, s4, AuditIf(auditOk, row));
      GoodTransitive(c, s, s4, Log(s4, AuditIf(auditOk, row)));
    }
  }

  // ---------------------------------------------------------------- the cache

  lemma CacheStepsAreGood(c: Config, s: State, id: nat, uid: int)
    requires Inv(c, s)
    ensures Good(c, s, s.(cache := WithoutId(s.cache, id), trace := s.trace + [RevokedId(id)]))
    ensures Good(c, s, s.(cache := WithoutUid(s.cache, uid), trace := s.trace + [RevokedUid(uid)]))
    ensures Good(c, s, s.(cache := LiveRows(s.cache, s.now.Floor)))
  {
    AllStay(s.reqs);
    DeletesKeepOrder(s.cache, id, uid, s.now.Floor);
    DeletesKeepTheRest(s.cache, id, uid, s.now.Floor);
    DropRowsKeepsInv(c, s, WithoutId(s.cache, id), [RevokedId(id)]);
    DropRowsKeepsInv(c, s, WithoutUid(s.cache, uid), [RevokedUid(uid)]);
    DropRowsKeepsInv(c, s, LiveRows(s.cache, s.now.Floor), []);
    assert s.trace + [] == s.trace;
  }

  // ---------------------------------------------------------------- runs

  lemma PolkitStepIsGood(c: Config, s: State, step: Step)
    requires Inv(c, s) && (step.DoAnnounce? || step.DoLocalAuth? || step.DoCancel?) && step.sender != ""
    ensures Good(c, s, Perform(c, s, step))
  {
    match step
    case DoAnnounce(cookie, sender) => AnnounceIsGood(c, s, cookie, sender);
    case DoLocalAuth(cookie, hasIdentity, sender, caller, auditOk, callOk) =>
      LocalAuthIsGood(c, s, cookie, hasIdentity, sender, caller, auditOk, callOk);
    case DoCancel(cookie, sender, caller, audited, auditOk) =>
      CancelIsGood(c, s, cookie, sender, caller, audited, auditOk);
  }

  lemma CacheStepIsGood(c: Config, s: State, step: Step)
    requires Inv(c, s) && (step.DoCheck? || step.DoRevokeId? || step.DoRevokeUid? || step.DoCacheGc?)
    ensures Good(c, s, Perform(c, s, step))
  {
    match step
    case DoCheck(a, e) => CheckIsGood(c, s, a, e);
    case DoRevokeId(id) => CacheStepsAreGood(c, s, id, 0);
    case DoRevokeUid(uid) => CacheStepsAreGood(c, s, 0, uid);
    case DoCacheGc => CacheStepsAreGood(c, s, 0, 0);
  }

  lemma PerformIsGood(c: Config, s: State, step: Step)
    requires Inv(c, s)
    requires step.DoAnnounce? || step.DoLocalAuth? || step.DoCancel? ==> step.sender != ""
    requires step.DoEnqueue? && step.ask.kind.Polkit? ==> step.ask.kind.sender != ""
    ensures Good(c, s, Perform(c, s, step))
  {
    match step
    case DoEnqueue(a, e) => EnqueueIsGood(c, s, a, e);
    case DoRelay(a, e, target, forwardOk) => SendMessageIsGood(c, s, a, e, target, forwardOk);
    case DoWait(rid, uid) => WaitIsGood(c, s, rid, uid);
    case DoBegin(rid, allow, scope, admin, startNow, auditOk) =>
      BeginIsGood(c, s, rid, allow, scope, admin, startNow, auditOk);
    case DoFinish(rid, auditOk, storeOk) => FinishIsGood(c, s, rid, auditOk, storeOk);
    case DoHook(rid, h) => HookIsGood(c, s, rid, h);
    case DoReap(audited) => ReapIsGood(c, s, audited);
    case DoAnnounce(_, _) => PolkitStepIsGood(c, s, step);
    case DoLocalAuth(_, _, _, _, _, _) => PolkitStepIsGood(c, s, step);
    case DoCancel(_, _, _, _, _) => PolkitStepIsGood(c, s, step);
    case _ => CacheStepIsGood(c, s, step);
  }

  lemma NextIsGood(c: Config, s: State, t: Timed)
    requires Inv(c, s) && Possible(s, t)
    ensures Good(c, s, Next(c, s, t))
  {
    ClockKeepsInv(c, s, t.at);
    PerformIsGood(c, s.(now := t.at), t.step);
  }

  /** Every run keeps the invariant, evolves its requests and extends its trace. */
  lemma {:induction false} RunIsGood(c: Config, s: State, run: seq<Timed>)
    requires Inv(c, s) && IsRun(c, s, run)
    ensures Good(c, s, After(c, s, run))
    decreases |run|
  {
    AllStay(s.reqs);
    if run != [] {
      var s1 := Next(c, s, run[0]);
      NextIsGood(c, s, run[0]);
      RunIsGood(c, s1, run[1..]);
      GoodTransitive(c, s, s1, After(c, s1, run[1..]));
    }
  }
}
