/** What must have been asked for each event to happen: every event of a step is explained by that step's inputs and
    by the state it was taken in. */
module BrokerCauses {
  import opened Options
  import opened Cache
  import opened BrokerModel
  import opened BrokerInvariant
  import opened BrokerMoves

  // ---------------------------------------------------------------- what the sources say

  /** The verdict stands: its row was written, or rows are not required. */
  predicate Kept(c: Config, auditOk: bool) { auditOk || !c.auditRequired }

  predicate Undecided(s: State, rid: int) { 0 <= rid < |s.reqs| && s.reqs[rid].decision.None? }

  /** The process that asked is not the one now under its pid. */
  predicate Gone(f: Filing, startNow: int) {
    !f.delegated && f.pid > 0 && f.startTime != 0 && startNow != 0 && startNow != f.startTime
  }

  function AskedOf(a: Ask, e: World): Query {
    Query(a.caller.uid, a.action, a.caller.exe, a.rawArgv, a.kind.Delegated? || e.sandboxed)
  }

  /** What a filing is decided by itself, source by source: its own cancel, a deny among the rules for a polkit filing,
      the first rule or else the best approval for a direct or delegated one, nothing for a relay. */
  ghost predicate FilingSays(s: State, a: Ask, e: World, kept: bool, source: Source, value: bool) {
    match source
    case PolkitCancelSource => a.kind.Polkit? && MarkedBy(s, a.kind.cookie, a.kind.sender) && !value
    case RuleSource =>
      if a.kind.Polkit? then !MarkedBy(s, a.kind.cookie, a.kind.sender) && false in e.rules && !value
      else !a.kind.Relay? && e.rules != [] && value == (e.rules[0] && kept)
    case CacheSource =>
      && (a.kind.Direct? || a.kind.Delegated?) && e.rules == []
      && var found := Lookup(s.cache, AskedOf(a, e), s.now.Floor);
         found.Some? && value == (found.value.decision && kept)
    case _ => false
  }

  /** What the rules and then, for actions that may use it, the cache say. */
  ghost predicate CheckSays(s: State, q: Query, rules: seq<bool>, kept: bool, source: Source, value: bool) {
    match source
    case RuleSource => rules != [] && value == (rules[0] && kept)
    case CacheSource =>
      && rules == [] && !RulesOnly(q.action)
      && var found := Lookup(s.cache, q, s.now.Floor);
         found.Some? && value == (found.value.decision && kept)
    case _ => false
  }

  function RecheckOf(f: Filing, h: HookAnswers): Query { Query(f.uid, f.action, f.exe, f.argv, h.sandboxed) }

  /** What a finished hook query leads to: a changed process is denied; rules and cache come before the hook. */
  ghost predicate HookSays(s: State, f: Filing, h: HookAnswers, kept: bool, source: Source, value: bool) {
    var same := f.startTime > 0 && h.sameProcess;
    match source
    case HookSource =>
      && value == (same && h.verdict == Some(true) && kept)
      && (same ==> h.rules == []
                   && (RulesOnly(f.action) || Lookup(s.cache, RecheckOf(f, h), s.now.Floor).None?))
    case _ => same && CheckSays(s, RecheckOf(f, h), h.rules, kept, source, value)
  }

  /** The oldest request in the pending map with this cookie, or that there is none. */
  ghost predicate Oldest(s: State, cookie: string, about: Option<nat>) {
    match about
    case None => forall i :: 0 <= i < |s.reqs| && s.reqs[i].retained ==> s.reqs[i].filing.cookie != cookie
    case Some(n) =>
      && n < |s.reqs| && s.reqs[n].retained && s.reqs[n].filing.cookie == cookie
      && forall i :: 0 <= i < n && s.reqs[i].retained ==> s.reqs[i].filing.cookie != cookie
  }

  lemma {:induction false} FirstSkipsOthers(s: State, cookie: string, from: nat)
    requires from <= |s.reqs|
    ensures var first := FirstWith(s, cookie, from);
            forall i :: from <= i < (if first.Some? then first.value else |s.reqs|) && s.reqs[i].retained ==>
              s.reqs[i].filing.cookie != cookie
    decreases |s.reqs| - from
  {
    if from < |s.reqs| {
      FirstSkipsOthers(s, cookie, from + 1);
    }
  }

  lemma FirstIsOldest(s: State, cookie: string, about: Option<nat>)
    ensures Oldest(s, cookie, about) <==> about == FirstWith(s, cookie, 0)
  {
    FirstSkipsOthers(s, cookie, 0);
  }

  lemma SameFirst(s: State, s': State, cookie: string, from: nat)
    requires s'.reqs == s.reqs && from <= |s.reqs|
    ensures FirstWith(s', cookie, from) == FirstWith(s, cookie, from)
    decreases |s.reqs| - from
  {
    if from < |s.reqs| {
      SameFirst(s, s', cookie, from + 1);
    }
  }

  // ---------------------------------------------------------------- causes

  ghost predicate Decides(c: Config, s: State, step: Step, rid: nat, decider: Decider, value: bool) {
    match decider
    case AtFiling(source) =>
      && step.DoEnqueue? && rid == |s.reqs|
      && FilingSays(s, step.ask, step.world, Kept(c, step.world.auditOk), source, value)
    case ByHook(source) =>
      && step.DoHook? && step.hooked == rid && Undecided(s, rid) && step.hook.verdict.Some?
      && HookSays(s, s.reqs[rid].filing, step.hook, Kept(c, step.hook.auditOk), source, value)
    case ByAdmin(scope) =>
      && step.DoBegin? && step.rid == rid && step.allow == value && step.scope == scope && Undecided(s, rid)
      && !Gone(s.reqs[rid].filing, step.startNow)
    case ByCallerGone =>
      && step.DoBegin? && step.rid == rid && !value && Undecided(s, rid) && Gone(s.reqs[rid].filing, step.startNow)
    case ByLocalAuth(sender) =>
      && step.DoLocalAuth? && step.sender == sender && value && Undecided(s, rid) && Oldest(s, step.cookie, Some(rid))
      && step.hasIdentity && step.callOk && Kept(c, step.auditOk)
    case ByCancel(sender) =>
      && step.DoCancel? && step.sender == sender && !value && rid < |s.reqs|
      && s.reqs[rid].filing.cookie == step.cookie != "" && s.reqs[rid].filing.filedBy == sender
    case ByStaleReap =>
      && step.DoReap? && !value && rid < |s.reqs|
      && s.reqs[rid].filing.cookie != "" && s.now - s.reqs[rid].filing.createdAt >= POLKIT_UNDECIDED_TTL
  }

  predicate Concerns(f: Filing, row: AuditRow) { row.uid == f.uid && row.exe == f.exe && row.action == f.action }

  predicate ByCaller(caller: Caller, action: string, row: AuditRow) {
    row.uid == caller.uid && row.exe == caller.exe && row.action == action
  }

  predicate IsLimited(row: AuditRow) { row.source.RateLimitSource? && !row.allow && row.rid.None? && row.scope.None? }

  /** A row written for an answer from rules or cache carries the scope of the approval that answered. */
  predicate ScopeTold(row: AuditRow, found: Option<Row>) {
    row.scope == if row.source.CacheSource? && found.Some? then Some(found.value.scope) else None
  }

  /** The row was written for this step and says what the step did. */
  ghost predicate RowTells(s: State, step: Step, row: AuditRow) {
    match step
    case DoEnqueue(a, e) =>
      && e.auditOk && ByCaller(a.caller, a.action, row)
      && if e.rateOk
         then row.rid == Some(|s.reqs|) && FilingSays(s, a, e, true, row.source, row.allow)
              && ScopeTold(row, Lookup(s.cache, AskedOf(a, e), s.now.Floor))
         else IsLimited(row)
    case DoRelay(a, e, target, forwardOk) =>
      && e.auditOk && ByCaller(a.caller, a.action, row)
      && if a.caller.uid == target
         then forwardOk && row.allow && row.source.SameSiloSource? && row.scope == Some(Once) && row.rid.None?
         else !e.rateOk && IsLimited(row)
    case DoCheck(a, e) =>
      var q := Query(a.caller.uid, a.action, a.caller.exe, a.rawArgv, e.sandboxed);
      && e.auditOk && e.rateOk && ByCaller(a.caller, a.action, row) && row.rid.None?
      && CheckSays(s, q, e.rules, true, row.source, row.allow) && ScopeTold(row, Lookup(s.cache, q, s.now.Floor))
    case DoBegin(rid, _, _, _, startNow, auditOk) =>
      && auditOk && Undecided(s, rid) && row.rid == Some(rid) && Concerns(s.reqs[rid].filing, row)
      && Gone(s.reqs[rid].filing, startNow) && row.source.CallerGoneSource? && !row.allow && row.scope.None?
    case DoFinish(rid, auditOk, _) =>
      && auditOk && rid < |s.reqs| && row.rid == Some(rid) && Concerns(s.reqs[rid].filing, row)
      && row.source.PromptSource? && s.reqs[rid].ticket.Some?
      && row.allow == s.reqs[rid].ticket.value.allow && row.scope == Some(s.reqs[rid].ticket.value.scope)
    case DoHook(rid, h) =>
      && h.auditOk && Undecided(s, rid) && Concerns(s.reqs[rid].filing, row)
      && row.rid == (if row.source.HookSource? then Some(rid) else None)
      && HookSays(s, s.reqs[rid].filing, h, true, row.source, row.allow)
      && ScopeTold(row, Lookup(s.cache, RecheckOf(s.reqs[rid].filing, h), s.now.Floor))
    case DoReap(audited) =>
      && row.rid.Some? && row.rid.value in audited && row.rid.value < |s.reqs|
      && Concerns(s.reqs[row.rid.value].filing, row) && row.source.StaleReapSource? && !row.allow && row.scope.None?
    case DoLocalAuth(cookie, _, _, caller, auditOk, _) =>
      && auditOk && row.uid == caller.uid && row.exe == caller.exe && row.source.LocalAuthSource? && row.allow
      && row.scope == Some(Once) && Oldest(s, cookie, row.rid)
      && row.action == if row.rid.Some? then s.reqs[row.rid.value].filing.action else "polkit.local_auth"
    case DoCancel(cookie, sender, caller, audited, auditOk) =>
      && row.source.PolkitCancelSource? && !row.allow && row.scope.None?
      && if row.rid.None? then auditOk && ByCaller(caller, "polkit.local_auth", row)
         else && row.rid.value in audited && row.rid.value < |s.reqs| && Concerns(s.reqs[row.rid.value].filing, row)
              && s.reqs[row.rid.value].filing.cookie == cookie && s.reqs[row.rid.value].filing.filedBy == sender
    case _ => false
  }

  /** A response is relayed for a sender that has not cancelled: for its own local verification unless its filing is
      denied, or for an approval of its filing. */
  ghost predicate Delivers(c: Config, s: State, step: Step, about: Option<nat>, cookie: string, sender: string,
                           local: bool) {
    && !MarkedBy(s, cookie, sender)
    && if local then
         && step.DoLocalAuth? && step.cookie == cookie && step.sender == sender
         && step.hasIdentity && Kept(c, step.auditOk) && Oldest(s, cookie, about) && Owns(s, cookie, sender)
         && (about.Some? ==> s.reqs[about.value].decision != Some(false))
       else
         && about.Some? && about.value < |s.reqs| && cookie != ""
         && var q := s.reqs[about.value];
            && q.filing.cookie == cookie && q.filing.filedBy == sender && q.filing.hasIdentity
            && (|| (step.DoFinish? && step.ticket == about.value && Kept(c, step.auditOk)
                    && q.ticket.Some? && q.ticket.value.allow)
                || (step.DoHook? && step.hooked == about.value && q.hooked && q.decision.None?))
  }

  ghost predicate Stores(s: State, step: Step, rid: nat, g: Grant, row: Row) {
    && step.DoFinish? && step.ticket == rid && step.storeOk && rid < |s.reqs| && s.reqs[rid].ticket.Some?
    && s.reqs[rid].ticket.value.allow && !s.reqs[rid].filing.oneShot
    && var f, t := s.reqs[rid].filing, s.reqs[rid].ticket.value;
       && g == Grant(f.uid, f.action, f.exe, t.scope, true, t.admin, f.argv)
       && StoredKind(g.scope, g.argv).Some? && row == RowFor(g, NewId(s.cache), s.now.Floor)
  }

  ghost predicate Prompts(s: State, step: Step, rid: nat) {
    || ((step.DoEnqueue? || (step.DoRelay? && step.ask.caller.uid != step.target)) && rid == |s.reqs|)
    || (step.DoHook? && step.hooked == rid && Undecided(s, rid) && s.reqs[rid].hooked && step.hook.verdict.None?)
  }

  predicate SendsWithin(step: Step) { step.DoRelay? && step.ask.caller.uid == step.target && step.forwardOk }

  /** Taking `step` in state `s` is why the event happened. */
  ghost predicate Causes(c: Config, s: State, step: Step, e: Event) {
    match e
    case Audited(row) => RowTells(s, step, row)
    case Decided(rid, decider, value, at) => at == s.now && Decides(c, s, step, rid, decider, value)
    case Replied(_, about, value) => about.None? && value ==> SendsWithin(step)
    case Prompted(rid) => Prompts(s, step, rid)
    case SentWithin(uid, action) => SendsWithin(step) && uid == step.ask.caller.uid && action == step.ask.action
    case Stored(rid, g, row, at) => at == s.now && Stores(s, step, rid, g, row)
    case RevokedId(id) => step == DoRevokeId(id)
    case RevokedUid(uid) => step == DoRevokeUid(uid)
    case Delivered(about, cookie, sender, local) => Delivers(c, s, step, about, cookie, sender, local)
    case _ => true
  }

  ghost predicate AllCaused(c: Config, s: State, step: Step, t: seq<Event>, t': seq<Event>) {
    t <= t' && forall k :: |t| <= k < |t'| ==> Causes(c, s, step, t'[k])
  }

  /** What a step other than the reaper's leaves alone in the requests there were, and how it makes new ones. */
  ghost predicate SameStamps(step: Step, a: seq<Request>, b: seq<Request>, now: real) {
    && |a| <= |b| && (|a| < |b| ==> step.DoEnqueue? || step.DoRelay?)
    && (forall i :: 0 <= i < |a| ==>
          && b[i].filing == a[i].filing && b[i].decidedAt == a[i].decidedAt && b[i].retained == a[i].retained
          && (b[i].hooked == a[i].hooked || (step.DoHook? && step.hooked == i)))
    && (forall i :: |a| <= i < |b| ==> b[i].decidedAt.None? && b[i].filing.createdAt == now)
  }

  /** From `s` to `s'`, both within a step taken in `s0`. */
  ghost predicate Explained(c: Config, s0: State, step: Step, s: State, s': State) {
    && SameStamps(step, s.reqs, s'.reqs, s.now) && AllCaused(c, s0, step, s.trace, s'.trace)
    && s'.now == s.now && s'.lastPass == s.lastPass
  }

  lemma CausedTransitive(c: Config, s0: State, step: Step, t: seq<Event>, t': seq<Event>, t'': seq<Event>)
    requires AllCaused(c, s0, step, t, t') && AllCaused(c, s0, step, t', t'')
    ensures AllCaused(c, s0, step, t, t'')
  {
    assert t''[..|t'|] == t';
    forall k | |t| <= k < |t''| ensures Causes(c, s0, step, t''[k]) {
      if k < |t'| {
        assert t''[k] == t'[k];
      }
    }
  }

  lemma ExplainedTransitive(c: Config, s0: State, step: Step, a: State, b: State, d: State)
    requires Explained(c, s0, step, a, b) && Explained(c, s0, step, b, d)
    ensures Explained(c, s0, step, a, d)
  {
    CausedTransitive(c, s0, step, a.trace, b.trace, d.trace);
  }

  lemma LogExplained(c: Config, s0: State, step: Step, s: State, u: seq<Event>)
    requires forall k :: 0 <= k < |u| ==> Causes(c, s0, step, u[k])
    ensures Explained(c, s0, step, s, Log(s, u))
  {
    forall k | |s.trace| <= k < |s.trace + u| ensures Causes(c, s0, step, (s.trace + u)[k]) {
      assert (s.trace + u)[k] == u[k - |s.trace|];
    }
  }

  /** Answers and signals about a request, whose truth the invariant sees to. */
  predicate Plain(e: Event) { e.Signalled? || e.Forwarded? || e.Refused? || (e.Replied? && e.about.Some?) }

  lemma PlainExplained(c: Config, s0: State, step: Step, s: State, u: seq<Event>)
    requires forall k :: 0 <= k < |u| ==> Plain(u[k])
    ensures Explained(c, s0, step, s, Log(s, u))
  {
    forall k | 0 <= k < |u| ensures Causes(c, s0, step, u[k]) {
      assert Plain(u[k]);
    }
    LogExplained(c, s0, step, s, u);
  }

  lemma RowExplained(c: Config, s0: State, step: Step, s: State, ok: bool, row: AuditRow)
    requires ok ==> RowTells(s0, step, row)
    ensures Explained(c, s0, step, s, Log(s, AuditIf(ok, row)))
  {
    assert ok ==> Causes(c, s0, step, Audited(row));
    LogExplained(c, s0, step, s, AuditIf(ok, row));
  }

  lemma ConcludeExplained(c: Config, s0: State, step: Step, s: State, rid: nat, q: Request, value: bool,
                          signalFirst: bool)
    requires rid < |s.reqs| && q.filing == s.reqs[rid].filing && q.hooked == s.reqs[rid].hooked
    requires q.decidedAt == s.reqs[rid].decidedAt && q.retained == s.reqs[rid].retained
    ensures Explained(c, s0, step, s, Conclude(s, rid, q, value, signalFirst))
  {
    var u := Release(Owed(s.reqs[rid]), rid, value, signalFirst);
    ReleaseShape(Owed(s.reqs[rid]), rid, value, signalFirst);
    PlainExplained(c, s0, step, s, u);
    assert Conclude(s, rid, q, value, signalFirst).trace == s.trace + u;
  }

  lemma SettleExplained(c: Config, s0: State, step: Step, s: State, u: seq<Event>, rid: nat, decider: Decider,
                        value: bool, signalFirst: bool)
    requires rid < |s.reqs| && forall k :: 0 <= k < |u| ==> Causes(c, s0, step, u[k])
    requires Causes(c, s0, step, Decided(rid, decider, value, s.now))
    ensures Explained(c, s0, step, s, Settle(Log(s, u), rid, decider, value, signalFirst))
  {
    var s1 := Log(s, u);
    var s2 := Log(s1, [Decided(rid, decider, value, s.now)]);
    LogExplained(c, s0, step, s, u);
    LogExplained(c, s0, step, s1, [Decided(rid, decider, value, s.now)]);
    ExplainedTransitive(c, s0, step, s, s1, s2);
    ConcludeExplained(c, s0, step, s2, rid, s.reqs[rid].(decision := Some(value), waiters := []), value, signalFirst);
    ExplainedTransitive(c, s0, step, s, s2, Settle(s1, rid, decider, value, signalFirst));
  }

  // ---------------------------------------------------------------- filing and waiting

  /** The step files this request. */
  predicate Files(step: Step, a: Ask, e: World) {
    || step == DoEnqueue(a, e)
    || (step.DoRelay? && a == step.ask.(kind := Relay) && e == step.world && a.caller.uid != step.target)
  }

  lemma VerdictSays(s: State, a: Ask, e: World, kept: bool)
    ensures var v := FilingVerdict(s, a, e, s.now);
            && (v.Closed? ==> FilingSays(s, a, e, kept, v.source, v.allow && kept) && !a.kind.Relay?)
            && (v.Closed? ==> v.scope == (if v.source.CacheSource? && Lookup(s.cache, AskedOf(a, e), s.now.Floor).Some?
                                          then Some(Lookup(s.cache, AskedOf(a, e), s.now.Floor).value.scope) else None))
  {
  }

  lemma AdmitExplained(c: Config, s0: State, step: Step, s: State, a: Ask, e: World)
    requires Files(step, a, e) && e.rateOk && s.reqs == s0.reqs && s.now == s0.now
    ensures Explained(c, s0, step, s, Admit(c, s, a, e, FilingVerdict(s0, a, e, s0.now)))
  {
    var verdict, rid := FilingVerdict(s0, a, e, s0.now), |s.reqs|;
    var s' := Admit(c, s, a, e, verdict);
    VerdictSays(s0, a, e, true);
    VerdictSays(s0, a, e, Kept(c, e.auditOk));
    assert forall i :: 0 <= i < |s.reqs| ==> s'.reqs[i] == s.reqs[i];
    if verdict.Open? {
      LogExplained(c, s0, step, s, if s'.reqs[rid].hooked then [] else [Prompted(rid)]);
    } else {
      var row := AuditRow(a.caller.uid, a.caller.exe, a.action, verdict.allow, verdict.scope, verdict.source,
                          Some(rid));
      var (events, stands) := RecordCheck(c, e.auditOk, row);
      assert e.auditOk ==> RowTells(s0, step, row);
      var d := Decided(rid, AtFiling(verdict.source), stands, s.now);
      assert Causes(c, s0, step, d);
      LogExplained(c, s0, step, s, events);
      LogExplained(c, s0, step, Log(s, events), [d]);
      CausedTransitive(c, s0, step, s.trace, s.trace + events, s.trace + events + [d]);
    }
  }

  lemma EnqueueExplained(c: Config, s: State, step: Step, a: Ask, e: World)
    requires Files(step, a, e)
    ensures Explained(c, s, step, s, Enqueue(c, s, a, e).0)
  {
    if !e.rateOk {
      LogExplained(c, s, step, s, AuditIf(e.auditOk, AuditRow(a.caller.uid, a.caller.exe, a.action, false, None,
                                                              RateLimitSource, None)));
    } else {
      var s1 := RetireMark(s, a);
      AdmitExplained(c, s, step, s1, a, e);
      assert Explained(c, s, step, s, s1);
      ExplainedTransitive(c, s, step, s, s1, Admit(c, s1, a, e, FilingVerdict(s, a, e, s.now)));
    }
  }

  lemma AttendExplained(c: Config, s0: State, step: Step, s: State, rid: nat, w: Waiter)
    requires rid < |s.reqs|
    ensures Explained(c, s0, step, s, Attend(s, rid, w))
  {
  }

  lemma RelayExplained(c: Config, s: State, step: Step)
    requires step.DoRelay? && step.ask.caller.uid != step.target
    ensures Explained(c, s, step, s, RelayMessage(c, s, step.ask, step.world))
  {
    var a, e := step.ask.(kind := Relay), step.world;
    var (s1, filed) := Enqueue(c, s, a, e);
    EnqueueExplained(c, s, step, a, e);
    var (s2, w) := Issue(s1, true);
    if filed.Queued? {
      AttendExplained(c, s, step, s2, filed.rid, w);
    } else {
      LogExplained(c, s, step, s2, [Refused(w)]);
    }
    ExplainedTransitive(c, s, step, s, s1, RelayMessage(c, s, step.ask, e));
  }

  lemma SendExplained(c: Config, s: State, step: Step)
    requires step.DoRelay?
    ensures Explained(c, s, step, s, Perform(c, s, step))
  {
    var a, e := step.ask, step.world;
    if a.caller.uid != step.target {
      RelayExplained(c, s, step);
    } else {
      var (s1, w) := Issue(s, true);
      var row := AuditRow(a.caller.uid, a.caller.exe, a.action, true, Some(Once), SameSiloSource, None);
      LogExplained(c, s, step, s1,
                   if !step.forwardOk then [Refused(w)]
                   else [SentWithin(a.caller.uid, a.action)] + AuditIf(e.auditOk, row) + [Replied(w, None, true)]);
    }
  }

  lemma WaitExplained(c: Config, s: State, step: Step)
    requires step.DoWait?
    ensures Explained(c, s, step, s, Perform(c, s, step))
  {
    var (s1, w) := Issue(s, false);
    if Retained(s1, step.rid) {
      AttendExplained(c, s, step, s1, step.rid, w);
    }
  }

  // ---------------------------------------------------------------- deciding

  lemma GoneExplained(c: Config, s: State, step: Step, f: Filing)
    requires step.DoBegin? && Undecided(s, step.rid) && f == s.reqs[step.rid].filing && Gone(f, step.startNow)
    ensures var u := AuditIf(step.auditOk, AuditRow(f.uid, f.exe, f.action, false, None, CallerGoneSource,
                                                    Some(step.rid)));
            Explained(c, s, step, s, Settle(Log(s, u), step.rid, ByCallerGone, false, true))
  {
    var row := AuditRow(f.uid, f.exe, f.action, false, None, CallerGoneSource, Some(step.rid));
    SettleExplained(c, s, step, s, AuditIf(step.auditOk, row), step.rid, ByCallerGone, false, true);
  }

  lemma BeginExplained(c: Config, s: State, step: Step)
    requires step.DoBegin?
    ensures Explained(c, s, step, s,
                      Begin(s, step.rid, step.allow, step.scope, step.admin, step.startNow, step.auditOk))
  {
    match BeginAnswer(s, step.rid, step.allow, step.scope, step.startNow)
    case CallerGone => GoneExplained(c, s, step, s.reqs[step.rid].filing);
    case Started => LogExplained(c, s, step, s, [Decided(step.rid, ByAdmin(step.scope), step.allow, s.now)]);
    case _ =>
  }

  lemma LostExplained(c: Config, s: State, step: Step)
    requires step.DoFinish? && step.ticket < |s.reqs| && s.reqs[step.ticket].ticket.Some?
    requires !step.auditOk && c.auditRequired
    ensures Explained(c, s, step, s, Perform(c, s, step))
  {
    var q := s.reqs[step.ticket];
    var q1 := q.(ticket := None, waiters := []);
    var s1 := Log(s, []);
    LogExplained(c, s, step, s, []);
    ConcludeExplained(c, s, step, s1, step.ticket,
                      if q.retained then q1.(decision := Some(false), finalizing := false) else q1, false, false);
    ExplainedTransitive(c, s, step, s, s1, Perform(c, s, step));
  }

  lemma StoreExplained(c: Config, s0: State, step: Step, s: State)
    requires step.DoFinish? && step.storeOk && step.ticket < |s.reqs| && s.reqs == s0.reqs && s.now == s0.now
    requires s.cache == s0.cache
    requires s.reqs[step.ticket].ticket.Some? && s.reqs[step.ticket].ticket.value.allow
    requires !s.reqs[step.ticket].filing.oneShot
    ensures var s' := StoreGrant(s, step.ticket, GrantOf(s.reqs[step.ticket].filing, s.reqs[step.ticket].ticket.value));
            && Explained(c, s0, step, s, s') && s'.reqs == s.reqs && s'.cancelled == s.cancelled
  {
    var g := GrantOf(s.reqs[step.ticket].filing, s.reqs[step.ticket].ticket.value);
    if StoredKind(g.scope, g.argv).Some? {
      LogExplained(c, s0, step, s, [Stored(step.ticket, g, RowFor(g, NewId(s.cache), s.now.Floor), s.now)]);
    }
  }

  lemma RespondExplained(c: Config, s0: State, step: Step, s: State, rid: nat)
    requires rid < |s.reqs| == |s0.reqs| && s.reqs[rid].filing == s0.reqs[rid].filing
    requires s.cancelled == s0.cancelled && s.reqs[rid].filing.cookie != ""
    requires || (step.DoFinish? && step.ticket == rid && Kept(c, step.auditOk)
                 && s0.reqs[rid].ticket.Some? && s0.reqs[rid].ticket.value.allow)
             || (step.DoHook? && step.hooked == rid && s0.reqs[rid].hooked && s0.reqs[rid].decision.None?)
    ensures Explained(c, s0, step, s, Log(s, Respond(s, rid)))
  {
    LogExplained(c, s0, step, s, Respond(s, rid));
  }

  /** The cache write and the polkit response of a finisher. */
  lemma EffectsExplained(c: Config, s0: State, step: Step, s: State, q: Request)
    requires step.DoFinish? && step.ticket < |s.reqs| && q == s.reqs[step.ticket] && Kept(c, step.auditOk)
    requires s.reqs == s0.reqs && s.now == s0.now && s.cache == s0.cache && s.cancelled == s0.cancelled
    requires q.ticket.Some? && q.ticket.value.allow
    ensures var s1 := if !q.filing.oneShot && step.storeOk then StoreGrant(s, step.ticket, GrantOf(q.filing,
                                                                                                 q.ticket.value))
                      else s;
            var s2 := if q.filing.cookie != "" then Log(s1, Respond(s1, step.ticket)) else s1;
            s1.reqs == s.reqs && Explained(c, s0, step, s, s2) && s2.reqs == s.reqs
  {
    var s1 := if !q.filing.oneShot && step.storeOk then StoreGrant(s, step.ticket, GrantOf(q.filing, q.ticket.value))
              else s;
    if !q.filing.oneShot && step.storeOk {
      StoreExplained(c, s0, step, s);
    }
    if q.filing.cookie != "" {
      RespondExplained(c, s0, step, s1, step.ticket);
      ExplainedTransitive(c, s0, step, s, s1, Log(s1, Respond(s1, step.ticket)));
    }
  }

  /** Row, cache write and polkit response: everything before the answers. */
  lemma FrontExplained(c: Config, s: State, step: Step, q: Request, row: AuditRow) returns (s3: State)
    requires step.DoFinish? && step.ticket < |s.reqs| && q == s.reqs[step.ticket] && q.ticket.Some?
    requires Kept(c, step.auditOk)
    requires row == AuditRow(q.filing.uid, q.filing.exe, q.filing.action, q.ticket.value.allow,
                             Some(q.ticket.value.scope), PromptSource, Some(step.ticket))
    ensures var f, t, s1 := q.filing, q.ticket.value, Log(s, AuditIf(step.auditOk, row));
            var s2 := if t.allow && !f.oneShot && step.storeOk then StoreGrant(s1, step.ticket, GrantOf(f, t)) else s1;
            s2.reqs == s.reqs && s3 == if t.allow && f.cookie != "" then Log(s2, Respond(s2, step.ticket)) else s2
    ensures Explained(c, s, step, s, s3) && s3.reqs == s.reqs
  {
    var s1 := Log(s, AuditIf(step.auditOk, row));
    RowExplained(c, s, step, s, step.auditOk, row);
    s3 := s1;
    if q.ticket.value.allow {
      var s2 := if !q.filing.oneShot && step.storeOk
                then StoreGrant(s1, step.ticket, GrantOf(q.filing, q.ticket.value)) else s1;
      EffectsExplained(c, s, step, s1, q);
      s3 := if q.filing.cookie != "" then Log(s2, Respond(s2, step.ticket)) else s2;
      ExplainedTransitive(c, s, step, s, s1, s3);
    }
  }

  lemma KeptExplained(c: Config, s: State, step: Step, q: Request)
    requires step.DoFinish? && step.ticket < |s.reqs| && q == s.reqs[step.ticket] && q.ticket.Some?
    requires Kept(c, step.auditOk)
    ensures Explained(c, s, step, s, Finish(c, s, step.ticket, step.auditOk, step.storeOk))
  {
    var row := AuditRow(q.filing.uid, q.filing.exe, q.filing.action, q.ticket.value.allow, Some(q.ticket.value.scope),
                        PromptSource, Some(step.ticket));
    var s3 := FrontExplained(c, s, step, q, row);
    var q', allow := q.(ticket := None, waiters := [], finalizing := false), q.ticket.value.allow;
    ConcludeExplained(c, s, step, s3, step.ticket, q', allow, false);
    ExplainedTransitive(c, s, step, s, s3, Conclude(s3, step.ticket, q', allow, false));
  }

  lemma FinishExplained(c: Config, s: State, step: Step)
    requires step.DoFinish?
    ensures Explained(c, s, step, s, Perform(c, s, step))
  {
    if step.ticket < |s.reqs| && s.reqs[step.ticket].ticket.Some? {
      if Kept(c, step.auditOk) {
        KeptExplained(c, s, step, s.reqs[step.ticket]);
      } else {
        LostExplained(c, s, step);
      }
    }
  }

  lemma HookRowSays(s: State, rid: nat, h: HookAnswers, kept: bool)
    requires rid < |s.reqs| && h.verdict.Some?
    ensures var row, f := HookRow(s, rid, h), s.reqs[rid].filing;
            && HookSays(s, f, h, kept, row.source, row.allow && kept) && Concerns(f, row)
            && row.rid == (if row.source.HookSource? then Some(rid) else None)
            && ScopeTold(row, Lookup(s.cache, RecheckOf(f, h), s.now.Floor))
  {
  }

  lemma HookExplained(c: Config, s: State, step: Step)
    requires step.DoHook?
    ensures Explained(c, s, step, s, Perform(c, s, step))
  {
    var rid, h := step.hooked, step.hook;
    if rid < |s.reqs| && s.reqs[rid].hooked {
      var s1 := Unhook(s, rid);
      assert Explained(c, s, step, s, s1);
      if s1.reqs[rid].retained && s1.reqs[rid].decision.None? {
        if h.verdict.None? {
          LogExplained(c, s, step, s1, [Prompted(rid)]);
        } else {
          HookDecidesExplained(c, s, step);
        }
        ExplainedTransitive(c, s, step, s, s1, Perform(c, s, step));
      }
    }
  }

  /** The row a hook's verdict leads to, and the response to an approval. */
  lemma HookFrontExplained(c: Config, s: State, step: Step, row: AuditRow, stands: bool) returns (s3: State)
    requires step.DoHook? && step.hooked < |s.reqs| && s.reqs[step.hooked].hooked && Undecided(s, step.hooked)
    requires step.hook.auditOk ==> RowTells(s, step, row)
    ensures var rid, s2 := step.hooked, Log(Unhook(s, step.hooked), AuditIf(step.hook.auditOk, row));
            s3 == if stands && s2.reqs[rid].filing.cookie != "" then Log(s2, Respond(s2, rid)) else s2
    ensures Explained(c, s, step, Unhook(s, step.hooked), s3)
  {
    var rid, s1 := step.hooked, Unhook(s, step.hooked);
    var s2 := Log(s1, AuditIf(step.hook.auditOk, row));
    RowExplained(c, s, step, s1, step.hook.auditOk, row);
    s3 := s2;
    if stands && s2.reqs[rid].filing.cookie != "" {
      s3 := Log(s2, Respond(s2, rid));
      RespondExplained(c, s, step, s2, rid);
      ExplainedTransitive(c, s, step, s1, s2, s3);
    }
  }

  lemma HookDecidesExplained(c: Config, s: State, step: Step)
    requires step.DoHook? && step.hooked < |s.reqs| && s.reqs[step.hooked].hooked && step.hook.verdict.Some?
    requires s.reqs[step.hooked].retained && s.reqs[step.hooked].decision.None?
    ensures Explained(c, s, step, Unhook(s, step.hooked), ApplyHook(c, s, step.hooked, step.hook))
  {
    var rid, h := step.hooked, step.hook;
    var s1 := Unhook(s, rid);
    var row := HookRow(s1, rid, h);
    assert row == HookRow(s, rid, h);
    HookRowSays(s, rid, h, true);
    HookRowSays(s, rid, h, Kept(c, h.auditOk));
    var stands := row.allow && Kept(c, h.auditOk);
    var s3 := HookFrontExplained(c, s, step, row, stands);
    assert Log(s3, []) == s3;
    SettleExplained(c, s, step, s3, [], rid, ByHook(row.source), stands, true);
    ExplainedTransitive(c, s, step, s1, s3, Settle(s3, rid, ByHook(row.source), stands, true));
  }

  // ---------------------------------------------------------------- the polkit relay

  lemma LocalAuthExplained(c: Config, s: State, step: Step)
    requires step.DoLocalAuth?
    ensures Explained(c, s, step, s, Perform(c, s, step))
  {
    var cookie, sender, caller := step.cookie, step.sender, step.caller;
    var first := FirstWith(s, cookie, 0);
    FirstIsOldest(s, cookie, first);
    if Perform(c, s, step) != s {
      var action := if first.Some? then s.reqs[first.value].filing.action else "polkit.local_auth";
      var row := AuditRow(caller.uid, caller.exe, action, true, Some(Once), LocalAuthSource, first);
      var u := AuditIf(step.auditOk, row) + [Delivered(first, cookie, sender, true)];
      assert step.auditOk ==> RowTells(s, step, row);
      LogExplained(c, s, step, s, u);
      if first.Some? && s.reqs[first.value].decision.None? && step.callOk {
        SettleExplained(c, s, step, s, u, first.value, ByLocalAuth(sender), true, false);
      }
    }
  }

  ghost predicate SameFilings(a: seq<Request>, b: seq<Request>) {
    |a| == |b| && forall i :: 0 <= i < |a| ==> a[i].filing == b[i].filing
  }

  lemma {:induction false} CancelFromExplained(c: Config, s0: State, step: Step, s: State, from: nat)
    requires step.DoCancel? && SameFilings(s0.reqs, s.reqs) && s.now == s0.now && from <= |s.reqs|
    ensures Explained(c, s0, step, s, CancelFrom(s, from, step.cookie, step.sender, step.audited))
    ensures |CancelFrom(s, from, step.cookie, step.sender, step.audited).reqs| == |s.reqs|
    decreases |s.reqs| - from
  {
    if from < |s.reqs| {
      var s1 := CancelOne(s, from, step.cookie, step.sender, step.audited);
      if CancelHits(s.reqs[from], step.cookie, step.sender) {
        SettleExplained(c, s0, step, s,
                        AuditIf(from in step.audited, DenyRow(s.reqs[from].filing, from, PolkitCancelSource)), from,
                        ByCancel(step.sender), false, false);
      }
      CancelFromExplained(c, s0, step, s1, from + 1);
      ExplainedTransitive(c, s0, step, s, s1, CancelFrom(s, from, step.cookie, step.sender, step.audited));
    }
  }

  lemma CancelRestExplained(c: Config, s: State, step: Step, s3: State)
    requires step.DoCancel? && s3 == s.(cancelled := s3.cancelled, announced := s3.announced)
    ensures var s4 := CancelFrom(s3, 0, step.cookie, step.sender, step.audited);
            var row := AuditRow(step.caller.uid, step.caller.exe, "polkit.local_auth", false, None, PolkitCancelSource,
                                None);
            Explained(c, s, step, s, s4) && Explained(c, s, step, s, Log(s4, AuditIf(step.auditOk, row)))
  {
    var s4 := CancelFrom(s3, 0, step.cookie, step.sender, step.audited);
    assert Explained(c, s, step, s, s3);
    CancelFromExplained(c, s, step, s3, 0);
    ExplainedTransitive(c, s, step, s, s3, s4);
    var row := AuditRow(step.caller.uid, step.caller.exe, "polkit.local_auth", false, None, PolkitCancelSource, None);
    RowExplained(c, s, step, s4, step.auditOk, row);
    ExplainedTransitive(c, s, step, s, s4, Log(s4, AuditIf(step.auditOk, row)));
  }

  lemma CancelExplained(c: Config, s: State, step: Step)
    requires step.DoCancel?
    ensures Explained(c, s, step, s, Cancel(s, step.cookie, step.sender, step.caller, step.audited, step.auditOk))
  {
    var cookie, sender := step.cookie, step.sender;
    var s1 := if cookie == "" then s else Prune(s, s.now);
    if cookie == "" || RoomForMark(s1, cookie) {
      CancelRestExplained(c, s, step, Unbind(NoteCancelled(s1, cookie, sender), cookie, sender));
    }
  }

  lemma CheckExplained(c: Config, s: State, step: Step)
    requires step.DoCheck?
    ensures Explained(c, s, step, s, Perform(c, s, step))
  {
    var a, e := step.ask, step.world;
    if e.rateOk {
      match CheckVerdict(s, a.caller.uid, a.caller.exe, a.action, a.rawArgv, e.rules, e.sandboxed, s.now)
      case Open =>
      case Closed(source, allow, scope) =>
        var row := AuditRow(a.caller.uid, a.caller.exe, a.action, allow, scope, source, None);
        LogExplained(c, s, step, s, RecordCheck(c, e.auditOk, row).0);
    }
  }

  lemma OtherStepsExplained(c: Config, s: State, step: Step)
    requires !step.DoReap?
    ensures Explained(c, s, step, s, Perform(c, s, step))
  {
    match step
    case DoEnqueue(a, e) => EnqueueExplained(c, s, step, a, e);
    case DoRelay(_, _, _, _) => SendExplained(c, s, step);
    case DoWait(_, _) => WaitExplained(c, s, step);
    case DoBegin(_, _, _, _, _, _) => BeginExplained(c, s, step);
    case DoFinish(_, _, _) => FinishExplained(c, s, step);
    case DoHook(_, _) => HookExplained(c, s, step);
    case DoLocalAuth(_, _, _, _, _, _) => LocalAuthExplained(c, s, step);
    case DoCancel(_, _, _, _, _) => CancelExplained(c, s, step);
    case DoCheck(_, _) => CheckExplained(c, s, step);
    case DoAnnounce(_, _) =>
    case DoRevokeId(id) => LogExplained(c, s, step, s, [RevokedId(id)]);
    case DoRevokeUid(uid) => LogExplained(c, s, step, s, [RevokedUid(uid)]);
    case DoCacheGc =>
  }

  // ---------------------------------------------------------------- what a reaper pass does

  /** A request after a pass at time `now`. */
  function ReapedTo(c: Config, q: Request, now: real): Request {
    if !q.retained then q
    else if q.decision.None? then
      if Stale(q, now) then q.(decision := Some(false), waiters := [], decidedAt := Some(now)) else q
    else if c.retention <= 0.0 then q
    else if q.decidedAt.None? then q.(decidedAt := Some(now))
    else if now - q.decidedAt.value >= c.retention then q.(retained := false)
    else q
  }

  /** Everything a pass leaves alone, and the causes of its events. */
  ghost predicate Passed(c: Config, s0: State, step: Step, s: State, s': State) {
    && AllCaused(c, s0, step, s.trace, s'.trace) && s' == s.(reqs := s'.reqs, trace := s'.trace)
  }

  lemma ReapOneIsPointwise(c: Config, s0: State, s: State, rid: nat, audited: set<nat>)
    requires SameFilings(s0.reqs, s.reqs) && s.now == s0.now && rid < |s.reqs|
    ensures var s' := ReapOne(c, s, rid, audited);
            s'.reqs == s.reqs[rid := ReapedTo(c, s.reqs[rid], s.now)] && Passed(c, s0, DoReap(audited), s, s')
  {
    var q, step := s.reqs[rid], DoReap(audited);
    if q.retained && Stale(q, s.now) {
      var row := DenyRow(q.filing, rid, StaleReapSource);
      SettleExplained(c, s0, step, s, AuditIf(rid in audited, row), rid, ByStaleReap, false, false);
      assert ReapOne(c, s, rid, audited).trace
          == Settle(Log(s, AuditIf(rid in audited, row)), rid, ByStaleReap, false, false).trace;
    } else {
      assert s.reqs[rid := q] == s.reqs;
    }
  }

  /** A pass moves every request by itself, from the state before it. */
  lemma {:induction false} ReapIsPointwise(c: Config, s0: State, s: State, from: nat, audited: set<nat>)
    requires SameFilings(s0.reqs, s.reqs) && s.now == s0.now && from <= |s.reqs|
    ensures var s' := ReapFrom(c, s, from, audited);
            && |s'.reqs| == |s.reqs|
            && (forall i :: 0 <= i < from ==> s'.reqs[i] == s.reqs[i])
            && (forall i :: from <= i < |s.reqs| ==> s'.reqs[i] == ReapedTo(c, s.reqs[i], s.now))
            && Passed(c, s0, DoReap(audited), s, s')
    decreases |s.reqs| - from
  {
    if from < |s.reqs| {
      var s1 := ReapOne(c, s, from, audited);
      ReapOneIsPointwise(c, s0, s, from, audited);
      ReapIsPointwise(c, s0, s1, from + 1, audited);
      CausedTransitive(c, s0, DoReap(audited), s.trace, s1.trace, ReapFrom(c, s, from, audited).trace);
    }
  }

  // ---------------------------------------------------------------- runs

  lemma StepEventsAreCaused(c: Config, s: State, t: Timed)
    ensures AllCaused(c, s.(now := t.at), t.step, s.trace, Next(c, s, t).trace)
  {
    var s0 := s.(now := t.at);
    if t.step.DoReap? {
      ReapIsPointwise(c, s0, s0.(lastPass := s0.now), 0, t.step.audited);
    } else {
      OtherStepsExplained(c, s0, t.step);
    }
  }

  /** Step `i` of the run is why event `k` happened. */
  ghost predicate CausedBy(c: Config, s: State, run: seq<Timed>, i: nat, k: nat) {
    && i < |run|
    && var s1 := After(c, s, run[..i]);
       && |s1.trace| <= k < |Next(c, s1, run[i]).trace|
       && Causes(c, s1.(now := run[i].at), run[i].step, Next(c, s1, run[i]).trace[k])
  }

  /** Every event of every run is explained by one of its steps. */
  lemma {:induction false} EventsHaveCauses(c: Config, s: State, run: seq<Timed>, k: nat) returns (i: nat)
    requires |s.trace| <= k < |After(c, s, run).trace|
    ensures CausedBy(c, s, run, i, k)
    ensures Next(c, After(c, s, run[..i]), run[i]).trace <= After(c, s, run).trace
    decreases |run|
  {
    var s1 := Next(c, s, run[0]);
    StepEventsAreCaused(c, s, run[0]);
    TracesGrow(c, s1, run[1..]);
    if k < |s1.trace| {
      i := 0;
      assert run[..0] == [];
    } else {
      var j := EventsHaveCauses(c, s1, run[1..], k);
      i := j + 1;
      assert run[..i][1..] == run[1..][..j];
    }
  }

  lemma {:induction false} TracesGrow(c: Config, s: State, run: seq<Timed>)
    ensures s.trace <= After(c, s, run).trace
    decreases |run|
  {
    if run != [] {
      StepEventsAreCaused(c, s, run[0]);
      TracesGrow(c, Next(c, s, run[0]), run[1..]);
    }
  }
}
