/** What every reachable state of the broker satisfies, in seven parts: the shape of each request, waiter
    conservation, the counts of decisions and signals, what each event says about the requests as they are
    now, the audit rows that back each effect, the decision behind each cached row, and cookie ownership. */
module BrokerInvariant {
  import opened Options
  import opened Cache
  import opened BrokerModel

  // ---------------------------------------------------------------- requests

  /** The outcome nothing can change any more.  A request whose finisher lost the audit row after the
      reaper had dropped it keeps its provisional fields, but everyone was told "deny". */
  function Outcome(q: Request): Option<bool> {
    if q.decision.None? || q.ticket.Some? then None
    else if q.finalizing then Some(false)
    else q.decision
  }

  ghost predicate Shape(q: Request) {
    && (q.decision.None? ==> !q.finalizing && q.ticket.None? && q.decidedAt.None? && q.retained)
    && (q.ticket.Some? ==> q.finalizing && q.decision == Some(q.ticket.value.allow))
    && (q.finalizing && q.ticket.None? ==> !q.retained)
    && (Outcome(q).Some? ==> q.waiters == [])
    && (q.hooked ==> !q.filing.oneShot)
    && (q.filing.filedBy != "" ==> q.filing.oneShot && !q.filing.delegated)
    && (q.filing.cookie != "" ==> q.filing.filedBy != "")
    && (q.ticket.Some? ==> ScopeAllowed(q.filing, q.ticket.value.allow, q.ticket.value.scope))
  }

  /** The scopes `DecideRequest` lets through for a request. */
  ghost predicate ScopeAllowed(f: Filing, allow: bool, scope: Scope) {
    && (f.delegated ==> !DelegatedForbidden(scope))
    && (f.oneShot ==> scope.Once?)
    && (allow && ArgvRequired(scope) ==> f.argv != [])
  }

  ghost predicate Shapes(s: State) { forall i :: 0 <= i < |s.reqs| ==> Shape(s.reqs[i]) }

  /** How a request may change from one state to a later one. */
  ghost predicate Evolves(q: Request, q': Request) {
    && q'.filing == q.filing
    && (q'.retained ==> q.retained)
    && (Outcome(q).Some? ==> Outcome(q') == Outcome(q))
    && (q.decision.Some? ==>
          || q'.decision == q.decision
          || (q.decision == Some(true) && q'.decision == Some(false) && q.ticket.Some? && q'.ticket.None?))
    && (q.decision.Some? && q'.ticket.Some? ==> q'.ticket == q.ticket)
  }

  ghost predicate AllEvolve(a: seq<Request>, b: seq<Request>) {
    |a| <= |b| && forall i :: 0 <= i < |a| ==> Evolves(a[i], b[i])
  }

  lemma AllEvolveTransitive(a: seq<Request>, b: seq<Request>, d: seq<Request>)
    requires AllEvolve(a, b) && AllEvolve(b, d)
    ensures AllEvolve(a, d)
  {
    forall i | 0 <= i < |a| ensures Evolves(a[i], d[i]) {
      assert Evolves(a[i], b[i]) && Evolves(b[i], d[i]);
    }
  }

  lemma OneEvolves(a: seq<Request>, rid: nat, q: Request)
    requires rid < |a| && Evolves(a[rid], q)
    ensures AllEvolve(a, a[rid := q])
  {
  }

  // ---------------------------------------------------------------- waiters

  /** How often `w` occurs in a list of waiters. */
  function Tally(ws: seq<Waiter>, w: Waiter): nat {
    if ws == [] then 0 else Tally(ws[..|ws| - 1], w) + (if ws[|ws| - 1] == w then 1 else 0)
  }

  lemma {:induction false} TallyConcat(a: seq<Waiter>, b: seq<Waiter>, w: Waiter)
    ensures Tally(a + b, w) == Tally(a, w) + Tally(b, w)
  {
    if b == [] {
      assert a + b == a;
    } else {
      assert (a + b)[..|a + b| - 1] == a + b[..|b| - 1];
      TallyConcat(a, b[..|b| - 1], w);
    }
  }

  /** How often a request owes this waiter an answer. */
  function Held(q: Request, w: Waiter): nat { Tally(Owed(q), w) }

  function HeldUpTo(reqs: seq<Request>, n: nat, w: Waiter): nat
    requires n <= |reqs|
  {
    if n == 0 then 0 else HeldUpTo(reqs, n - 1, w) + Held(reqs[n - 1], w)
  }

  function HeldBy(reqs: seq<Request>, w: Waiter): nat { HeldUpTo(reqs, |reqs|, w) }

  /** How often this waiter has been answered, by a verdict or by an error. */
  function Answered(t: seq<Event>, w: Waiter): nat {
    if t == [] then 0
    else
      var e := t[|t| - 1];
      Answered(t[..|t| - 1], w) + (if (e.Replied? || e.Refused?) && e.waiter == w then 1 else 0)
  }

  function Forwards(t: seq<Event>, w: Waiter): nat {
    if t == [] then 0
    else
      var e := t[|t| - 1];
      Forwards(t[..|t| - 1], w) + (if e.Forwarded? && e.waiter == w then 1 else 0)
  }

  /** How often this relay waiter has been told True about a request. */
  function Approvals(t: seq<Event>, w: Waiter): nat {
    if t == [] then 0
    else
      var e := t[|t| - 1];
      Approvals(t[..|t| - 1], w) + (if w.relay && e.Replied? && e.waiter == w && e.about.Some? && e.value then 1 else 0)
  }

  /** Every issued waiter is in exactly one place, no other waiter is anywhere, and approvals are forwarded. */
  ghost predicate WaiterOk(s: State, w: Waiter) {
    && HeldBy(s.reqs, w) + Answered(s.trace, w) == (if w in s.issued then 1 else 0)
    && Forwards(s.trace, w) == Approvals(s.trace, w)
  }

  ghost predicate Waiters(s: State) {
    && (forall w :: WaiterOk(s, w))
    && (forall i :: 0 <= i < |s.issued| ==> s.issued[i].id == i)
  }

  lemma {:induction false} HeldUpdateUpTo(reqs: seq<Request>, n: nat, rid: nat, q: Request, w: Waiter)
    requires rid < |reqs| && n <= |reqs|
    ensures n <= rid ==> HeldUpTo(reqs[rid := q], n, w) == HeldUpTo(reqs, n, w)
    ensures n > rid ==> HeldUpTo(reqs[rid := q], n, w) + Held(reqs[rid], w) == HeldUpTo(reqs, n, w) + Held(q, w)
  {
    if n > 0 {
      HeldUpdateUpTo(reqs, n - 1, rid, q, w);
    }
  }

  lemma HeldUpdate(reqs: seq<Request>, rid: nat, q: Request, w: Waiter)
    requires rid < |reqs|
    ensures HeldBy(reqs[rid := q], w) + Held(reqs[rid], w) == HeldBy(reqs, w) + Held(q, w)
  {
    HeldUpdateUpTo(reqs, |reqs|, rid, q, w);
  }

  lemma {:induction false} HeldPrefix(reqs: seq<Request>, q: Request, n: nat, w: Waiter)
    requires n <= |reqs|
    ensures HeldUpTo(reqs + [q], n, w) == HeldUpTo(reqs, n, w)
  {
    if n > 0 {
      HeldPrefix(reqs, q, n - 1, w);
    }
  }

  lemma HeldAppend(reqs: seq<Request>, q: Request, w: Waiter)
    ensures HeldBy(reqs + [q], w) == HeldBy(reqs, w) + Held(q, w)
  {
    HeldPrefix(reqs, q, |reqs|, w);
  }

  // ---------------------------------------------------------------- counts

  function Decs(t: seq<Event>, rid: nat): nat {
    if t == [] then 0
    else
      var e := t[|t| - 1];
      Decs(t[..|t| - 1], rid) + (if e.Decided? && e.rid == rid then 1 else 0)
  }

  /** Decisions taken after filing; these are the ones that owe a signal. */
  function LateDecs(t: seq<Event>, rid: nat): nat {
    if t == [] then 0
    else
      var e := t[|t| - 1];
      LateDecs(t[..|t| - 1], rid) + (if e.Decided? && e.rid == rid && !e.decider.AtFiling? then 1 else 0)
  }

  function Sigs(t: seq<Event>, rid: nat): nat {
    if t == [] then 0
    else
      var e := t[|t| - 1];
      Sigs(t[..|t| - 1], rid) + (if e.Signalled? && e.rid == rid then 1 else 0)
  }

  lemma {:induction false} ConcatCounts(t: seq<Event>, u: seq<Event>, rid: nat)
    ensures Decs(t + u, rid) == Decs(t, rid) + Decs(u, rid)
    ensures LateDecs(t + u, rid) == LateDecs(t, rid) + LateDecs(u, rid)
    ensures Sigs(t + u, rid) == Sigs(t, rid) + Sigs(u, rid)
    decreases |u|
  {
    if u == [] {
      assert t + u == t;
    } else {
      var n := |u| - 1;
      ConcatCounts(t, u[..n], rid);
      assert (t + u)[..|t + u| - 1] == t + u[..n];
    }
  }

  lemma {:induction false} ConcatAnswers(t: seq<Event>, u: seq<Event>, w: Waiter)
    ensures Answered(t + u, w) == Answered(t, w) + Answered(u, w)
    ensures Forwards(t + u, w) == Forwards(t, w) + Forwards(u, w)
    ensures Approvals(t + u, w) == Approvals(t, w) + Approvals(u, w)
    decreases |u|
  {
    if u == [] {
      assert t + u == t;
    } else {
      var n := |u| - 1;
      ConcatAnswers(t, u[..n], w);
      assert (t + u)[..|t + u| - 1] == t + u[..n];
    }
  }

  ghost predicate CountsFor(reqs: seq<Request>, t: seq<Event>, rid: nat) {
    && Decs(t, rid) == (if rid < |reqs| && reqs[rid].decision.Some? then 1 else 0)
    && LateDecs(t, rid) <= Decs(t, rid)
    && Sigs(t, rid) == (if rid < |reqs| && Outcome(reqs[rid]).Some? then LateDecs(t, rid) else 0)
    && (rid < |reqs| && reqs[rid].ticket.Some? ==> LateDecs(t, rid) == 1)
  }

  ghost predicate Counts(s: State) { forall rid: nat :: CountsFor(s.reqs, s.trace, rid) }

  // ---------------------------------------------------------------- events

  /** What an event in the trace says about the requests as they are now. */
  ghost predicate EventOk(reqs: seq<Request>, e: Event) {
    match e
    case Replied(w, about, value) => if about.Some? then HasOutcome(reqs, about.value, value) else value ==> w.relay
    case Forwarded(w, rid) => w.relay && HasOutcome(reqs, rid, true)
    case Signalled(rid, value) => HasOutcome(reqs, rid, value)
    case Decided(rid, decider, value, at) => rid < |reqs| && DecisionOk(reqs[rid], decider, value, at)
    case Stored(rid, g, row, at) => rid < |reqs| && GrantOk(reqs[rid].filing, g, row) && row.created == at.Floor
    case _ => true
  }

  ghost predicate HasOutcome(reqs: seq<Request>, rid: nat, value: bool) {
    rid < |reqs| && Outcome(reqs[rid]) == Some(value)
  }

  ghost predicate DecisionOk(q: Request, decider: Decider, value: bool, at: real) {
    && (q.decision == Some(value) || (decider.ByAdmin? && value && q.decision == Some(false) && q.ticket.None?))
    && (q.ticket.Some? ==> decider.ByAdmin?)
    && DeciderOk(q.filing, decider, value, at)
  }

  /** Which deciders may give which verdict on which request. */
  ghost predicate DeciderOk(f: Filing, decider: Decider, value: bool, at: real) {
    match decider
    case AtFiling(_) => value ==> !f.oneShot
    case ByHook(_) => !f.oneShot
    case ByAdmin(scope) => ScopeAllowed(f, value, scope)
    case ByCallerGone => !value && !f.delegated
    case ByLocalAuth(sender) => value && sender == f.filedBy && sender != ""
    case ByCancel(sender) => !value && sender == f.filedBy && f.cookie != ""
    case ByStaleReap => !value && f.cookie != "" && at - f.createdAt >= POLKIT_UNDECIDED_TTL
  }

  /** A stored row is the row of an allowing grant made from this request. */
  ghost predicate GrantOk(f: Filing, g: Grant, row: Row) {
    && !f.oneShot && g.decision
    && g.uid == f.uid && g.action == f.action && g.exe == f.exe && g.argv == f.argv
    && ScopeAllowed(f, true, g.scope)
    && StoredKind(g.scope, g.argv).Some? && row == RowFor(g, row.id, row.created)
  }

  ghost predicate EventsOk(reqs: seq<Request>, t: seq<Event>) {
    forall k :: 0 <= k < |t| ==> EventOk(reqs, t[k])
  }

  lemma EventsStayOk(a: seq<Request>, b: seq<Request>, t: seq<Event>)
    requires AllEvolve(a, b) && EventsOk(a, t)
    ensures EventsOk(b, t)
  {
    forall k | 0 <= k < |t| ensures EventOk(b, t[k]) {
      assert EventOk(a, t[k]);
      EventStaysOk(a, b, t[k]);
    }
  }

  lemma EventStaysOk(a: seq<Request>, b: seq<Request>, e: Event)
    requires AllEvolve(a, b) && EventOk(a, e)
    ensures EventOk(b, e)
  {
    if e.Replied? && e.about.Some? {
      assert Evolves(a[e.about.value], b[e.about.value]);
    } else if e.Forwarded? || e.Signalled? || e.Decided? || e.Stored? {
      assert Evolves(a[e.rid], b[e.rid]);
    }
  }

  lemma EventsOkConcat(reqs: seq<Request>, t: seq<Event>, u: seq<Event>)
    requires EventsOk(reqs, t) && EventsOk(reqs, u)
    ensures EventsOk(reqs, t + u)
  {
    forall k | 0 <= k < |t + u| ensures EventOk(reqs, (t + u)[k]) {
      if k >= |t| {
        assert (t + u)[k] == u[k - |t|];
      }
    }
  }

  // ---------------------------------------------------------------- audit before effect

  /** The row allows the request and was written for a decision by this decider.  The recheck against rules and cache
      at hook time writes its row without a request id. */
  ghost predicate RowFits(f: Filing, row: AuditRow, rid: nat, decider: Decider) {
    && row.allow && row.action == f.action
    && match decider
       case AtFiling(source) => row.source == source && row.rid == Some(rid)
       case ByHook(source) =>
         && row.source == source
         && (|| (source.HookSource? && row.rid == Some(rid))
             || ((source.RuleSource? || source.CacheSource?) && row.rid.None? && row.uid == f.uid && row.exe == f.exe))
       case ByAdmin(scope) => row.source.PromptSource? && row.rid == Some(rid) && row.scope == Some(scope)
       case ByLocalAuth(_) => row.source.LocalAuthSource? && row.rid == Some(rid)
       case _ => false
  }

  /** Where the row at `j` stands to the decision at `i`: filings and hooks write it directly before they decide, a
      local authentication responds in between, and an administrator's finisher writes it later. */
  predicate Placed(decider: Decider, j: int, i: int) {
    match decider
    case AtFiling(_) => j + 1 == i
    case ByHook(_) => j + 1 == i
    case ByLocalAuth(_) => j + 2 == i
    case _ => i < j
  }

  /** The row at `j` is the record of the decision at `i`, which allowed request `rid`. */
  ghost predicate OwnRow(reqs: seq<Request>, t: seq<Event>, j: int, i: int, rid: nat) {
    && 0 <= j < |t| && 0 <= i < |t| && rid < |reqs|
    && t[i].Decided? && t[i].rid == rid && t[i].value
    && t[j].Audited? && RowFits(reqs[rid].filing, t[j].entry, rid, t[i].decider) && Placed(t[i].decider, j, i)
  }

  /** Among the first `n` events are a decision that allowed the request and that decision's own row. */
  ghost predicate Recorded(reqs: seq<Request>, t: seq<Event>, n: nat, rid: nat) {
    exists j, i :: j < n && i < n && OwnRow(reqs, t, j, i, rid)
  }

  /** The same, and the decision is an administrator's under this scope. */
  ghost predicate RecordedGrant(reqs: seq<Request>, t: seq<Event>, n: nat, rid: nat, scope: Scope) {
    exists j, i :: j < n && i < n && OwnRow(reqs, t, j, i, rid) && t[i].decider == ByAdmin(scope)
  }

  /** The event at `j` is the row of a local authentication about this request. */
  ghost predicate IsLocalRow(t: seq<Event>, j: int, about: Option<nat>) {
    0 <= j < |t| && t[j].Audited? && t[j].entry.allow && t[j].entry.source.LocalAuthSource? && t[j].entry.rid == about
  }

  /** The event at `n` stands directly behind such a row. */
  ghost predicate LocalRow(t: seq<Event>, n: nat, about: Option<nat>) {
    exists j :: j + 1 == n && IsLocalRow(t, j, about)
  }

  /** Effects that need an audit row first. */
  predicate NeedsAudit(e: Event) {
    match e
    case Replied(_, about, value) => about.Some? && value
    case Forwarded(_, _) => true
    case Signalled(_, value) => value
    case Stored(_, _, _, _) => true
    case Delivered(_, _, _, _) => true
    case _ => false
  }

  /** The effect `e`, taking place as event number `n`, has its own audit row behind it. */
  ghost predicate Backed(reqs: seq<Request>, t: seq<Event>, n: nat, e: Event) {
    match e
    case Replied(_, about, _) => about.Some? && Recorded(reqs, t, n, about.value)
    case Forwarded(_, rid) => Recorded(reqs, t, n, rid)
    case Signalled(rid, _) => Recorded(reqs, t, n, rid)
    case Stored(rid, g, _, _) => RecordedGrant(reqs, t, n, rid, g.scope)
    case Delivered(about, _, _, local) =>
      if local then LocalRow(t, n, about) else about.Some? && Recorded(reqs, t, n, about.value)
    case _ => false
  }

  /** Every effect comes after its audit row. */
  ghost predicate AuditFirst(reqs: seq<Request>, t: seq<Event>) {
    forall k :: 0 <= k < |t| && NeedsAudit(t[k]) ==> Backed(reqs, t, k, t[k])
  }

  /** A durably allowed request has its row already. */
  ghost predicate OutcomesBacked(reqs: seq<Request>, t: seq<Event>) {
    forall rid :: 0 <= rid < |reqs| && Outcome(reqs[rid]) == Some(true) ==> Recorded(reqs, t, |t|, rid)
  }

  lemma OwnRowLater(a: seq<Request>, b: seq<Request>, t: seq<Event>, u: seq<Event>, j: int, i: int, rid: nat)
    requires AllEvolve(a, b) && OwnRow(a, t, j, i, rid)
    ensures OwnRow(b, t + u, j, i, rid)
  {
    assert Evolves(a[rid], b[rid]);
    assert (t + u)[j] == t[j] && (t + u)[i] == t[i];
  }

  lemma RecordedLater(a: seq<Request>, b: seq<Request>, t: seq<Event>, u: seq<Event>, n: nat, m: nat, rid: nat)
    requires AllEvolve(a, b) && n <= m && Recorded(a, t, n, rid)
    ensures Recorded(b, t + u, m, rid)
  {
    var j, i :| j < n && i < n && OwnRow(a, t, j, i, rid);
    OwnRowLater(a, b, t, u, j, i, rid);
  }

  lemma RecordedGrantLater(a: seq<Request>, b: seq<Request>, t: seq<Event>, u: seq<Event>, n: nat, m: nat, rid: nat,
                           scope: Scope)
    requires AllEvolve(a, b) && n <= m && RecordedGrant(a, t, n, rid, scope)
    ensures RecordedGrant(b, t + u, m, rid, scope)
  {
    var j, i :| j < n && i < n && OwnRow(a, t, j, i, rid) && t[i].decider == ByAdmin(scope);
    OwnRowLater(a, b, t, u, j, i, rid);
    assert (t + u)[i] == t[i];
  }

  /** Only a local delivery has to stand right behind its row. */
  lemma BackedLater(a: seq<Request>, b: seq<Request>, t: seq<Event>, u: seq<Event>, n: nat, m: nat, e: Event)
    requires AllEvolve(a, b) && n <= |t| && n <= m && (e.Delivered? && e.local ==> m == n) && Backed(a, t, n, e)
    ensures Backed(b, t + u, m, e)
  {
    match e
    case Replied(_, about, _) => RecordedLater(a, b, t, u, n, m, about.value);
    case Forwarded(_, rid) => RecordedLater(a, b, t, u, n, m, rid);
    case Signalled(rid, _) => RecordedLater(a, b, t, u, n, m, rid);
    case Stored(rid, g, _, _) => RecordedGrantLater(a, b, t, u, n, m, rid, g.scope);
    case Delivered(about, _, _, local) =>
      if local {
        var j :| j + 1 == n && IsLocalRow(t, j, about);
        assert (t + u)[j] == t[j] && IsLocalRow(t + u, j, about);
      } else {
        RecordedLater(a, b, t, u, n, m, about.value);
      }
  }

  /** New effects whose rows are in the longer trace keep the order right. */
  lemma AuditFirstConcat(a: seq<Request>, b: seq<Request>, t: seq<Event>, u: seq<Event>)
    requires AllEvolve(a, b) && AuditFirst(a, t)
    requires forall k :: 0 <= k < |u| && NeedsAudit(u[k]) ==> Backed(b, t + u, |t| + k, u[k])
    ensures AuditFirst(b, t + u)
  {
    forall k | 0 <= k < |t + u| && NeedsAudit((t + u)[k]) ensures Backed(b, t + u, k, (t + u)[k]) {
      if k < |t| {
        assert (t + u)[k] == t[k];
        BackedLater(a, b, t, u, k, k, t[k]);
      } else {
        assert (t + u)[k] == u[k - |t|];
      }
    }
  }

  /** No two requests share a row. */
  lemma RowsAreNotShared(reqs: seq<Request>, t: seq<Event>, j: int, i: int, i': int, rid: nat, rid': nat)
    requires OwnRow(reqs, t, j, i, rid) && OwnRow(reqs, t, j, i', rid')
    ensures rid == rid'
  {
  }

  // ---------------------------------------------------------------- grants

  /** An administrator allowed this request under this scope. */
  ghost predicate AdminAllowed(t: seq<Event>, n: nat, rid: nat, scope: Scope) {
    exists j :: 0 <= j < n && j < |t| && t[j].Decided? && t[j].rid == rid && t[j].decider == ByAdmin(scope)
        && t[j].value
  }

  /** The same, not later than `latest`. */
  ghost predicate AllowedBy(t: seq<Event>, n: nat, rid: nat, scope: Scope, latest: real) {
    exists j :: 0 <= j < n && j < |t| && t[j].Decided? && t[j].rid == rid && t[j].decider == ByAdmin(scope)
        && t[j].value && t[j].at <= latest
  }

  /** Every stored row, and every allowing finisher, has the administrator's decision before it. */
  ghost predicate Warranted(reqs: seq<Request>, t: seq<Event>) {
    && (forall k :: 0 <= k < |t| && t[k].Stored? ==> AllowedBy(t, k, t[k].rid, t[k].grant.scope, t[k].at))
    && (forall rid :: 0 <= rid < |reqs| && reqs[rid].ticket.Some? && reqs[rid].ticket.value.allow ==>
          AdminAllowed(t, |t|, rid, reqs[rid].ticket.value.scope))
  }

  lemma AdminAllowedLater(t: seq<Event>, u: seq<Event>, n: nat, m: nat, rid: nat, scope: Scope)
    requires n <= |t| && n <= m && AdminAllowed(t, n, rid, scope)
    ensures AdminAllowed(t + u, m, rid, scope)
  {
    var j :| 0 <= j < n && j < |t| && t[j].Decided? && t[j].rid == rid && t[j].decider == ByAdmin(scope) && t[j].value;
    assert (t + u)[j] == t[j];
  }

  lemma AllowedByLater(t: seq<Event>, u: seq<Event>, n: nat, m: nat, rid: nat, scope: Scope, latest: real)
    requires n <= |t| && n <= m && AllowedBy(t, n, rid, scope, latest)
    ensures AllowedBy(t + u, m, rid, scope, latest)
  {
    var j :| 0 <= j < n && j < |t| && t[j].Decided? && t[j].rid == rid && t[j].decider == ByAdmin(scope)
        && t[j].value && t[j].at <= latest;
    assert (t + u)[j] == t[j];
  }

  predicate Revokes(e: Event, row: Row) {
    (e.RevokedId? && e.id == row.id) || (e.RevokedUid? && e.uid == row.uid)
  }

  /** The row was stored by a `DecideRequest`, and nobody has revoked it since. */
  ghost predicate StoredAt(t: seq<Event>, k: int, row: Row) {
    && 0 <= k < |t| && t[k].Stored? && t[k].row == row
    && forall j :: k < j < |t| ==> !Revokes(t[j], row)
  }

  ghost predicate CacheOk(s: State) {
    && Ordered(s.cache)
    && forall x :: x in s.cache ==> exists k :: StoredAt(s.trace, k, x)
  }

  lemma StoredStays(t: seq<Event>, u: seq<Event>, k: int, row: Row)
    requires StoredAt(t, k, row) && forall i :: 0 <= i < |u| ==> !Revokes(u[i], row)
    ensures StoredAt(t + u, k, row)
  {
    forall j | k < j < |t + u| ensures !Revokes((t + u)[j], row) {
      if j >= |t| {
        assert (t + u)[j] == u[j - |t|];
      }
    }
  }

  // ---------------------------------------------------------------- times

  /** The reaper keeps a decided request for the retention time, counted from its first sight of it. */
  ghost predicate TimeOk(c: Config, q: Request, at: real, now: real) {
    && at <= now
    && (q.decidedAt.Some? ==> at <= q.decidedAt.value <= now)
    && (!q.retained ==> c.retention > 0.0 && q.decidedAt.Some? && now - q.decidedAt.value >= c.retention)
  }

  ghost predicate Times(c: Config, s: State) {
    && (forall k :: 0 <= k < |s.trace| && s.trace[k].Decided? && s.trace[k].rid < |s.reqs| ==>
          TimeOk(c, s.reqs[s.trace[k].rid], s.trace[k].at, s.now))
    && (forall k :: 0 <= k < |s.trace| && s.trace[k].Stored? ==> s.trace[k].at <= s.now)
  }

  // ---------------------------------------------------------------- cookies

  ghost predicate SameOwner(reqs: seq<Request>, i: nat, j: nat) {
    i < |reqs| && j < |reqs| && reqs[i].retained && reqs[j].retained
      && reqs[i].filing.cookie == reqs[j].filing.cookie && reqs[i].filing.cookie != ""
    ==> reqs[i].filing.filedBy == reqs[j].filing.filedBy
  }

  ghost predicate BoundToFiler(s: State, i: nat) {
    i < |s.reqs| && s.reqs[i].retained && s.reqs[i].filing.cookie in s.announced
    ==> s.announced[s.reqs[i].filing.cookie].sender == s.reqs[i].filing.filedBy
  }

  ghost predicate Cookies(s: State) {
    && "" !in s.announced
    && (forall i: nat, j: nat :: SameOwner(s.reqs, i, j))
    && (forall i: nat :: BoundToFiler(s, i))
    && |s.announced| <= POLKIT_MARKS_MAX && |s.cancelled| <= POLKIT_MARKS_MAX
  }

  // ---------------------------------------------------------------- together

  ghost predicate Inv(c: Config, s: State) {
    && Shapes(s)
    && Waiters(s)
    && Counts(s)
    && EventsOk(s.reqs, s.trace)
    && (c.auditRequired ==> AuditFirst(s.reqs, s.trace) && OutcomesBacked(s.reqs, s.trace))
    && Warranted(s.reqs, s.trace)
    && CacheOk(s)
    && Times(c, s)
    && Cookies(s)
  }

  lemma StartInv(c: Config, now: real)
    ensures Inv(c, Start(now))
  {
  }
}
