/** What each call of the broker promises its caller, told from the call's inputs and the state it meets. */
module BrokerCalls {
  import opened Options
  import opened Cache
  import opened BrokerModel
  import opened BrokerInvariant
  import opened BrokerMoves
  import opened BrokerCauses

  // ---------------------------------------------------------------- scopes

  ghost predicate StoresBlind(scope: Scope, argv: seq<string>) {
    StoredKind(scope, argv).Some? && ArgvBlind(StoredKind(scope, argv).value)
  }

  /** A delegated request is refused exactly the scopes that could leave an argv-blind row. */
  lemma DelegatedScopes(scope: Scope)
    ensures DelegatedForbidden(scope) <==> exists argv :: StoresBlind(scope, argv)
  {
    if DelegatedForbidden(scope) {
      assert StoresBlind(scope, []);
    }
  }

  /** An argv is demanded by exactly the scopes that could store nothing without one, so every allow under a scope other
      than "once" is storable. */
  lemma ArgvScopes(f: Filing, scope: Scope)
    ensures ArgvRequired(scope) <==> !scope.Once? && StoredKind(scope, []).None?
    ensures ScopeAllowed(f, true, scope) && !scope.Once? ==> StoredKind(scope, f.argv).Some?
  {
  }

  // ---------------------------------------------------------------- who is told what

  /** The events between two states. */
  function New(s: State, s': State): seq<Event> {
    if |s.trace| <= |s'.trace| then s'.trace[|s.trace|..] else []
  }

  lemma NewIs(s: State, s': State, u: seq<Event>)
    requires s'.trace == s.trace + u
    ensures New(s, s') == u && s.trace <= s'.trace
  {
  }

  /** Everyone in the list is told this value about the request, nobody is told anything else, and it is signalled. */
  ghost predicate Told(u: seq<Event>, rid: nat, ws: seq<Waiter>, value: bool) {
    && (forall w :: w in ws ==> Replied(w, Some(rid), value) in u)
    && (forall k :: 0 <= k < |u| && u[k].Replied? ==>
          u[k].about == Some(rid) && u[k].value == value && u[k].waiter in ws)
    && Signalled(rid, value) in u && Signalled(rid, !value) !in u
  }

  /** No response is relayed behind an answer. */
  ghost predicate RespondsFirst(u: seq<Event>) {
    forall j, k :: 0 <= j < k < |u| && u[k].Delivered? ==> !u[j].Replied? && !u[j].Forwarded?
  }

  /** A row about this request, or about none, with this verdict is among the events. */
  ghost predicate RowIn(u: seq<Event>, about: Option<nat>, allow: bool) {
    exists k :: 0 <= k < |u| && u[k].Audited? && u[k].entry.rid == about && u[k].entry.allow == allow
  }

  lemma RowInFront(u: seq<Event>, ok: bool, row: AuditRow)
    requires AuditIf(ok, row) <= u
    ensures ok ==> RowIn(u, row.rid, row.allow)
  {
    if ok {
      assert u[0] == AuditIf(ok, row)[0];
    }
  }

  lemma {:induction false} AnswerAllNames(ws: seq<Waiter>, rid: nat, value: bool)
    ensures forall k :: 0 <= k < |AnswerAll(ws, rid, value)| && AnswerAll(ws, rid, value)[k].Replied? ==>
             AnswerAll(ws, rid, value)[k].waiter in ws
  {
    if ws != [] {
      AnswerAllNames(ws[..|ws| - 1], rid, value);
    }
  }

  /** Events that tell nobody anything. */
  predicate Private(e: Event) { !e.Replied? && !e.Signalled? && !e.Forwarded? }

  lemma ReleaseTells(ws: seq<Waiter>, rid: nat, value: bool, signalFirst: bool)
    ensures Told(Release(ws, rid, value, signalFirst), rid, ws, value)
  {
    var u, answers := Release(ws, rid, value, signalFirst), AnswerAll(ws, rid, value);
    AnswerAllReaches(ws, rid, value);
    AnswerAllNames(ws, rid, value);
    AnswerAllShape(ws, rid, value);
    assert forall x :: x in u <==> x in answers || x == Signalled(rid, value);
    forall w | w in ws ensures Replied(w, Some(rid), value) in u {
      assert Replied(w, Some(rid), value) in answers;
    }
    forall k | 0 <= k < |u| && u[k].Replied?
      ensures u[k].about == Some(rid) && u[k].value == value && u[k].waiter in ws
    {
      assert u[k] == answers[if signalFirst then k - 1 else k];
    }
  }

  /** Private events in front change nothing about who is told what. */
  lemma ToldBehind(head: seq<Event>, tail: seq<Event>, rid: nat, ws: seq<Waiter>, value: bool)
    requires Told(tail, rid, ws, value) && forall k :: 0 <= k < |head| ==> Private(head[k])
    ensures Told(head + tail, rid, ws, value)
  {
    var u := head + tail;
    assert forall x :: x in u <==> x in head || x in tail;
    assert forall k :: 0 <= k < |head| ==> u[k] == head[k] && Private(head[k]);
    assert forall k :: |head| <= k < |u| ==> u[k] == tail[k - |head|];
    assert forall w :: w in ws ==> Replied(w, Some(rid), value) in tail;
  }

  lemma RespondsInFront(head: seq<Event>, tail: seq<Event>)
    requires forall k :: 0 <= k < |head| ==> Private(head[k])
    requires forall k :: 0 <= k < |tail| ==> !tail[k].Delivered?
    ensures RespondsFirst(head + tail)
  {
    var u := head + tail;
    forall k | |head| <= k < |u| ensures !u[k].Delivered? {
      assert u[k] == tail[k - |head|];
    }
    assert forall k :: 0 <= k < |head| ==> u[k] == head[k] && Private(head[k]);
  }

  /** What a decision and its release tell, behind private events. */
  lemma SettleTells(s: State, head: seq<Event>, rid: nat, decider: Decider, value: bool, signalFirst: bool)
    requires rid < |s.reqs| && forall k :: 0 <= k < |head| ==> Private(head[k])
    ensures var s' := Settle(Log(s, head), rid, decider, value, signalFirst);
            && s.trace <= s'.trace && head <= New(s, s')
            && Told(New(s, s'), rid, Owed(s.reqs[rid]), value) && RespondsFirst(New(s, s'))
  {
    var s', ws := Settle(Log(s, head), rid, decider, value, signalFirst), Owed(s.reqs[rid]);
    var all, tail := head + [Decided(rid, decider, value, s.now)], Release(ws, rid, value, signalFirst);
    assert s'.trace == s.trace + (all + tail);
    NewIs(s, s', all + tail);
    ReleaseTells(ws, rid, value, signalFirst);
    ToldBehind(all, tail, rid, ws, value);
    ReleaseShape(ws, rid, value, signalFirst);
    RespondsInFront(all, tail);
  }

  // ---------------------------------------------------------------- waiting

  /** A request that is not pending is answered False; a stranger is refused; a durable outcome is told; anything else
      parks the callback. */
  ghost predicate WaitPromise(s: State, rid: int, uid: int, s': State) {
    var w := Waiter(|s.issued|, false);
    && s' == s.(issued := s.issued + [w], reqs := s'.reqs, trace := s'.trace)
    && if !(0 <= rid < |s.reqs| && s.reqs[rid].retained)
       then s'.reqs == s.reqs && s'.trace == s.trace + [Replied(w, None, false)]
       else
         var q := s.reqs[rid];
         if uid !in {0, 1000, q.filing.uid} then s'.reqs == s.reqs && s'.trace == s.trace + [Refused(w)]
         else if q.decision.Some? && !q.finalizing
         then s'.reqs == s.reqs && s'.trace == s.trace + [Replied(w, Some(rid), q.decision.value)]
         else s'.reqs == s.reqs[rid := q.(waiters := q.waiters + [w])] && s'.trace == s.trace
  }

  lemma WaitKeepsPromise(s: State, rid: int, uid: int)
    ensures WaitPromise(s, rid, uid, WaitForDecision(s, rid, uid))
  {
  }

  /** Who may ask about a pending request is told its durable outcome, and is parked exactly while it has none. */
  lemma WaitTellsOutcome(c: Config, s: State, rid: nat, uid: int)
    requires Inv(c, s) && rid < |s.reqs| && s.reqs[rid].retained && uid in {0, 1000, s.reqs[rid].filing.uid}
    ensures var s', w := WaitForDecision(s, rid, uid), Waiter(|s.issued|, false);
            if Outcome(s.reqs[rid]).Some? then New(s, s') == [Replied(w, Some(rid), Outcome(s.reqs[rid]).value)]
            else New(s, s') == [] && w in Owed(s'.reqs[rid])
  {
    assert Shape(s.reqs[rid]);
    WaitKeepsPromise(s, rid, uid);
  }

  // ---------------------------------------------------------------- deciding

  /** An undecided request under a permitted scope takes exactly the administrator's verdict and scope, unless its
      caller is gone, which denies it; in every other case nothing changes. */
  ghost predicate BeginPromise(s: State, rid: int, allow: bool, scope: Scope, admin: int, startNow: int, auditOk: bool,
                               s': State, answer: Begun) {
    if !(0 <= rid < |s.reqs| && s.reqs[rid].retained) then answer == Unknown && s' == s
    else
      var q := s.reqs[rid];
      if q.decision.Some? then
        && s' == s
        && answer == if q.finalizing then Deciding else if q.decision == Some(true) then AlreadyAllow else AlreadyDeny
      else if !ScopeAllowed(q.filing, allow, scope) then answer == ScopeNotPermitted && s' == s
      else if Gone(q.filing, startNow) then
        && answer == CallerGone && Told(New(s, s'), rid, Owed(q), false)
        && (auditOk ==> RowIn(New(s, s'), Some(rid), false))
        && s' == s.(reqs := s.reqs[rid := q.(decision := Some(false), waiters := [])], trace := s'.trace)
      else
        && answer == Started && s'.trace == s.trace + [Decided(rid, ByAdmin(scope), allow, s.now)]
        && |s'.reqs| == |s.reqs| && s' == s.(reqs := s.reqs[rid := s'.reqs[rid]], trace := s'.trace)
        && s'.reqs[rid].decision == Some(allow) && Outcome(s'.reqs[rid]).None? && s'.reqs[rid].waiters == []
        && s'.reqs[rid].ticket == Some(Ticket(allow, scope, admin, q.waiters))
  }

  lemma BeginKeepsPromise(s: State, rid: int, allow: bool, scope: Scope, admin: int, startNow: int, auditOk: bool)
    ensures BeginPromise(s, rid, allow, scope, admin, startNow, auditOk,
                         Begin(s, rid, allow, scope, admin, startNow, auditOk),
                         BeginAnswer(s, rid, allow, scope, startNow))
  {
    if BeginAnswer(s, rid, allow, scope, startNow) == CallerGone {
      var f := s.reqs[rid].filing;
      var row := AuditRow(f.uid, f.exe, f.action, false, None, CallerGoneSource, Some(rid));
      SettleTells(s, AuditIf(auditOk, row), rid, ByCallerGone, false, true);
      RowInFront(New(s, Begin(s, rid, allow, scope, admin, startNow, auditOk)), auditOk, row);
    }
  }

  /** The filer itself, or an unnamed one, has cancelled the cookie. */
  predicate FilerCancelled(s: State, f: Filing) {
    f.cookie in s.cancelled && (f.filedBy == "" || f.filedBy in s.cancelled[f.cookie].senders)
  }

  /** With its row kept, the decision stands: everyone owed is told the verdict that was begun, an allow is stored as
      its scope says and relayed to polkit before anyone is told.  With a required row lost, everyone is told deny and
      nothing is stored or relayed. */
  ghost predicate FinishPromise(c: Config, s: State, rid: nat, auditOk: bool, storeOk: bool, s': State)
    requires rid < |s.reqs| && s.reqs[rid].ticket.Some?
  {
    var q, t := s.reqs[rid], s.reqs[rid].ticket.value;
    var f := q.filing;
    && |s'.reqs| == |s.reqs| && s'.reqs == s.reqs[rid := s'.reqs[rid]] && RespondsFirst(New(s, s')) && s'.now == s.now
    && Outcome(s'.reqs[rid]) == Some(t.allow && Kept(c, auditOk)) && (auditOk ==> RowIn(New(s, s'), Some(rid), t.allow))
    && if Kept(c, auditOk) then
         && s'.reqs[rid] == q.(ticket := None, waiters := [], finalizing := false)
         && Told(New(s, s'), rid, Owed(q), t.allow)
         && (Delivered(Some(rid), f.cookie, f.filedBy, false) in New(s, s') <==>
               t.allow && f.cookie != "" && f.hasIdentity && !FilerCancelled(s, f))
         && s'.cache == if t.allow && !f.oneShot && storeOk
                        then Store(s.cache, Grant(f.uid, f.action, f.exe, t.scope, true, t.admin, f.argv), s.now.Floor)
                        else s.cache
       else
         && Told(New(s, s'), rid, Owed(q), false) && s'.cache == s.cache
         && forall k :: 0 <= k < |New(s, s')| ==> !New(s, s')[k].Delivered?
  }

  /** A finisher's events: its row and what it stored, at most one response, and then the answers. */
  lemma FinishTells(head: seq<Event>, sent: seq<Event>, rid: nat, ws: seq<Waiter>, value: bool, d: Event)
    requires d.Delivered? && (sent == [] || sent == [d])
    requires forall k :: 0 <= k < |head| ==> head[k].Audited? || head[k].Stored?
    ensures var u := head + sent + Release(ws, rid, value, false);
            && Told(u, rid, ws, value) && RespondsFirst(u) && (d in u <==> sent != [])
            && (sent == [] ==> forall k :: 0 <= k < |u| ==> !u[k].Delivered?)
  {
    var tail := Release(ws, rid, value, false);
    var front := head + sent;
    ReleaseTells(ws, rid, value, false);
    ReleaseShape(ws, rid, value, false);
    assert forall k :: 0 <= k < |front| ==> Private(front[k]);
    ToldBehind(front, tail, rid, ws, value);
    RespondsInFront(front, tail);
    var u := front + tail;
    forall k | 0 <= k < |u| && sent == [] ensures !u[k].Delivered? {
      assert u[k] == if k < |head| then head[k] else tail[k - |head|];
    }
    if sent != [] {
      assert u[|head|] == d;
    }
  }

  /** The events before a finisher's answers: its row and what it stored. */
  function FinishHead(s: State, rid: nat, auditOk: bool, storeOk: bool): seq<Event>
    requires rid < |s.reqs| && s.reqs[rid].ticket.Some?
  {
    var f, t := s.reqs[rid].filing, s.reqs[rid].ticket.value;
    var g := GrantOf(f, t);
    AuditIf(auditOk, AuditRow(f.uid, f.exe, f.action, t.allow, Some(t.scope), PromptSource, Some(rid)))
      + (if t.allow && !f.oneShot && storeOk && StoredKind(g.scope, g.argv).Some?
         then [Stored(rid, g, RowFor(g, NewId(s.cache), s.now.Floor), s.now)] else [])
  }

  lemma StoreState(s: State, rows: seq<Event>, rid: nat, g: Grant, stores: bool)
    ensures var s2 := if stores then StoreGrant(Log(s, rows), rid, g) else Log(s, rows);
            var stored := if stores && StoredKind(g.scope, g.argv).Some?
                          then [Stored(rid, g, RowFor(g, NewId(s.cache), s.now.Floor), s.now)] else [];
            s2 == s.(cache := if stores then Store(s.cache, g, s.now.Floor) else s.cache,
                     trace := s.trace + (rows + stored))
  {
    assert rows + [] == rows;
    if stores && StoredKind(g.scope, g.argv).Some? {
      var e := Stored(rid, g, RowFor(g, NewId(s.cache), s.now.Floor), s.now);
      assert (s.trace + rows) + [e] == s.trace + (rows + [e]);
    }
  }

  lemma ConcludeBehind(s: State, head: seq<Event>, sent: seq<Event>, rid: nat, q: Request, value: bool)
    requires rid < |s.reqs|
    ensures var tail := Release(Owed(s.reqs[rid]), rid, value, false);
            Conclude(s.(trace := (s.trace + head) + sent), rid, q, value, false)
            == s.(reqs := s.reqs[rid := q], trace := s.trace + (head + sent + tail))
  {
    var tail := Release(Owed(s.reqs[rid]), rid, value, false);
    assert ((s.trace + head) + sent) + tail == s.trace + (head + sent + tail);
  }

  lemma FinishInParts(c: Config, s: State, rid: nat, q: Request, auditOk: bool, storeOk: bool, s2: State,
                      sent: seq<Event>)
    requires rid < |s.reqs| && q == s.reqs[rid] && q.ticket.Some? && Kept(c, auditOk)
    requires var f, t := q.filing, q.ticket.value;
             var row := AuditRow(f.uid, f.exe, f.action, t.allow, Some(t.scope), PromptSource, Some(rid));
             && s2 == (if t.allow && !f.oneShot && storeOk
                       then StoreGrant(Log(s, AuditIf(auditOk, row)), rid, GrantOf(f, t))
                       else Log(s, AuditIf(auditOk, row)))
             && |s2.reqs| == |s.reqs| && sent == if t.allow && f.cookie != "" then Respond(s2, rid) else []
    ensures Finish(c, s, rid, auditOk, storeOk)
         == Conclude(s2.(trace := s2.trace + sent), rid, q.(ticket := None, waiters := [], finalizing := false),
                     q.ticket.value.allow, false)
  {
    assert s2.trace + [] == s2.trace;
  }

  /** The state a finish leaves when its decision stands. */
  ghost predicate FinishedAs(s: State, s': State, rid: nat, q: Request, auditOk: bool, storeOk: bool)
    requires rid < |s.reqs| && q == s.reqs[rid] && q.ticket.Some?
  {
    var f, t := q.filing, q.ticket.value;
    var sent := if t.allow && f.cookie != "" && f.hasIdentity && !FilerCancelled(s, f)
                then [Delivered(Some(rid), f.cookie, f.filedBy, false)] else [];
    && s'.trace == s.trace + (FinishHead(s, rid, auditOk, storeOk) + sent + Release(Owed(q), rid, t.allow, false))
    && s'.reqs == s.reqs[rid := q.(ticket := None, waiters := [], finalizing := false)] && s'.now == s.now
    && s'.cache == if t.allow && !f.oneShot && storeOk then Store(s.cache, GrantOf(f, t), s.now.Floor) else s.cache
  }

  lemma KeptFinish(c: Config, s: State, rid: nat, q: Request, auditOk: bool, storeOk: bool)
    requires rid < |s.reqs| && q == s.reqs[rid] && q.ticket.Some? && Kept(c, auditOk)
    ensures FinishedAs(s, Finish(c, s, rid, auditOk, storeOk), rid, q, auditOk, storeOk)
  {
    var f, t := q.filing, q.ticket.value;
    var rows := AuditIf(auditOk, AuditRow(f.uid, f.exe, f.action, t.allow, Some(t.scope), PromptSource, Some(rid)));
    var stores := t.allow && !f.oneShot && storeOk;
    var s2 := if stores then StoreGrant(Log(s, rows), rid, GrantOf(f, t)) else Log(s, rows);
    StoreState(s, rows, rid, GrantOf(f, t), stores);
    var sent := if t.allow && f.cookie != "" then Respond(s2, rid) else [];
    FinishInParts(c, s, rid, q, auditOk, storeOk, s2, sent);
    ConcludeBehind(s.(cache := s2.cache), FinishHead(s, rid, auditOk, storeOk), sent, rid,
                   q.(ticket := None, waiters := [], finalizing := false), t.allow);
  }

  lemma LostFinish(c: Config, s: State, rid: nat, q: Request, storeOk: bool)
    requires rid < |s.reqs| && q == s.reqs[rid] && q.ticket.Some? && c.auditRequired && Shape(q)
    ensures var s' := Finish(c, s, rid, false, storeOk);
            && s'.trace == s.trace + ([] + [] + Release(Owed(q), rid, false, false)) && s'.cache == s.cache
            && |s'.reqs| == |s.reqs| && s'.reqs == s.reqs[rid := s'.reqs[rid]] && Outcome(s'.reqs[rid]) == Some(false)
            && s'.now == s.now
  {
  }

  lemma HeadHasRow(s: State, rid: nat, auditOk: bool, storeOk: bool, u: seq<Event>)
    requires rid < |s.reqs| && s.reqs[rid].ticket.Some? && FinishHead(s, rid, auditOk, storeOk) <= u
    ensures auditOk ==> RowIn(u, Some(rid), s.reqs[rid].ticket.value.allow)
  {
    if auditOk {
      assert u[0] == FinishHead(s, rid, auditOk, storeOk)[0];
    }
  }

  lemma KeptFinishTells(c: Config, s: State, rid: nat, q: Request, auditOk: bool, storeOk: bool, s': State)
    requires rid < |s.reqs| && q == s.reqs[rid] && q.ticket.Some? && Shape(q) && Kept(c, auditOk)
    requires FinishedAs(s, s', rid, q, auditOk, storeOk)
    ensures FinishPromise(c, s, rid, auditOk, storeOk, s')
  {
    var t, d := q.ticket.value, Delivered(Some(rid), q.filing.cookie, q.filing.filedBy, false);
    var delivers := t.allow && q.filing.cookie != "" && q.filing.hasIdentity && !FilerCancelled(s, q.filing);
    var head, sent := FinishHead(s, rid, auditOk, storeOk), if delivers then [d] else [];
    FinishTells(head, sent, rid, Owed(q), t.allow, d);
    NewIs(s, s', head + sent + Release(Owed(q), rid, t.allow, false));
    HeadHasRow(s, rid, auditOk, storeOk, New(s, s'));
  }

  lemma FinishKeepsPromise(c: Config, s: State, rid: nat, auditOk: bool, storeOk: bool)
    requires rid < |s.reqs| && s.reqs[rid].ticket.Some? && Shape(s.reqs[rid])
    ensures FinishPromise(c, s, rid, auditOk, storeOk, Finish(c, s, rid, auditOk, storeOk))
  {
    var q, s' := s.reqs[rid], Finish(c, s, rid, auditOk, storeOk);
    if Kept(c, auditOk) {
      KeptFinish(c, s, rid, q, auditOk, storeOk);
      KeptFinishTells(c, s, rid, q, auditOk, storeOk, s');
    } else {
      LostFinish(c, s, rid, q, storeOk);
      FinishTells([], [], rid, Owed(q), false, Delivered(Some(rid), q.filing.cookie, q.filing.filedBy, false));
      NewIs(s, s', [] + [] + Release(Owed(q), rid, false, false));
    }
  }

  // ---------------------------------------------------------------- filing

  /** The cookie is another peer's: bound to it, or its oldest pending filing is. */
  ghost predicate HeldByOther(s: State, cookie: string, sender: string) {
    || (cookie in s.announced && s.announced[cookie].sender != sender)
    || (cookie != "" && exists i: nat :: Oldest(s, cookie, Some(i)) && s.reqs[i].filing.filedBy != sender)
  }

  /** The stored request says what was asked. */
  ghost predicate AsAsked(a: Ask, now: real, f: Filing) {
    && f.uid == a.caller.uid && f.pid == a.caller.pid && f.exe == a.caller.exe && f.startTime == a.caller.startTime
    && f.action == a.action && f.argv == a.argv && f.createdAt == now
    && (f.delegated <==> a.kind.Delegated?) && (f.oneShot <==> a.kind.Relay? || a.kind.Polkit?)
    && if a.kind.Polkit? then f.cookie == a.kind.cookie && f.filedBy == a.kind.sender
                              && (f.hasIdentity <==> a.kind.hasIdentity)
       else f.cookie == "" && f.filedBy == "" && !f.hasIdentity
  }

  /** How a filing is decided at once, if it is: a polkit one denied by its filer's own cancel or by any denying rule; a
      relay never; a direct or delegated one by the first matching rule, and without one by the best approval, where a
      required row that is lost turns an allow into a deny. */
  ghost predicate FilingAnswer(c: Config, s: State, a: Ask, e: World, decision: Option<bool>) {
    match a.kind
    case Polkit(cookie, _, sender) =>
      decision == if MarkedBy(s, cookie, sender) || false in e.rules then Some(false) else None
    case Relay => decision.None?
    case _ =>
      if e.rules != [] then decision == Some(e.rules[0] && Kept(c, e.auditOk))
      else exists best :: && Optimal(s.cache, AskedOf(a, e), s.now.Floor, best)
                          && decision == match best
                                         case None => None
                                         case Some(row) => Some(row.decision && Kept(c, e.auditOk))
  }

  ghost predicate FilingPromise(c: Config, s: State, a: Ask, e: World, s': State, filed: Filed) {
    && (filed.RateLimited? <==> !e.rateOk)
    && (filed.AccessDenied? <==> e.rateOk && a.kind.Polkit? && HeldByOther(s, a.kind.cookie, a.kind.sender))
    && s' == s.(reqs := s'.reqs, trace := s'.trace, cancelled := s'.cancelled) && s.trace <= s'.trace
    && (!filed.Queued? ==> s'.reqs == s.reqs && Prompted(|s.reqs|) !in New(s, s'))
    && (filed.RateLimited? && e.auditOk ==> RowIn(New(s, s'), None, false))
    && (filed.Queued? ==>
          && filed.rid == |s.reqs| && |s'.reqs| == |s.reqs| + 1 && s'.reqs[..|s.reqs|] == s.reqs
          && var q := s'.reqs[|s.reqs|];
             && AsAsked(a, s.now, q.filing) && FilingAnswer(c, s, a, e, q.decision)
             && q.retained && q.waiters == [] && q.ticket.None? && !q.finalizing && q.decidedAt.None?
             && (q.hooked <==> q.decision.None? && !q.filing.oneShot && e.hookStarts)
             && (q.decision.None? ==> New(s, s') == if q.hooked then [] else [Prompted(|s.reqs|)])
             && (q.decision.Some? ==> Prompted(|s.reqs|) !in New(s, s'))
             && (q.decision.Some? && e.auditOk ==> RowIn(New(s, s'), Some(|s.reqs|), q.decision.value)))
  }

  lemma TakenIsHeldByOther(s: State, cookie: string, sender: string)
    ensures HeldByOther(s, cookie, sender) <==> BoundElsewhere(s, cookie, sender) || FiledElsewhere(s, cookie, sender)
  {
    var first := FirstWith(s, cookie, 0);
    FirstIsOldest(s, cookie, first);
    forall i: nat ensures Oldest(s, cookie, Some(i)) <==> Some(i) == first {
      FirstIsOldest(s, cookie, Some(i));
    }
  }

  lemma VerdictAnswers(c: Config, s: State, a: Ask, e: World)
    requires Ordered(s.cache)
    ensures var v := FilingVerdict(s, a, e, s.now);
            FilingAnswer(c, s, a, e, if v.Open? then None else Some(v.allow && Kept(c, e.auditOk)))
  {
    var found := Lookup(s.cache, AskedOf(a, e), s.now.Floor);
    LookupIsOptimal(s.cache, AskedOf(a, e), s.now.Floor);
    assert Optimal(s.cache, AskedOf(a, e), s.now.Floor, found);
  }

  /** What a filing makes of its verdict. */
  ghost predicate Admitted(c: Config, s: State, a: Ask, e: World, verdict: Verdict, s': State) {
    && s' == s.(reqs := s'.reqs, trace := s'.trace) && s.trace <= s'.trace
    && |s'.reqs| == |s.reqs| + 1 && s'.reqs[..|s.reqs|] == s.reqs
    && var q := s'.reqs[|s.reqs|];
       && AsAsked(a, s.now, q.filing)
       && q.decision == (if verdict.Open? then None else Some(verdict.allow && Kept(c, e.auditOk)))
       && q.retained && q.waiters == [] && q.ticket.None? && !q.finalizing && q.decidedAt.None?
       && (q.hooked <==> q.decision.None? && !q.filing.oneShot && e.hookStarts)
       && (q.decision.None? ==> New(s, s') == if q.hooked then [] else [Prompted(|s.reqs|)])
       && (q.decision.Some? ==> Prompted(|s.reqs|) !in New(s, s'))
       && (q.decision.Some? && e.auditOk ==> RowIn(New(s, s'), Some(|s.reqs|), q.decision.value))
  }

  lemma AdmitAdmits(c: Config, s: State, a: Ask, e: World, verdict: Verdict)
    ensures Admitted(c, s, a, e, verdict, Admit(c, s, a, e, verdict))
  {
    var s' := Admit(c, s, a, e, verdict);
    assert s'.reqs[..|s.reqs|] == s.reqs;
    if verdict.Closed? {
      var u := s'.trace[|s.trace|..];
      assert s'.trace == s.trace + u && New(s, s') == u;
      assert e.auditOk ==> u[0].Audited?;
    }
  }

  lemma LimitedKeepsPromise(c: Config, s: State, a: Ask, e: World)
    requires !e.rateOk
    ensures FilingPromise(c, s, a, e, Enqueue(c, s, a, e).0, Enqueue(c, s, a, e).1)
  {
    var row := AuditRow(a.caller.uid, a.caller.exe, a.action, false, None, RateLimitSource, None);
    NewIs(s, Enqueue(c, s, a, e).0, AuditIf(e.auditOk, row));
    RowInFront(AuditIf(e.auditOk, row), e.auditOk, row);
  }

  lemma AdmittedKeepsPromise(c: Config, s: State, s1: State, a: Ask, e: World, verdict: Verdict, s': State)
    requires e.rateOk && s1 == s.(cancelled := s1.cancelled) && Admitted(c, s1, a, e, verdict, s')
    requires a.kind.Polkit? ==> !HeldByOther(s, a.kind.cookie, a.kind.sender)
    requires FilingAnswer(c, s, a, e, if verdict.Open? then None else Some(verdict.allow && Kept(c, e.auditOk)))
    ensures FilingPromise(c, s, a, e, s', Queued(|s.reqs|))
  {
    assert New(s1, s') == New(s, s');
  }

  lemma EnqueueKeepsPromise(c: Config, s: State, a: Ask, e: World)
    requires Ordered(s.cache)
    ensures FilingPromise(c, s, a, e, Enqueue(c, s, a, e).0, Enqueue(c, s, a, e).1)
  {
    if !e.rateOk {
      LimitedKeepsPromise(c, s, a, e);
    } else {
      var s1, verdict := RetireMark(s, a), FilingVerdict(s, a, e, s.now);
      if a.kind.Polkit? {
        SameFirst(s, s1, a.kind.cookie, 0);
        TakenIsHeldByOther(s, a.kind.cookie, a.kind.sender);
      }
      if Enqueue(c, s, a, e).1.Queued? {
        VerdictAnswers(c, s, a, e);
        AdmitAdmits(c, s1, a, e, verdict);
        AdmittedKeepsPromise(c, s, s1, a, e, verdict, Admit(c, s1, a, e, verdict));
      }
    }
  }

  /** A cross-silo message within its rate becomes a one-shot request that waits for the administrator, with the
      forwarding callback parked on it; over its rate it is refused. */
  ghost predicate RelayPromise(s: State, a: Ask, e: World, s': State) {
    var w := Waiter(|s.issued|, true);
    && s' == s.(reqs := s'.reqs, trace := s'.trace, issued := s.issued + [w]) && s.trace <= s'.trace
    && if !e.rateOk then s'.reqs == s.reqs && Refused(w) in New(s, s') && Prompted(|s.reqs|) !in New(s, s')
       else
         && New(s, s') == [Prompted(|s.reqs|)] && |s'.reqs| == |s.reqs| + 1 && s'.reqs[..|s.reqs|] == s.reqs
         && var q := s'.reqs[|s.reqs|];
            && AsAsked(a.(kind := Relay), s.now, q.filing) && q.waiters == [w]
            && q.retained && q.decision.None? && q.ticket.None? && !q.finalizing && q.decidedAt.None? && !q.hooked
  }

  lemma RelayKeepsPromise(c: Config, s: State, a: Ask, e: World)
    ensures RelayPromise(s, a, e, RelayMessage(c, s, a, e))
  {
    var a', s' := a.(kind := Relay), RelayMessage(c, s, a, e);
    if e.rateOk {
      AdmitAdmits(c, s, a', e, Open);
      var s1 := Admit(c, s, a', e, Open);
      assert s'.reqs[..|s.reqs|] == s1.reqs[..|s.reqs|];
    } else {
      var u := AuditIf(e.auditOk, AuditRow(a.caller.uid, a.caller.exe, a.action, false, None, RateLimitSource, None))
               + [Refused(Waiter(|s.issued|, true))];
      assert s'.trace == s.trace + u;
      NewIs(s, s', u);
      assert u[|u| - 1] == Refused(Waiter(|s.issued|, true));
    }
  }

  // ---------------------------------------------------------------- the gate

  /** The gate's four answers: over the rate, the first matching rule, the best approval of an action that may use it,
      or unknown; a required row that is lost turns an allow into a deny. */
  ghost predicate GatePromise(c: Config, s: State, a: Ask, e: World, s': State, answer: GateAnswer) {
    var q := Query(a.caller.uid, a.action, a.caller.exe, a.rawArgv, e.sandboxed);
    && s' == s.(trace := s'.trace) && s.trace <= s'.trace
    && (e.auditOk && answer.GateVerdict? ==> RowIn(New(s, s'), None, answer.allow))
    && if !e.rateOk then answer == GateLimited
       else if e.rules != [] then answer == GateVerdict(e.rules[0] && Kept(c, e.auditOk))
       else if RulesOnly(a.action) then answer == GateUnknown
       else exists best :: && Optimal(s.cache, q, s.now.Floor, best)
                           && answer == match best
                                        case None => GateUnknown
                                        case Some(row) => GateVerdict(row.decision && Kept(c, e.auditOk))
  }

  lemma CheckKeepsPromise(c: Config, s: State, a: Ask, e: World)
    requires Ordered(s.cache)
    ensures GatePromise(c, s, a, e, CheckPermission(c, s, a, e).0, CheckPermission(c, s, a, e).1)
  {
    var q := Query(a.caller.uid, a.action, a.caller.exe, a.rawArgv, e.sandboxed);
    var s', answer := CheckPermission(c, s, a, e).0, CheckPermission(c, s, a, e).1;
    assert s.trace <= s'.trace;
    if e.auditOk && answer.GateVerdict? {
      assert New(s, s')[0].Audited?;
    }
    LookupIsOptimal(s.cache, q, s.now.Floor);
    assert Optimal(s.cache, q, s.now.Floor, Lookup(s.cache, q, s.now.Floor));
  }

  // ---------------------------------------------------------------- the hook

  /** A query without a verdict leaves the request to the prompt; one with a verdict decides it by the source that says
      so, and everyone waiting is told; for a request decided or dropped meanwhile nothing happens. */
  ghost predicate HookPromise(c: Config, s: State, rid: nat, h: HookAnswers, s': State)
    requires rid < |s.reqs|
  {
    var q := s.reqs[rid];
    && |s'.reqs| == |s.reqs| && s' == s.(reqs := s.reqs[rid := s'.reqs[rid]], trace := s'.trace)
    && if !q.retained || q.decision.Some? then s'.reqs[rid] == q.(hooked := false) && s'.trace == s.trace
       else if h.verdict.None? then s'.reqs[rid] == q.(hooked := false) && s'.trace == s.trace + [Prompted(rid)]
       else
         exists source, value ::
           && HookSays(s, q.filing, h, Kept(c, h.auditOk), source, value)
           && s'.reqs[rid] == q.(hooked := false, decision := Some(value), waiters := [])
           && Told(New(s, s'), rid, Owed(q), value)
           && (h.auditOk ==> RowIn(New(s, s'), if source.HookSource? then Some(rid) else None, value))
  }

  lemma HookSettles(c: Config, s: State, rid: nat, h: HookAnswers, q: Request, row: AuditRow) returns (head: seq<Event>)
    requires rid < |s.reqs| && q == s.reqs[rid] && q.hooked && q.retained && q.decision.None? && h.verdict.Some?
    requires row == HookRow(Unhook(s, rid), rid, h)
    ensures AuditIf(h.auditOk, row) <= head && forall k :: 0 <= k < |head| ==> Private(head[k])
    ensures ApplyHook(c, s, rid, h)
         == Settle(Log(Unhook(s, rid), head), rid, ByHook(row.source), row.allow && Kept(c, h.auditOk), true)
  {
    var (events, stands) := RecordCheck(c, h.auditOk, row);
    var s2 := Log(Unhook(s, rid), events);
    if stands && q.filing.cookie != "" {
      head := events + Respond(s2, rid);
      assert (s.trace + events) + Respond(s2, rid) == s.trace + head;
    } else {
      head := events;
    }
  }

  lemma HookDecidesTells(c: Config, s: State, rid: nat, h: HookAnswers, q: Request, row: AuditRow)
    requires rid < |s.reqs| && q == s.reqs[rid] && q.hooked && q.retained && q.decision.None? && h.verdict.Some?
    requires row == HookRow(Unhook(s, rid), rid, h)
    ensures var s', value := ApplyHook(c, s, rid, h), row.allow && Kept(c, h.auditOk);
            && s'.reqs == s.reqs[rid := q.(hooked := false, decision := Some(value), waiters := [])]
            && Told(New(s, s'), rid, Owed(q), value) && s' == s.(reqs := s'.reqs, trace := s'.trace)
            && (h.auditOk ==> RowIn(New(s, s'), row.rid, value))
  {
    var head := HookSettles(c, s, rid, h, q, row);
    SettleTells(Unhook(s, rid), head, rid, ByHook(row.source), row.allow && Kept(c, h.auditOk), true);
    var u := New(s, ApplyHook(c, s, rid, h));
    assert u == New(Unhook(s, rid), ApplyHook(c, s, rid, h)) && AuditIf(h.auditOk, row) <= u;
    RowInFront(u, h.auditOk, row);
  }

  lemma HookKeepsPromise(c: Config, s: State, rid: nat, h: HookAnswers)
    requires rid < |s.reqs| && s.reqs[rid].hooked
    ensures HookPromise(c, s, rid, h, ApplyHook(c, s, rid, h))
  {
    var q := s.reqs[rid];
    if q.retained && q.decision.None? && h.verdict.Some? {
      var row := HookRow(Unhook(s, rid), rid, h);
      assert row == HookRow(s, rid, h);
      HookRowSays(s, rid, h, Kept(c, h.auditOk));
      HookDecidesTells(c, s, rid, h, q, row);
    }
  }

  // ---------------------------------------------------------------- local authentication

  /** The sender filed the cookie's oldest pending request, or the cookie is bound to it. */
  ghost predicate Holds(s: State, cookie: string, about: Option<nat>, sender: string) {
    || (about.Some? && about.value < |s.reqs| && s.reqs[about.value].filing.filedBy == sender)
    || (cookie in s.announced && s.announced[cookie].sender == sender)
  }

  /** A local authentication has an effect: the cookie is held and neither cancelled nor denied, an identity fits, and a
      required row is written. */
  ghost predicate Effective(c: Config, s: State, cookie: string, hasIdentity: bool, sender: string, auditOk: bool,
                            about: Option<nat>) {
    && !MarkedBy(s, cookie, sender) && Holds(s, cookie, about, sender) && hasIdentity && Kept(c, auditOk)
    && (about.Some? ==> about.value < |s.reqs| && s.reqs[about.value].decision != Some(false))
  }

  /** Nothing at all happens for a cancelled, foreign or already denied cookie, without an identity, or with a required
      row lost.  Otherwise the response is relayed once, before anyone is told, and if polkit takes it an open filing is
      allowed and everyone waiting on it is told True. */
  ghost predicate RespondPromise(c: Config, s: State, cookie: string, hasIdentity: bool, sender: string, auditOk: bool,
                                 callOk: bool, about: Option<nat>, s': State) {
    && Oldest(s, cookie, about)
    && if !Effective(c, s, cookie, hasIdentity, sender, auditOk, about) then s' == s
       else
         && |s'.reqs| == |s.reqs| && s' == s.(reqs := s'.reqs, trace := s'.trace) && s.trace <= s'.trace
         && Delivered(about, cookie, sender, true) in New(s, s') && RespondsFirst(New(s, s'))
         && (auditOk ==> RowIn(New(s, s'), about, true))
         && if about.Some? && s.reqs[about.value].decision.None? && callOk
            then
              var q := s.reqs[about.value];
              && s'.reqs == s.reqs[about.value := q.(decision := Some(true), waiters := [])]
              && Told(New(s, s'), about.value, Owed(q), true)
            else s'.reqs == s.reqs && forall k :: 0 <= k < |New(s, s')| ==> Private(New(s, s')[k])
  }

  /** The relayed response, and the open filing it settles. */
  lemma RelayTells(s: State, head: seq<Event>, about: Option<nat>, cookie: string, sender: string, settles: bool)
    requires head == [] || (|head| == 1 && head[0].Audited?)
    requires settles ==> about.Some? && about.value < |s.reqs|
    ensures var d := Delivered(about, cookie, sender, true);
            var s1 := Log(s, head + [d]);
            var s' := if settles then Settle(s1, about.value, ByLocalAuth(sender), true, false) else s1;
            && s.trace <= s'.trace && d in New(s, s') && RespondsFirst(New(s, s')) && head <= New(s, s')
            && if settles then Told(New(s, s'), about.value, Owed(s.reqs[about.value]), true)
               else forall k :: 0 <= k < |New(s, s')| ==> Private(New(s, s')[k])
  {
    var d := Delivered(about, cookie, sender, true);
    var all, s1 := head + [d], Log(s, head + [d]);
    assert forall k :: 0 <= k < |all| ==> Private(all[k]);
    assert all[|head|] == d;
    if settles {
      SettleTells(s, all, about.value, ByLocalAuth(sender), true, false);
      var s' := Settle(s1, about.value, ByLocalAuth(sender), true, false);
      assert New(s, s')[|head|] == all[|head|] && head <= all;
    } else {
      NewIs(s, s1, all);
    }
  }

  lemma LocalAuthCases(c: Config, s: State, cookie: string, hasIdentity: bool, sender: string, caller: Caller,
                       auditOk: bool, callOk: bool, first: Option<nat>)
    requires first == FirstWith(s, cookie, 0)
    ensures var s' := LocalAuth(c, s, cookie, hasIdentity, sender, caller, auditOk, callOk);
            var action := if first.Some? then s.reqs[first.value].filing.action else "polkit.local_auth";
            var row := AuditRow(caller.uid, caller.exe, action, true, Some(Once), LocalAuthSource, first);
            var s1 := Log(s, AuditIf(auditOk, row) + [Delivered(first, cookie, sender, true)]);
            s' == if !Effective(c, s, cookie, hasIdentity, sender, auditOk, first) then s
                  else if first.Some? && s.reqs[first.value].decision.None? && callOk
                  then Settle(s1, first.value, ByLocalAuth(sender), true, false) else s1
  {
  }

  lemma RespondKeepsPromise(c: Config, s: State, cookie: string, hasIdentity: bool, sender: string, caller: Caller,
                            auditOk: bool, callOk: bool)
    ensures RespondPromise(c, s, cookie, hasIdentity, sender, auditOk, callOk, FirstWith(s, cookie, 0),
                           LocalAuth(c, s, cookie, hasIdentity, sender, caller, auditOk, callOk))
  {
    var first := FirstWith(s, cookie, 0);
    FirstIsOldest(s, cookie, first);
    var action := if first.Some? then s.reqs[first.value].filing.action else "polkit.local_auth";
    var row := AuditRow(caller.uid, caller.exe, action, true, Some(Once), LocalAuthSource, first);
    LocalAuthCases(c, s, cookie, hasIdentity, sender, caller, auditOk, callOk, first);
    var settles := first.Some? && s.reqs[first.value].decision.None? && callOk;
    RelayTells(s, AuditIf(auditOk, row), first, cookie, sender, settles);
    if Effective(c, s, cookie, hasIdentity, sender, auditOk, first) {
      RowInFront(New(s, LocalAuth(c, s, cookie, hasIdentity, sender, caller, auditOk, callOk)), auditOk, row);
    }
  }
}
