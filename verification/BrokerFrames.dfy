/** What single steps leave alone, and the promises that follow: who may change a decision, how long a cached
    row and a cookie binding last, and what a cancel does and does not do. */
module BrokerFrames {
  import opened Options
  import opened Cache
  import opened BrokerModel
  import opened BrokerInvariant
  import opened BrokerMoves
  import opened BrokerSteps
  import opened BrokerCauses

  /** Decided requests keep their decision and finisher. */
  ghost predicate SameDecided(a: seq<Request>, b: seq<Request>) {
    |a| <= |b| && forall i :: 0 <= i < |a| && a[i].decision.Some? ==>
          b[i].decision == a[i].decision && b[i].ticket == a[i].ticket
  }

  /** Nothing happens to decided requests, the cache or the bindings. */
  ghost predicate Calm(s: State, s': State) {
    SameDecided(s.reqs, s'.reqs) && s'.cache == s.cache && s'.announced == s.announced
  }

  lemma CalmFiling(c: Config, s: State, a: BrokerModel.Ask, e: World)
    ensures Calm(s, Enqueue(c, s, a, e).0)
    ensures Calm(s, RelayMessage(c, s, a, e))
  {
    CalmEnqueue(c, s, a, e);
    CalmEnqueue(c, s, a.(kind := Relay), e);
    var s1, filed := Enqueue(c, s, a.(kind := Relay), e).0, Enqueue(c, s, a.(kind := Relay), e).1;
    if filed.Queued? {
      var (s2, w) := Issue(s1, true);
      assert SameDecided(s1.reqs, Attend(s2, filed.rid, w).reqs);
    }
  }

  lemma CalmEnqueue(c: Config, s: State, a: BrokerModel.Ask, e: World)
    ensures Calm(s, Enqueue(c, s, a, e).0)
  {
    var s1 := RetireMark(s, a);
    assert s1.reqs == s.reqs && s1.cache == s.cache && s1.announced == s.announced;
    var s2 := Enqueue(c, s, a, e).0;
    assert forall i :: 0 <= i < |s.reqs| ==> s2.reqs[i] == s.reqs[i];
  }

  lemma CalmWait(s: State, rid: int, uid: int)
    ensures Calm(s, WaitForDecision(s, rid, uid))
  {
  }

  lemma CalmBegin(s: State, rid: int, allow: bool, scope: Scope, admin: int, startNow: int, auditOk: bool)
    ensures Calm(s, Begin(s, rid, allow, scope, admin, startNow, auditOk))
  {
  }

  lemma CalmHook(c: Config, s: State, rid: nat, h: HookAnswers)
    ensures Calm(s, ApplyHook(c, s, rid, h))
  {
  }

  lemma CalmReapOne(c: Config, s: State, rid: nat, audited: set<nat>)
    requires rid < |s.reqs|
    ensures Calm(s, ReapOne(c, s, rid, audited)) && |ReapOne(c, s, rid, audited).reqs| == |s.reqs|
  {
  }

  lemma {:induction false} CalmReapFrom(c: Config, s: State, from: nat, audited: set<nat>)
    requires from <= |s.reqs|
    ensures Calm(s, ReapFrom(c, s, from, audited))
    decreases |s.reqs| - from
  {
    if from < |s.reqs| {
      CalmReapOne(c, s, from, audited);
      CalmReapFrom(c, ReapOne(c, s, from, audited), from + 1, audited);
    }
  }

  lemma CalmLocalAuth(c: Config, s: State, cookie: string, hasIdentity: bool, sender: string, caller: Caller,
                      auditOk: bool, callOk: bool)
    ensures Calm(s, LocalAuth(c, s, cookie, hasIdentity, sender, caller, auditOk, callOk))
  {
  }

  lemma {:induction false} CalmCancelFrom(s: State, from: nat, cookie: string, sender: string, audited: set<nat>)
    requires from <= |s.reqs|
    ensures Calm(s, CancelFrom(s, from, cookie, sender, audited))
    ensures CancelFrom(s, from, cookie, sender, audited).cancelled == s.cancelled
    decreases |s.reqs| - from
  {
    if from < |s.reqs| {
      var s1 := CancelOne(s, from, cookie, sender, audited);
      assert Calm(s, s1) && |s1.reqs| == |s.reqs| && s1.cancelled == s.cancelled;
      CalmCancelFrom(s1, from + 1, cookie, sender, audited);
    }
  }

  lemma CalmCancel(s: State, cookie: string, sender: string, caller: Caller, audited: set<nat>, auditOk: bool)
    ensures var s' := Cancel(s, cookie, sender, caller, audited, auditOk);
            SameDecided(s.reqs, s'.reqs) && s'.cache == s.cache
    ensures var s' := Cancel(s, cookie, sender, caller, audited, auditOk);
            forall k :: k in s.announced && (k != cookie || s.announced[k].sender != sender)
                        && s.now - s.announced[k].at <= POLKIT_UNDECIDED_TTL ==>
              k in s'.announced && s'.announced[k] == s.announced[k]
  {
    var s1 := if cookie == "" then s else Prune(s, s.now);
    if cookie == "" || RoomForMark(s1, cookie) {
      var s3 := Unbind(NoteCancelled(s1, cookie, sender), cookie, sender);
      CalmCancelFrom(s3, 0, cookie, sender, audited);
    }
  }

  lemma CalmAnnounce(s: State, cookie: string, sender: string)
    ensures var s' := Announce(s, cookie, sender);
            && s'.reqs == s.reqs && s'.cache == s.cache
            && forall k :: k in s.announced && s.now - s.announced[k].at <= POLKIT_UNDECIDED_TTL ==>
                 k in s'.announced && s'.announced[k].sender == s.announced[k].sender
  {
  }

  lemma StoreFrame(s: State, rid: nat, g: Grant)
    ensures StoreGrant(s, rid, g).reqs == s.reqs && StoreGrant(s, rid, g).announced == s.announced
    ensures s.cache <= StoreGrant(s, rid, g).cache
  {
  }

  /** Finishing touches one request, may append to the cache and leaves the bindings. */
  lemma FinishFrame(c: Config, s: State, rid: nat, auditOk: bool, storeOk: bool)
    ensures var s' := Finish(c, s, rid, auditOk, storeOk);
            && |s'.reqs| == |s.reqs| && s'.announced == s.announced && s.cache <= s'.cache
            && (forall i :: 0 <= i < |s.reqs| && i != rid ==> s'.reqs[i] == s.reqs[i])
            && (rid < |s.reqs| && (auditOk || !c.auditRequired) ==> s'.reqs[rid].decision == s.reqs[rid].decision)
  {
    if rid < |s.reqs| && s.reqs[rid].ticket.Some? {
      var f, t := s.reqs[rid].filing, s.reqs[rid].ticket.value;
      StoreFrame(Log(s, AuditIf(auditOk,
                                AuditRow(f.uid, f.exe, f.action, t.allow, Some(t.scope), PromptSource, Some(rid)))),
                 rid, GrantOf(f, t));
    }
  }

  // ---------------------------------------------------------------- decisions

  predicate IsCalm(step: Step) {
    && !step.DoFinish? && !step.DoAnnounce? && !step.DoCancel?
    && !step.DoRevokeId? && !step.DoRevokeUid? && !step.DoCacheGc?
  }

  lemma CalmSteps(c: Config, s: State, step: Step)
    requires IsCalm(step)
    ensures Calm(s, Perform(c, s, step))
  {
    match step
    case DoEnqueue(a, e) => CalmFiling(c, s, a, e);
    case DoRelay(a, e, target, forwardOk) => CalmFiling(c, s, a, e);
    case DoWait(rid, uid) => CalmWait(s, rid, uid);
    case DoBegin(rid, allow, scope, admin, startNow, auditOk) =>
      CalmBegin(s, rid, allow, scope, admin, startNow, auditOk);
    case DoHook(rid, h) => CalmHook(c, s, rid, h);
    case DoReap(audited) => CalmReapFrom(c, s.(lastPass := s.now), 0, audited);
    case DoLocalAuth(cookie, hasIdentity, sender, caller, auditOk, callOk) =>
      CalmLocalAuth(c, s, cookie, hasIdentity, sender, caller, auditOk, callOk);
    case _ =>
  }

  lemma OtherStepsKeepDecisions(c: Config, s: State, step: Step)
    requires !step.DoFinish?
    ensures SameDecided(s.reqs, Perform(c, s, step).reqs)
  {
    if IsCalm(step) {
      CalmSteps(c, s, step);
    } else if step.DoAnnounce? {
      CalmAnnounce(s, step.cookie, step.sender);
    } else if step.DoCancel? {
      CalmCancel(s, step.cookie, step.sender, step.caller, step.audited, step.auditOk);
    }
  }

  /** The only thing that ever changes a decision is its own finisher losing the audit row, and it changes an
      allow into a deny. */
  lemma OnlyTheFinisherDowngrades(c: Config, s: State, t: Timed, rid: nat)
    requires Inv(c, s) && Possible(s, t) && rid < |s.reqs| && s.reqs[rid].decision.Some?
    ensures rid < |Next(c, s, t).reqs|
    ensures Next(c, s, t).reqs[rid].decision != s.reqs[rid].decision ==>
              && s.reqs[rid].decision == Some(true) && Next(c, s, t).reqs[rid].decision == Some(false)
              && t.step.DoFinish? && t.step.ticket == rid && !t.step.auditOk && c.auditRequired
  {
    NextIsGood(c, s, t);
    assert Evolves(s.reqs[rid], Next(c, s, t).reqs[rid]);
    var s0 := s.(now := t.at);
    if t.step.DoFinish? {
      FinishFrame(c, s0, t.step.ticket, t.step.auditOk, t.step.storeOk);
    } else {
      OtherStepsKeepDecisions(c, s0, t.step);
    }
  }

  /** When the audit row is lost, a request the reaper has dropped keeps its provisional "allow" in the object, and
      one still retained is set to "deny"; in both cases everyone is told "deny". */
  lemma LostRowDeniesEveryone(c: Config, s: State, rid: nat, storeOk: bool)
    requires Inv(c, s) && c.auditRequired && rid < |s.reqs| && s.reqs[rid].ticket.Some?
             && s.reqs[rid].ticket.value.allow
    ensures var s' := Finish(c, s, rid, false, storeOk);
            && Outcome(s'.reqs[rid]) == Some(false)
            && (s'.reqs[rid].decision == Some(false) <==> s.reqs[rid].retained)
            && s'.cache == s.cache
            && s'.trace == s.trace + AnswerAll(Owed(s.reqs[rid]), rid, false) + [Signalled(rid, false)]
  {
    assert Shape(s.reqs[rid]);
    assert s.trace + [] == s.trace;
    assert s.trace + (AnswerAll(Owed(s.reqs[rid]), rid, false) + [Signalled(rid, false)])
        == s.trace + AnswerAll(Owed(s.reqs[rid]), rid, false) + [Signalled(rid, false)];
  }

  // ---------------------------------------------------------------- cached rows

  predicate StepRevokes(step: Step, row: Row) {
    (step.DoRevokeId? && step.id == row.id) || (step.DoRevokeUid? && step.revoked == row.uid)
  }

  lemma RowOutlivesStep(c: Config, s: State, step: Step, row: Row)
    requires row in s.cache && row.expires.None? && !StepRevokes(step, row)
    ensures row in Perform(c, s, step).cache
  {
    if IsCalm(step) {
      CalmSteps(c, s, step);
    } else {
      match step
      case DoFinish(rid, auditOk, storeOk) => FinishFrame(c, s, rid, auditOk, storeOk);
      case DoAnnounce(cookie, sender) => CalmAnnounce(s, cookie, sender);
      case DoCancel(cookie, sender, caller, audited, auditOk) =>
        CalmCancel(s, cookie, sender, caller, audited, auditOk);
      case DoRevokeId(id) => DeletesKeepTheRest(s.cache, id, 0, 0);
      case DoRevokeUid(uid) => DeletesKeepTheRest(s.cache, 0, uid, 0);
      case DoCacheGc => DeletesKeepTheRest(s.cache, 0, 0, s.now.Floor);
    }
  }

  lemma {:induction false} RowOutlivesRun(c: Config, s: State, run: seq<Timed>, row: Row)
    requires row in s.cache && row.expires.None?
    requires forall i :: 0 <= i < |run| ==> !StepRevokes(run[i].step, row)
    ensures row in After(c, s, run).cache
    decreases |run|
  {
    if run != [] {
      assert !StepRevokes(run[0].step, row);
      RowOutlivesStep(c, s.(now := run[0].at), run[0].step, row);
      forall i | 0 <= i < |run[1..]| ensures !StepRevokes(run[1..][i].step, row) {
        assert run[1..][i] == run[i + 1];
      }
      RowOutlivesRun(c, Next(c, s, run[0]), run[1..], row);
    }
  }

  // ---------------------------------------------------------------- bindings

  ghost predicate BoundTo(s: State, cookie: string, sender: string) {
    cookie in s.announced && s.announced[cookie].sender == sender
  }

  lemma AnnounceKeepsBinding(s: State, announced: string, announcer: string, cookie: string, sender: string)
    requires BoundTo(s, cookie, sender) && s.now - s.announced[cookie].at <= POLKIT_UNDECIDED_TTL
    ensures BoundTo(Announce(s, announced, announcer), cookie, sender)
  {
    CalmAnnounce(s, announced, announcer);
  }

  lemma CancelKeepsBinding(s: State, cancelled: string, canceller: string, caller: Caller, audited: set<nat>,
                           auditOk: bool,
                           cookie: string, sender: string)
    requires BoundTo(s, cookie, sender) && s.now - s.announced[cookie].at <= POLKIT_UNDECIDED_TTL
    requires cancelled != cookie || canceller != sender
    ensures BoundTo(Cancel(s, cancelled, canceller, caller, audited, auditOk), cookie, sender)
  {
    CalmCancel(s, cancelled, canceller, caller, audited, auditOk);
  }

  lemma StepKeepsBinding(c: Config, s: State, step: Step, cookie: string, sender: string)
    requires BoundTo(s, cookie, sender) && s.now - s.announced[cookie].at <= POLKIT_UNDECIDED_TTL
    requires !(step.DoCancel? && step.cookie == cookie && step.sender == sender)
    ensures BoundTo(Perform(c, s, step), cookie, sender)
  {
    if IsCalm(step) {
      CalmSteps(c, s, step);
    } else if step.DoFinish? {
      FinishFrame(c, s, step.ticket, step.auditOk, step.storeOk);
    } else if step.DoAnnounce? {
      AnnounceKeepsBinding(s, step.cookie, step.sender, cookie, sender);
    } else if step.DoCancel? {
      CancelKeepsBinding(s, step.cookie, step.sender, step.caller, step.audited, step.auditOk, cookie, sender);
    }
  }

  /** A binding disappears only by age or by its own sender's cancel, and never changes hands. */
  lemma BindingsLast(c: Config, s: State, t: Timed, cookie: string)
    requires cookie in s.announced && !BoundTo(Next(c, s, t), cookie, s.announced[cookie].sender)
    ensures || t.at - s.announced[cookie].at > POLKIT_UNDECIDED_TTL
            || (t.step.DoCancel? && t.step.cookie == cookie && t.step.sender == s.announced[cookie].sender)
  {
    if t.at - s.announced[cookie].at <= POLKIT_UNDECIDED_TTL
       && !(t.step.DoCancel? && t.step.cookie == cookie && t.step.sender == s.announced[cookie].sender) {
      StepKeepsBinding(c, s.(now := t.at), t.step, cookie, s.announced[cookie].sender);
    }
  }

  /** An announcement binds the cookie exactly when nobody else owns it, its own cancel does not stand and there is
      room, or when it is bound to the sender already. */
  lemma AnnounceBinds(s: State, cookie: string, sender: string)
    requires cookie != ""
    ensures var p := Prune(s, s.now);
            BoundTo(Announce(s, cookie, sender), cookie, sender) <==>
              || BoundTo(p, cookie, sender)
              || (cookie !in p.announced && !FiledElsewhere(p, cookie, sender) && !MarkedBy(p, cookie, sender)
                  && |p.announced| < POLKIT_MARKS_MAX)
  {
  }

  /** A caller that is neither root, the administrator nor the requester learns nothing by waiting: what it is told
      does not depend on the request's verdict, and nothing else changes. */
  lemma StrangersLearnNothing(s: State, rid: nat, uid: int, other: Request)
    requires rid < |s.reqs| && s.reqs[rid].retained && other.retained && other.filing == s.reqs[rid].filing
    requires uid != 0 && uid != ADMIN_UID && uid != s.reqs[rid].filing.uid
    ensures WaitForDecision(s, rid, uid).trace == WaitForDecision(s.(reqs := s.reqs[rid := other]), rid, uid).trace
    ensures WaitForDecision(s, rid, uid).reqs == s.reqs
  {
  }

  // ---------------------------------------------------------------- cancels

  /** A sender with no filing and no binding of the cookie. */
  ghost predicate Stranger(s: State, cookie: string, sender: string) {
    && (forall i :: 0 <= i < |s.reqs| && s.reqs[i].retained && s.reqs[i].filing.cookie == cookie && cookie != "" ==>
          s.reqs[i].filing.filedBy != sender)
    && (cookie in s.announced ==> s.announced[cookie].sender != sender)
  }

  lemma {:induction false} CancelFromMisses(s: State, from: nat, cookie: string, sender: string, audited: set<nat>)
    requires from <= |s.reqs| && forall i :: 0 <= i < |s.reqs| ==> !CancelHits(s.reqs[i], cookie, sender)
    ensures CancelFrom(s, from, cookie, sender, audited) == s
    decreases |s.reqs| - from
  {
    if from < |s.reqs| {
      CancelFromMisses(s, from + 1, cookie, sender, audited);
    }
  }

  /** A stranger's cancel touches no request, callback, cached row or live binding, and marks nobody else. */
  lemma StrangersCancelIsHarmless(s: State, cookie: string, sender: string, caller: Caller, audited: set<nat>,
                                  auditOk: bool)
    requires Stranger(s, cookie, sender)
    ensures var s' := Cancel(s, cookie, sender, caller, audited, auditOk);
            && s'.reqs == s.reqs && s'.issued == s.issued && s'.trace == s.trace && s'.cache == s.cache
                && s'.now == s.now
            && (forall k :: k in s'.announced ==> k in s.announced && s'.announced[k] == s.announced[k])
            && (forall k :: k in s.announced && !Aged(s, s.announced[k].at) ==> k in s'.announced)
            && (forall k, owner :: owner != sender && MarkedBy(s', k, owner) ==> MarkedBy(s, k, owner))
            && (forall k, owner :: owner != sender && MarkedBy(s, k, owner) && !Aged(s, s.cancelled[k].at) ==>
                MarkedBy(s', k, owner))
            && (cookie != "" ==>
                  && (forall k :: k in s'.announced ==> !Aged(s, s.announced[k].at))
                  && (forall k, owner :: owner != sender && MarkedBy(s', k, owner) ==> !Aged(s, s.cancelled[k].at)))
            && (cookie == "" ==> s' == s)
  {
    var s1 := if cookie == "" then s else Prune(s, s.now);
    if cookie == "" || RoomForMark(s1, cookie) {
      var s2 := NoteCancelled(s1, cookie, sender);
      var s3 := Unbind(s2, cookie, sender);
      CancelFromMisses(s3, 0, cookie, sender, audited);
      assert s3 == s2;
    }
  }

  /** Past its time to live, but not yet pruned. */
  predicate Aged(s: State, at: real) { s.now - at > POLKIT_UNDECIDED_TTL }

  /** The owner's own cancel stands only by a mark that is past its time. */
  predicate MarkOverdue(s: State, cookie: string, owner: string) {
    MarkedBy(s, cookie, owner) && Aged(s, s.cancelled[cookie].at)
  }

  predicate FiledBy(s: State, cookie: string, owner: string) {
    var first := FirstWith(s, cookie, 0);
    first.Some? && s.reqs[first.value].filing.filedBy == owner
  }

  predicate BoundHere(s: State, cookie: string, owner: string) {
    cookie in s.announced && s.announced[cookie].sender == owner
  }

  /** May this sender have a response relayed for the cookie? */
  predicate MayRespond(s: State, cookie: string, owner: string) {
    !MarkedBy(s, cookie, owner) && Owns(s, cookie, owner)
  }

  /** Is the cookie another peer's, so that a filing is refused? */
  predicate Taken(s: State, cookie: string, owner: string) {
    BoundElsewhere(s, cookie, owner) || FiledElsewhere(s, cookie, owner)
  }

  /** After a stranger's cancel another sender's polkit filing is answered as before, except exactly when its own cancel
      stood by an overdue mark, and refused as before, except exactly when only an overdue binding refused it; the
      cancel, by pruning, removed that. */
  lemma StrangersCancelKeepsFilings(s: State, cookie: string, sender: string, caller: Caller, audited: set<nat>,
                                    auditOk: bool,
                                    a: BrokerModel.Ask, e: World)
    requires Stranger(s, cookie, sender) && a.kind.Polkit? && a.kind.sender != sender
    ensures var s' := Cancel(s, cookie, sender, caller, audited, auditOk);
            FilingVerdict(s', a, e, s.now) == FilingVerdict(s, a, e, s.now) <==>
              !(cookie != "" && MarkOverdue(s, a.kind.cookie, a.kind.sender))
    ensures var s', k, owner := Cancel(s, cookie, sender, caller, audited, auditOk), a.kind.cookie, a.kind.sender;
            Taken(s', k, owner) == Taken(s, k, owner) <==>
              !(cookie != "" && BoundElsewhere(s, k, owner) && Aged(s, s.announced[k].at)
                && !FiledElsewhere(s, k, owner))
  {
    StrangersCancelIsHarmless(s, cookie, sender, caller, audited, auditOk);
    SameFirst(s, Cancel(s, cookie, sender, caller, audited, auditOk), a.kind.cookie, 0);
  }

  /** The approval of another sender's filing is delivered as before, with the same exception. */
  lemma StrangersCancelKeepsApprovals(s: State, cookie: string, sender: string, caller: Caller, audited: set<nat>,
                                      auditOk: bool,
                                      rid: nat)
    requires Stranger(s, cookie, sender) && rid < |s.reqs|
    requires s.reqs[rid].filing.filedBy != sender && s.reqs[rid].filing.filedBy != "" && s.reqs[rid].filing.hasIdentity
    ensures var s', f := Cancel(s, cookie, sender, caller, audited, auditOk), s.reqs[rid].filing;
            |s'.reqs| == |s.reqs| && (Respond(s', rid) == Respond(s, rid) <==>
                                      !(cookie != "" && MarkOverdue(s, f.cookie, f.filedBy)))
  {
    StrangersCancelIsHarmless(s, cookie, sender, caller, audited, auditOk);
    var s', f := Cancel(s, cookie, sender, caller, audited, auditOk), s.reqs[rid].filing;
    assert MarkedBy(s', f.cookie, f.filedBy) <==>
          MarkedBy(s, f.cookie, f.filedBy) && !(cookie != "" && MarkOverdue(s, f.cookie, f.filedBy));
    assert |Respond(s, rid)| == (if MarkedBy(s, f.cookie, f.filedBy) then 0 else 1);
    assert |Respond(s', rid)| == (if MarkedBy(s', f.cookie, f.filedBy) then 0 else 1);
  }

  /** Another sender may respond as before, except exactly when only an overdue mark forbade it or only an overdue
      binding allowed it, and the cancel, by pruning, removed that. */
  lemma StrangersCancelKeepsRights(s: State, cookie: string, sender: string, caller: Caller, audited: set<nat>,
                                   auditOk: bool,
                                   k: string, owner: string)
    requires Stranger(s, cookie, sender) && owner != sender
    ensures var s' := Cancel(s, cookie, sender, caller, audited, auditOk);
            MayRespond(s', k, owner) == MayRespond(s, k, owner) <==>
              !(cookie != ""
                && (|| (MarkOverdue(s, k, owner)
                        && (FiledBy(s, k, owner) || (BoundHere(s, k, owner) && !Aged(s, s.announced[k].at))))
                    || (!MarkedBy(s, k, owner) && !FiledBy(s, k, owner)
                        && BoundHere(s, k, owner) && Aged(s, s.announced[k].at))))
  {
    StrangersCancelIsHarmless(s, cookie, sender, caller, audited, auditOk);
    SameFirst(s, Cancel(s, cookie, sender, caller, audited, auditOk), k, 0);
  }

  /** With the same rights, a local authentication does the same: same requests, same events. */
  lemma SameRightsSameEffect(c: Config, s: State, s': State, cookie: string, hasIdentity: bool, sender: string,
                             caller: Caller,
                             auditOk: bool, callOk: bool)
    requires s' == s.(cancelled := s'.cancelled, announced := s'.announced)
    requires MayRespond(s', cookie, sender) == MayRespond(s, cookie, sender)
    ensures var r, r' := LocalAuth(c, s, cookie, hasIdentity, sender, caller, auditOk, callOk),
                         LocalAuth(c, s', cookie, hasIdentity, sender, caller, auditOk, callOk);
            r'.reqs == r.reqs && r'.trace == r.trace
  {
    SameFirst(s, s', cookie, 0);
  }

  /** The exception happens: a mark 2000 seconds old still denies its owner's filing, and no longer does after a
      stranger's cancel of an unrelated cookie. */
  lemma OverdueMarkExample(a: BrokerModel.Ask, e: World, caller: Caller)
    requires a.kind == Polkit("k", true, ":1.1") && e.rules == []
    ensures var s := Start(2000.0).(cancelled := map["k" := Mark({":1.1"}, 0.0)]);
            var s' := Cancel(s, "z", ":1.2", caller, {}, true);
            && Stranger(s, "z", ":1.2")
            && FilingVerdict(s, a, e, s.now) == Closed(PolkitCancelSource, false, None)
            && FilingVerdict(s', a, e, s.now) == Open
  {
    var s := Start(2000.0).(cancelled := map["k" := Mark({":1.1"}, 0.0)]);
    var s1 := Prune(s, s.now);
    assert s1.cancelled == map[];
    CancelFromMisses(Unbind(NoteCancelled(s1, "z", ":1.2"), "z", ":1.2"), 0, "z", ":1.2", {});
  }

  /** The denial is signalled, everyone owed is told False, and the row is there if it could be written. */
  ghost predicate DenialShown(q: Request, rid: nat, source: Source, audited: set<nat>, t: seq<Event>) {
    && (forall w :: w in Owed(q) ==> Replied(w, Some(rid), false) in t)
    && Signalled(rid, false) in t
    && (rid in audited ==>
          Audited(AuditRow(q.filing.uid, q.filing.exe, q.filing.action, false, None, source, Some(rid))) in t)
  }

  lemma SettleShowsDenial(s: State, q: Request, rid: nat, source: Source, audited: set<nat>, decider: Decider)
    requires rid < |s.reqs| && q == s.reqs[rid]
    ensures var s1 := Log(s, AuditIf(rid in audited, DenyRow(q.filing, rid, source)));
            var s' := Settle(s1, rid, decider, false, false);
            s.trace <= s'.trace && DenialShown(q, rid, source, audited, s'.trace)
  {
    var row := DenyRow(q.filing, rid, source);
    var s' := Settle(Log(s, AuditIf(rid in audited, row)), rid, decider, false, false);
    AnswerAllReaches(Owed(q), rid, false);
    assert s'.trace == s.trace + AuditIf(rid in audited, row) + [Decided(rid, decider, false, s.now)]
                       + (AnswerAll(Owed(q), rid, false) + [Signalled(rid, false)]);
    assert s'.trace[|s'.trace| - 1] == Signalled(rid, false);
    if rid in audited {
      assert s'.trace[|s.trace|] == Audited(row);
    }
  }

  /** A filing the reaper finds past its time is denied, recorded and its waiters told so. */
  lemma {:induction false} ReapDeniesStale(c: Config, s: State, from: nat, audited: set<nat>, i: nat)
    requires from <= i < |s.reqs| && s.reqs[i].retained && Stale(s.reqs[i], s.now)
    ensures var s' := ReapFrom(c, s, from, audited);
            && i < |s'.reqs| && s'.reqs[i].decision == Some(false)
            && DenialShown(s.reqs[i], i, StaleReapSource, audited, s'.trace)
    decreases |s.reqs| - from
  {
    var s1, s' := ReapOne(c, s, from, audited), ReapFrom(c, s, from, audited);
    ReapOneIsPointwise(c, s, s, from, audited);
    ReapIsPointwise(c, s1, s1, from + 1, audited);
    if from == i {
      SettleShowsDenial(s, s.reqs[i], i, StaleReapSource, audited, ByStaleReap);
      var row := DenyRow(s.reqs[i].filing, i, StaleReapSource);
      assert s1.trace == Settle(Log(s, AuditIf(i in audited, row)), i, ByStaleReap, false, false).trace;
    } else {
      ReapDeniesStale(c, s1, from + 1, audited, i);
    }
  }

  /** What cancelling does to the requests from `from` on: every hit is denied, recorded and its waiters told so. */
  lemma {:induction false} CancelFromHits(s: State, from: nat, cookie: string, sender: string, audited: set<nat>)
    requires from <= |s.reqs|
    ensures var s' := CancelFrom(s, from, cookie, sender, audited);
            && |s'.reqs| == |s.reqs| && s.trace <= s'.trace
            && (forall i :: 0 <= i < from ==> s'.reqs[i] == s.reqs[i])
            && (forall i :: from <= i < |s.reqs| && CancelHits(s.reqs[i], cookie, sender) ==>
                  && s'.reqs[i] == s.reqs[i].(decision := Some(false), waiters := [])
                  && DenialShown(s.reqs[i], i, PolkitCancelSource, audited, s'.trace))
            && (forall i :: from <= i < |s.reqs| && !CancelHits(s.reqs[i], cookie, sender) ==> s'.reqs[i] == s.reqs[i])
    decreases |s.reqs| - from
  {
    if from < |s.reqs| {
      var s1 := CancelOne(s, from, cookie, sender, audited);
      CancelOneHit(s, from, cookie, sender, audited);
      CancelFromHits(s1, from + 1, cookie, sender, audited);
    }
  }

  lemma CancelOneHit(s: State, rid: nat, cookie: string, sender: string, audited: set<nat>)
    requires rid < |s.reqs|
    ensures var s' := CancelOne(s, rid, cookie, sender, audited);
            && |s'.reqs| == |s.reqs| && s.trace <= s'.trace
            && (forall i :: 0 <= i < |s.reqs| && i != rid ==> s'.reqs[i] == s.reqs[i])
            && (if CancelHits(s.reqs[rid], cookie, sender)
                then s'.reqs[rid] == s.reqs[rid].(decision := Some(false), waiters := [])
                     && DenialShown(s.reqs[rid], rid, PolkitCancelSource, audited, s'.trace)
                else s' == s)
  {
    if CancelHits(s.reqs[rid], cookie, sender) {
      SettleShowsDenial(s, s.reqs[rid], rid, PolkitCancelSource, audited, ByCancel(sender));
    }
  }

  /** Every retained filing of the cookie is decided afterwards; those that were open are denied, recorded, their
      waiters told. */
  ghost predicate FilingsDenied(s: State, s': State, cookie: string, audited: set<nat>) {
    && |s'.reqs| == |s.reqs|
    && forall i :: 0 <= i < |s.reqs| && s.reqs[i].retained && s.reqs[i].filing.cookie == cookie ==>
         && s'.reqs[i].decision.Some?
         && (s.reqs[i].decision.None? ==>
               && Outcome(s'.reqs[i]) == Some(false)
               && DenialShown(s.reqs[i], i, PolkitCancelSource, audited, s'.trace))
  }

  /** The owner's cancel is recorded exactly when the mark table has room once old marks are pruned.  Recorded, it
      denies every undecided filing of the cookie and tells its waiters, drops the binding and keeps the cookie dead
      for this sender; refused, it changes nothing but the pruning. */
  lemma OwnersCancel(c: Config, s: State, cookie: string, sender: string, caller: Caller, audited: set<nat>,
                     auditOk: bool)
    requires Inv(c, s) && cookie != "" && Owns(s, cookie, sender)
    ensures var s' := Cancel(s, cookie, sender, caller, audited, auditOk);
            && (MarkedBy(s', cookie, sender) <==> RoomForMark(Prune(s, s.now), cookie))
            && (!RoomForMark(Prune(s, s.now), cookie) ==> s' == Prune(s, s.now))
            && (RoomForMark(Prune(s, s.now), cookie) ==>
                  cookie !in s'.announced && FilingsDenied(s, s', cookie, audited))
  {
    var s1 := Prune(s, s.now);
    OwnersFilings(s, cookie, sender);
    if RoomForMark(s1, cookie) {
      var s3 := Unbind(NoteCancelled(s1, cookie, sender), cookie, sender);
      assert s3.reqs == s.reqs && s3.trace == s.trace && cookie !in s3.announced && MarkedBy(s3, cookie, sender);
      CalmCancelFrom(s3, 0, cookie, sender, audited);
      CancelDeniesFilings(s3, cookie, sender, audited);
      var s4, s' := CancelFrom(s3, 0, cookie, sender, audited), Cancel(s, cookie, sender, caller, audited, auditOk);
      assert s'.reqs == s4.reqs && s4.trace <= s'.trace && s'.announced == s4.announced && s'.cancelled == s4.cancelled;
    }
  }

  /** A cancel that ends a binding and finds no open filing is still recorded, once, if its row can be written. */
  lemma LoneCancelIsRecorded(s: State, cookie: string, sender: string, caller: Caller, audited: set<nat>, auditOk: bool)
    requires cookie != "" && RoomForMark(Prune(s, s.now), cookie) && BoundTo(Prune(s, s.now), cookie, sender)
    requires forall i :: 0 <= i < |s.reqs| ==> !CancelHits(s.reqs[i], cookie, sender)
    ensures var row := AuditRow(caller.uid, caller.exe, "polkit.local_auth", false, None, PolkitCancelSource, None);
            Cancel(s, cookie, sender, caller, audited, auditOk).trace == s.trace + AuditIf(auditOk, row)
  {
    var s2 := NoteCancelled(Prune(s, s.now), cookie, sender);
    var s3 := Unbind(s2, cookie, sender);
    CancelFromMisses(s3, 0, cookie, sender, audited);
    assert cookie in s2.announced && cookie !in s3.announced;
  }

  lemma CancelDeniesFilings(s: State, cookie: string, sender: string, audited: set<nat>)
    requires Shapes(s) && cookie != ""
    requires forall i :: 0 <= i < |s.reqs| && s.reqs[i].retained && s.reqs[i].filing.cookie == cookie ==>
             s.reqs[i].filing.filedBy == sender
    ensures FilingsDenied(s, CancelFrom(s, 0, cookie, sender, audited), cookie, audited)
  {
    CancelFromHits(s, 0, cookie, sender, audited);
    var s' := CancelFrom(s, 0, cookie, sender, audited);
    forall i | 0 <= i < |s.reqs| && s.reqs[i].retained && s.reqs[i].filing.cookie == cookie
      ensures s'.reqs[i].decision.Some?
      ensures s.reqs[i].decision.None? ==>
                && Outcome(s'.reqs[i]) == Some(false)
                && DenialShown(s.reqs[i], i, PolkitCancelSource, audited, s'.trace)
    {
      assert Shape(s.reqs[i]);
    }
  }

  /** Every retained filing and the binding of an owned cookie are the owner's. */
  lemma OwnersFilings(s: State, cookie: string, sender: string)
    requires Cookies(s) && Shapes(s) && cookie != "" && Owns(s, cookie, sender)
    ensures forall i :: 0 <= i < |s.reqs| && s.reqs[i].retained && s.reqs[i].filing.cookie == cookie ==>
             s.reqs[i].filing.filedBy == sender
    ensures cookie in s.announced ==> s.announced[cookie].sender == sender
  {
    OwnerIsFiler(s, cookie, sender);
    var first := FirstWith(s, cookie, 0);
    if first.Some? {
      assert BoundToFiler(s, first.value);
    }
    forall i | 0 <= i < |s.reqs| && s.reqs[i].retained && s.reqs[i].filing.cookie == cookie
        ensures s.reqs[i].filing.filedBy == sender {
      assert SameOwner(s.reqs, i, first.value);
    }
  }

  // ---------------------------------------------------------------- cancel marks

  lemma {:induction false} ReapKeepsMarks(c: Config, s: State, from: nat, audited: set<nat>)
    requires from <= |s.reqs|
    ensures ReapFrom(c, s, from, audited).cancelled == s.cancelled
    decreases |s.reqs| - from
  {
    if from < |s.reqs| {
      CalmReapOne(c, s, from, audited);
      ReapKeepsMarks(c, ReapOne(c, s, from, audited), from + 1, audited);
    }
  }

  lemma OtherStepsKeepMarks(c: Config, s: State, step: Step)
    requires !step.DoEnqueue? && !step.DoAnnounce? && !step.DoCancel?
    ensures Perform(c, s, step).cancelled == s.cancelled
  {
    if step.DoReap? {
      ReapKeepsMarks(c, s.(lastPass := s.now), 0, step.audited);
    }
  }

  /** A filing under a cancelled cookie by a sender outside its mark. */
  predicate RetiresMark(s: State, step: Step, cookie: string) {
    && step.DoEnqueue? && step.world.rateOk && step.ask.kind.Polkit? && step.ask.kind.cookie == cookie
    && !MarkedBy(s, cookie, step.ask.kind.sender)
  }

  lemma CancelKeepsMark(s: State, cancelled: string, canceller: string, caller: Caller, audited: set<nat>,
                        auditOk: bool,
                        cookie: string, sender: string)
    requires MarkedBy(s, cookie, sender) && s.now - s.cancelled[cookie].at <= POLKIT_UNDECIDED_TTL
    ensures MarkedBy(Cancel(s, cancelled, canceller, caller, audited, auditOk), cookie, sender)
  {
    var s1 := if cancelled == "" then s else Prune(s, s.now);
    if cancelled == "" || RoomForMark(s1, cancelled) {
      var s3 := Unbind(NoteCancelled(s1, cancelled, canceller), cancelled, canceller);
      CalmCancelFrom(s3, 0, cancelled, canceller, audited);
    }
  }

  /** A cancel mark disappears only by age or when a sender outside it files under the cookie, and that filing always
      removes it, whether or not the filing is then refused. */
  lemma MarksLast(c: Config, s: State, t: Timed, cookie: string, sender: string)
    requires MarkedBy(s, cookie, sender)
    ensures RetiresMark(s, t.step, cookie) ==> cookie !in Next(c, s, t).cancelled
    ensures !MarkedBy(Next(c, s, t), cookie, sender) ==>
              t.at - s.cancelled[cookie].at > POLKIT_UNDECIDED_TTL || RetiresMark(s, t.step, cookie)
  {
    var s0 := s.(now := t.at);
    if t.step.DoEnqueue? {
      var s' := Next(c, s, t);
      assert s'.cancelled == (if t.step.world.rateOk then RetireMark(s0, t.step.ask) else s0).cancelled;
    } else if t.step.DoCancel? {
      if t.at - s.cancelled[cookie].at <= POLKIT_UNDECIDED_TTL {
        CancelKeepsMark(s0, t.step.cookie, t.step.sender, t.step.caller, t.step.audited, t.step.auditOk, cookie,
                        sender);
      }
    } else if !t.step.DoAnnounce? {
      OtherStepsKeepMarks(c, s0, t.step);
    }
  }

  /** What a marked sender meets: its filings are denied or refused, and its own response is rejected. */
  lemma MarkedIsDenied(c: Config, s: State, cookie: string, sender: string, a: BrokerModel.Ask, e: World,
                       hasIdentity: bool, caller: Caller, auditOk: bool, callOk: bool)
    requires MarkedBy(s, cookie, sender)
    ensures a.kind.Polkit? && a.kind.cookie == cookie && a.kind.sender == sender && Enqueue(c, s, a, e).1.Queued? ==>
              Enqueue(c, s, a, e).0.reqs[|s.reqs|].decision == Some(false)
    ensures LocalAuth(c, s, cookie, hasIdentity, sender, caller, auditOk, callOk) == s
  {
  }

  /** Nothing is delivered for the sender among the events from `from` on. */
  ghost predicate Undelivered(t: seq<Event>, from: nat, cookie: string, sender: string) {
    forall k :: from <= k < |t| && t[k].Delivered? ==> !(t[k].cookie == cookie && t[k].sender == sender)
  }

  lemma MarkedStepDelivers(c: Config, s: State, t: Timed, cookie: string, sender: string)
    requires MarkedBy(s, cookie, sender)
    ensures s.trace <= Next(c, s, t).trace && Undelivered(Next(c, s, t).trace, |s.trace|, cookie, sender)
  {
    StepEventsAreCaused(c, s, t);
    forall k | |s.trace| <= k < |Next(c, s, t).trace| && Next(c, s, t).trace[k].Delivered?
      ensures !(Next(c, s, t).trace[k].cookie == cookie && Next(c, s, t).trace[k].sender == sender)
    {
      assert Causes(c, s.(now := t.at), t.step, Next(c, s, t).trace[k]);
    }
  }

  /** The mark is neither past its time at any step nor retired by one. */
  ghost predicate MarkStands(c: Config, s: State, run: seq<Timed>, cookie: string)
    decreases |run|
  {
    run != [] ==>
      && (cookie in s.cancelled ==> run[0].at - s.cancelled[cookie].at <= POLKIT_UNDECIDED_TTL)
      && !RetiresMark(s, run[0].step, cookie)
      && MarkStands(c, Next(c, s, run[0]), run[1..], cookie)
  }

  /** A cancelled cookie is dead: over every run in which the sender's mark is neither past its time nor retired, the
      mark stays and nothing is delivered for that sender under the cookie, whoever approves what. */
  lemma {:induction false} MarkedIsDead(c: Config, s: State, run: seq<Timed>, cookie: string, sender: string)
    requires MarkedBy(s, cookie, sender) && MarkStands(c, s, run, cookie)
    ensures MarkedBy(After(c, s, run), cookie, sender)
    ensures s.trace <= After(c, s, run).trace && Undelivered(After(c, s, run).trace, |s.trace|, cookie, sender)
    decreases |run|
  {
    if run != [] {
      var s1 := Next(c, s, run[0]);
      MarksLast(c, s, run[0], cookie, sender);
      MarkedStepDelivers(c, s, run[0], cookie, sender);
      MarkedIsDead(c, s1, run[1..], cookie, sender);
      var t := After(c, s1, run[1..]).trace;
      assert s1.trace == t[..|s1.trace|] && s.trace == s1.trace[..|s.trace|];
      forall k | |s.trace| <= k < |t| && t[k].Delivered? ensures !(t[k].cookie == cookie && t[k].sender == sender) {
        if k < |s1.trace| {
          assert t[k] == s1.trace[k];
        }
      }
    }
  }

  // ---------------------------------------------------------------- the times of marks and bindings

  /** Where a mark comes from: it was there, perhaps with one sender fewer, or this cancel made it. */
  ghost predicate MarkFrom(s: State, t: Timed, cookie: string, mark: Mark) {
    || (cookie in s.cancelled && mark == s.cancelled[cookie])
    || (&& t.step.DoCancel? && t.step.cookie == cookie
        && if cookie in s.cancelled && t.at - s.cancelled[cookie].at <= POLKIT_UNDECIDED_TTL
           then mark == Mark(s.cancelled[cookie].senders + {t.step.sender}, s.cancelled[cookie].at)
           else mark == Mark({t.step.sender}, t.at))
  }

  lemma StepDatesMarks(c: Config, s: State, t: Timed, cookie: string)
    requires cookie in Next(c, s, t).cancelled
    ensures MarkFrom(s, t, cookie, Next(c, s, t).cancelled[cookie])
  {
    var s0 := s.(now := t.at);
    if t.step.DoEnqueue? {
      assert Next(c, s, t).cancelled
          == (if t.step.world.rateOk then RetireMark(s0, t.step.ask) else s0).cancelled;
    } else if t.step.DoCancel? {
      CancelDatesMarks(s0, t.step.cookie, t.step.sender, t.step.caller, t.step.audited, t.step.auditOk);
    } else if !t.step.DoAnnounce? {
      OtherStepsKeepMarks(c, s0, t.step);
    }
  }

  lemma CancelDatesMarks(s: State, cookie: string, sender: string, caller: Caller, audited: set<nat>, auditOk: bool)
    ensures var s1 := if cookie == "" then s else Prune(s, s.now);
            Cancel(s, cookie, sender, caller, audited, auditOk).cancelled == NoteCancelled(s1, cookie, sender).cancelled
  {
    var s1 := if cookie == "" then s else Prune(s, s.now);
    if cookie == "" || RoomForMark(s1, cookie) {
      var s3 := Unbind(NoteCancelled(s1, cookie, sender), cookie, sender);
      CalmCancelFrom(s3, 0, cookie, sender, audited);
    }
  }

  /** Step `i` is a cancel of the cookie by this sender. */
  predicate Cancels(run: seq<Timed>, i: int, cookie: string, sender: string) {
    0 <= i < |run| && run[i].step.DoCancel? && run[i].step.cookie == cookie && run[i].step.sender == sender
  }

  /** The mark is as old as one of the cancels it records, and records no cancel from before that. */
  ghost predicate MarkDated(run: seq<Timed>, cookie: string, mark: Mark) {
    && (exists i, x :: x in mark.senders && Cancels(run, i, cookie, x) && run[i].at == mark.at)
    && (forall x :: x in mark.senders ==> exists i :: Cancels(run, i, cookie, x) && mark.at <= run[i].at)
  }

  lemma DatedLater(run: seq<Timed>, t: Timed, cookie: string, mark: Mark)
    requires MarkDated(run, cookie, mark)
    ensures MarkDated(run + [t], cookie, mark)
  {
    var all := run + [t];
    var i, x :| x in mark.senders && Cancels(run, i, cookie, x) && run[i].at == mark.at;
    assert Cancels(all, i, cookie, x) && all[i].at == mark.at;
    forall y | y in mark.senders ensures exists j :: Cancels(all, j, cookie, y) && mark.at <= all[j].at {
      var j :| Cancels(run, j, cookie, y) && mark.at <= run[j].at;
      assert Cancels(all, j, cookie, y) && all[j] == run[j];
    }
  }

  lemma CancelDated(run: seq<Timed>, t: Timed, cookie: string, before: Option<Mark>, mark: Mark)
    requires t.step.DoCancel? && t.step.cookie == cookie
    requires match before
             case None => mark == Mark({t.step.sender}, t.at)
             case Some(m) =>
               MarkDated(run, cookie, m) && m.at <= t.at && mark == Mark(m.senders + {t.step.sender}, m.at)
    ensures MarkDated(run + [t], cookie, mark)
  {
    var all, n := run + [t], |run|;
    assert all[n] == t && Cancels(all, n, cookie, t.step.sender);
    if before.Some? {
      DatedLater(run, t, cookie, before.value);
      var i, x :| x in before.value.senders && Cancels(all, i, cookie, x) && all[i].at == before.value.at;
      assert x in mark.senders;
      forall y | y in mark.senders ensures exists j :: Cancels(all, j, cookie, y) && mark.at <= all[j].at {
        if y !in before.value.senders {
          assert Cancels(all, n, cookie, y);
        }
      }
    }
  }

  /** Every mark of a state reached by the run, and no mark from the future. */
  ghost predicate MarksDated(run: seq<Timed>, s: State) {
    forall k :: k in s.cancelled ==> s.cancelled[k].at <= s.now && MarkDated(run, k, s.cancelled[k])
  }

  lemma NextDatesMarks(c: Config, s: State, run: seq<Timed>, t: Timed)
    requires MarksDated(run, s) && s.now <= t.at
    ensures MarksDated(run + [t], Next(c, s, t))
  {
    var s' := Next(c, s, t);
    assert s'.now == t.at by {
      if t.step.DoReap? {
        ReapIsPointwise(c, s.(now := t.at), s.(now := t.at, lastPass := t.at), 0, t.step.audited);
      } else {
        OtherStepsExplained(c, s.(now := t.at), t.step);
      }
    }
    forall k | k in s'.cancelled ensures s'.cancelled[k].at <= s'.now && MarkDated(run + [t], k, s'.cancelled[k]) {
      StepDatesMarks(c, s, t, k);
      var mark := s'.cancelled[k];
      if k in s.cancelled && mark == s.cancelled[k] {
        DatedLater(run, t, k, mark);
      } else if k in s.cancelled && t.at - s.cancelled[k].at <= POLKIT_UNDECIDED_TTL {
        CancelDated(run, t, k, Some(s.cancelled[k]), mark);
      } else {
        CancelDated(run, t, k, None, mark);
      }
    }
  }

  lemma {:induction false} RunDatesMarks(c: Config, s: State, past: seq<Timed>, run: seq<Timed>)
    requires MarksDated(past, s) && IsRun(c, s, run)
    ensures MarksDated(past + run, After(c, s, run))
    decreases |run|
  {
    if run == [] {
      assert past + run == past;
    } else {
      NextDatesMarks(c, s, past, run[0]);
      RunDatesMarks(c, Next(c, s, run[0]), past + [run[0]], run[1..]);
      assert past + [run[0]] + run[1..] == past + run;
    }
  }

  /** A mark carries the time of the first cancel it stands for: some sender in it cancelled the cookie then, and every
      sender in it then or later. */
  lemma {:induction false} MarkKeepsFirstTime(c: Config, start: real, run: seq<Timed>, cookie: string)
    requires IsRun(c, Start(start), run) && cookie in After(c, Start(start), run).cancelled
    ensures MarkDated(run, cookie, After(c, Start(start), run).cancelled[cookie])
  {
    RunDatesMarks(c, Start(start), [], run);
    assert [] + run == run;
  }

  /** A binding is as it was, or is this announcement's, dated now. */
  lemma StepDatesBindings(c: Config, s: State, t: Timed, cookie: string)
    requires cookie in Next(c, s, t).announced
    ensures var b := Next(c, s, t).announced[cookie];
            || (cookie in s.announced && b == s.announced[cookie])
            || (t.step.DoAnnounce? && t.step.cookie == cookie && b == Binding(t.step.sender, t.at))
  {
    var s0 := s.(now := t.at);
    if IsCalm(t.step) {
      CalmSteps(c, s0, t.step);
    } else if t.step.DoFinish? {
      FinishFrame(c, s0, t.step.ticket, t.step.auditOk, t.step.storeOk);
    } else if t.step.DoCancel? {
      CancelKeepsNoBinding(s0, t.step.cookie, t.step.sender, t.step.caller, t.step.audited, t.step.auditOk);
    }
  }

  /** Every binding is the announcement of its own sender, dated when that was made; `i` is negative for a binding that
      was there before the run. */
  lemma {:induction false} BindingIsAnAnnounce(c: Config, s: State, run: seq<Timed>, cookie: string) returns (i: int)
    requires cookie in After(c, s, run).announced
    ensures var b := After(c, s, run).announced[cookie];
            if i < 0 then cookie in s.announced && b == s.announced[cookie]
            else i < |run| && run[i] == Timed(b.at, DoAnnounce(cookie, b.sender))
    decreases |run|
  {
    i := -1;
    if run != [] {
      i := BindingIsAnAnnounce(c, Next(c, s, run[0]), run[1..], cookie);
      if i >= 0 {
        i := i + 1;
      } else {
        StepDatesBindings(c, s, run[0], cookie);
        if !(cookie in s.announced && After(c, s, run).announced[cookie] == s.announced[cookie]) {
          i := 0;
        }
      }
    }
  }

  lemma CancelKeepsNoBinding(s: State, cookie: string, sender: string, caller: Caller, audited: set<nat>, auditOk: bool)
    ensures var s' := Cancel(s, cookie, sender, caller, audited, auditOk);
            forall k :: k in s'.announced ==> k in s.announced && s'.announced[k] == s.announced[k]
  {
    var s1 := if cookie == "" then s else Prune(s, s.now);
    if cookie == "" || RoomForMark(s1, cookie) {
      CalmCancelFrom(Unbind(NoteCancelled(s1, cookie, sender), cookie, sender), 0, cookie, sender, audited);
    }
  }

  /** The owner's next announcement renews its binding, unless the owner has cancelled meanwhile. */
  lemma AnnounceRenews(c: Config, s: State, cookie: string, sender: string)
    requires Inv(c, s) && BoundTo(s, cookie, sender) && !Aged(s, s.announced[cookie].at) && !MarkedBy(s, cookie, sender)
    ensures Announce(s, cookie, sender).announced == Prune(s, s.now).announced[cookie := Binding(sender, s.now)]
  {
    var s1 := Prune(s, s.now);
    var first := FirstWith(s1, cookie, 0);
    if first.Some? {
      assert BoundToFiler(s, first.value);
    }
  }
}
