/** The broker as the source has it: request objects with mutable fields, shared between the pending map and the
    calls still working on them, and methods that update them in place.  Each method is one step of `BrokerModel`:
    `model` is the state that step leaves, so every sequence of calls is a run. */
module BrokerObjects {
  import opened Options
  import opened Cache
  import opened BrokerModel
  import opened BrokerInvariant
  import opened BrokerMoves
  import opened BrokerCauses
  import opened BrokerCalls
  import RateLimit
  import opened BrokerDenials

  /** The events that leave the broker; taking a decision is a change of fields only. */
  function Visible(t: seq<Event>): seq<Event> {
    if t == [] then []
    else Visible(t[..|t| - 1]) + (if t[|t| - 1].Decided? then [] else [t[|t| - 1]])
  }

  lemma {:induction false} VisibleConcat(t: seq<Event>, u: seq<Event>)
    ensures Visible(t + u) == Visible(t) + Visible(u)
  {
    if u == [] {
      assert t + u == t;
    } else {
      assert (t + u)[..|t + u| - 1] == t + u[..|u| - 1];
      VisibleConcat(t, u[..|u| - 1]);
    }
  }

  lemma {:induction false} VisibleAll(u: seq<Event>)
    requires forall k :: 0 <= k < |u| ==> !u[k].Decided?
    ensures Visible(u) == u
  {
    if u != [] {
      VisibleAll(u[..|u| - 1]);
    }
  }

  class PendingRequest {
    const filing: Filing
    var decision: Option<bool>
    var finalizing: bool
    var waiters: seq<Waiter>
    var decidedAt: Option<real>

    constructor (filing: Filing, decision: Option<bool>)
      ensures this.filing == filing && this.decision == decision
      ensures !finalizing && waiters == [] && decidedAt.None?
    {
      this.filing := filing;
      this.decision := decision;
      finalizing := false;
      waiters := [];
      decidedAt := None;
    }

    ghost predicate Mirrors(q: Request)
      reads this
    {
      && filing == q.filing && decision == q.decision && finalizing == q.finalizing
      && waiters == q.waiters && decidedAt == q.decidedAt
      && (q.decision.None? ==> q.ticket.None?)
    }
  }

  /** The local variables of a `DecideRequest` that has recorded its decision and not yet finished. */
  datatype Finisher = Finisher(rid: nat, req: PendingRequest, allow: bool, scope: Scope, admin: int,
                               waiters: seq<Waiter>)

  datatype Finished = Applied | AppliedUncached | AuditUnavailable

  /** How a polkit relay method ends. */
  datatype RelayReply = Done | NotOwner | TooManyMarks | NoIdentity | RowLost | CallFailed

  /** Which of the replies a local authentication gets: a cancelled or already denied cookie is quietly dropped. */
  function LocalAuthReply(c: Config, s: State, cookie: string, hasIdentity: bool, sender: string, auditOk: bool,
                          callOk: bool): RelayReply {
    var first := FirstWith(s, cookie, 0);
    if MarkedBy(s, cookie, sender) then Done
    else if !Owns(s, cookie, sender) then NotOwner
    else if first.Some? && s.reqs[first.value].decision == Some(false) then Done
    else if !hasIdentity then NoIdentity
    else if !auditOk && c.auditRequired then RowLost
    else if callOk then Done
    else CallFailed
  }

  /** A foreign cookie, a missing identity and a lost row are each reported; the reply is "done" exactly when the cookie
      was cancelled or denied before, or the response was relayed and taken. */
  lemma LocalAuthReplies(c: Config, s: State, cookie: string, hasIdentity: bool, sender: string, auditOk: bool,
                         callOk: bool, about: Option<nat>)
    requires Oldest(s, cookie, about)
    ensures var reply := LocalAuthReply(c, s, cookie, hasIdentity, sender, auditOk, callOk);
            var effective := Effective(c, s, cookie, hasIdentity, sender, auditOk, about);
            var marked, holds := MarkedBy(s, cookie, sender), Holds(s, cookie, about, sender);
            var denied := about.Some? && s.reqs[about.value].decision == Some(false);
            && (reply.NotOwner? <==> !marked && !holds) && (reply.CallFailed? <==> effective && !callOk)
            && (reply.Done? <==> marked || (holds && denied) || (effective && callOk))
            && (reply.NoIdentity? <==> !marked && holds && !denied && !hasIdentity)
            && (reply.RowLost? <==> !marked && holds && !denied && hasIdentity && !Kept(c, auditOk))
  {
    FirstIsOldest(s, cookie, about);
  }

  predicate BoundHere(s: State, cookie: string, sender: string) {
    cookie in s.announced && s.announced[cookie].sender == sender
  }

  /** Which of the replies an announcement gets. */
  function AnnounceReply(s: State, cookie: string, sender: string): RelayReply {
    var s1 := Prune(s, s.now);
    if cookie == "" then Done
    else if BoundElsewhere(s1, cookie, sender) || FiledElsewhere(s1, cookie, sender) then NotOwner
    else if MarkedBy(s1, cookie, sender) then Done
    else if cookie !in s1.announced && |s1.announced| >= POLKIT_MARKS_MAX then TooManyMarks
    else Done
  }

  /** An announcement is refused exactly when another peer holds the cookie; it is accepted exactly when afterwards the
      cookie is bound to the sender or, held by nobody else, dead by the sender's own cancel; else the table is full. */
  lemma AnnounceReplies(s: State, cookie: string, sender: string)
    requires cookie != ""
    ensures var reply, s' := AnnounceReply(s, cookie, sender), Announce(s, cookie, sender);
            && (reply.NotOwner? <==> HeldByOther(s', cookie, sender))
            && (reply.Done? <==>
                  !reply.NotOwner? && (BoundHere(s', cookie, sender) || MarkedBy(s', cookie, sender)))
            && (reply.Done? || reply.NotOwner? || (reply.TooManyMarks? && |s'.announced| >= POLKIT_MARKS_MAX))
  {
    var s1, s' := Prune(s, s.now), Announce(s, cookie, sender);
    TakenIsHeldByOther(s1, cookie, sender);
    TakenIsHeldByOther(s', cookie, sender);
    SameFirst(s1, s', cookie, 0);
  }

  ghost predicate Distinct(objects: seq<PendingRequest>) {
    forall i, j :: 0 <= i < j < |objects| ==> objects[i] != objects[j]
  }

  /** The pending map holds exactly the retained requests, each under its id. */
  ghost predicate InMap(pending: map<nat, PendingRequest>, objects: seq<PendingRequest>, reqs: seq<Request>)
    requires |objects| == |reqs|
  {
    && (forall i: nat :: i in pending <==> i < |objects| && reqs[i].retained)
    && (forall i: nat :: i in pending ==> pending[i] == objects[i])
  }

  lemma InMapAppend(pending: map<nat, PendingRequest>, objects: seq<PendingRequest>, reqs: seq<Request>,
                    o: PendingRequest, q: Request)
    requires |objects| == |reqs| && InMap(pending, objects, reqs) && q.retained && Distinct(objects) && o !in objects
    ensures InMap(pending[|objects| := o], objects + [o], reqs + [q]) && Distinct(objects + [o])
  {
  }

  function Without(pending: map<nat, PendingRequest>, rid: nat): map<nat, PendingRequest> {
    map k | k in pending && k != rid :: pending[k]
  }

  lemma InMapRemove(pending: map<nat, PendingRequest>, objects: seq<PendingRequest>, reqs: seq<Request>, rid: nat)
    requires |objects| == |reqs| && InMap(pending, objects, reqs) && rid < |reqs|
    ensures InMap(Without(pending, rid), objects, reqs[rid := reqs[rid].(retained := false)])
  {
  }

  class Broker {
    const config: Config
    const cache: ApprovalCache
    var pending: map<nat, PendingRequest>
    var nextId: nat
    var cancelled: map<string, Mark>
    var announced: map<string, Binding>
    /** What the broker did: audit rows written, callbacks called, signals and messages sent, cache rows stored. */
    var events: seq<Event>
    /** Every request object ever made, by id. */
    ghost var objects: seq<PendingRequest>
    ghost var model: State

    /** The fields agree with the model, except perhaps those of request `but`. */
    ghost predicate ValidBut(but: int)
      reads this, cache, objects
    {
      ValidButCache(but) && cache.Valid() && cache.rows == model.cache
    }

    /** All but the two mark maps. */
    ghost predicate ValidButMarks()
      reads this, cache, objects
    {
      && cache.Valid() && cache.rows == model.cache && events == Visible(model.trace)
      && nextId == |objects| == |model.reqs| && Distinct(objects) && InMap(pending, objects, model.reqs)
      && (forall i :: 0 <= i < |objects| ==> objects[i].Mirrors(model.reqs[i]))
    }

    ghost predicate ValidButCache(but: int)
      reads this, objects
    {
      && cancelled == model.cancelled && announced == model.announced
      && events == Visible(model.trace)
      && nextId == |objects| == |model.reqs|
      && Distinct(objects)
      && (forall i :: 0 <= i < |objects| && i != but ==> objects[i].Mirrors(model.reqs[i]))
      && InMap(pending, objects, model.reqs)
    }

    ghost predicate Valid()
      reads this, cache, objects
    {
      exists but :: but == -1 && ValidBut(but)
    }

    /** The model takes over what request `rid` has become. */
    ghost method Sync(rid: nat, q: Request)
      requires ValidBut(rid) && rid < |objects| && objects[rid].Mirrors(q) && q.retained == model.reqs[rid].retained
      modifies this`model
      ensures Valid() && model == old(model).(reqs := old(model).reqs[rid := q])
    {
      model := model.(reqs := model.reqs[rid := q]);
      assert ValidBut(-1);
    }

    /** The model moves on in what no field mirrors: the clock, the callbacks handed in, the last pass. */
    ghost method Adopt(now: real, issued: seq<Waiter>, lastPass: real)
      requires Valid()
      modifies this`model
      ensures Valid() && model == old(model).(now := now, issued := issued, lastPass := lastPass)
    {
      model := model.(now := now, issued := issued, lastPass := lastPass);
      assert ValidBut(-1);
    }

    ghost method NoteDecision(rid: nat, decider: Decider, value: bool)
      requires Valid()
      modifies this`model
      ensures Valid() && model == Log(old(model), [Decided(rid, decider, value, old(model).now)])
    {
      VisibleConcat(model.trace, [Decided(rid, decider, value, model.now)]);
      model := Log(model, [Decided(rid, decider, value, model.now)]);
      assert ValidBut(-1);
    }

    method Emit(u: seq<Event>)
      requires Valid() && forall k :: 0 <= k < |u| ==> !u[k].Decided?
      modifies this`events, this`model
      ensures Valid() && model == Log(old(model), u)
    {
      VisibleConcat(model.trace, u);
      VisibleAll(u);
      events := events + u;
      model := Log(model, u);
      assert ValidBut(-1);
    }

    constructor (config: Config, now: real)
      ensures Valid() && model == Start(now) && fresh(cache) && this.config == config
    {
      this.config := config;
      cache := new ApprovalCache();
      pending, nextId, cancelled, announced, events := map[], 0, map[], map[], [];
      objects, model := [], Start(now);
      new;
      assert ValidBut(-1);
    }

    /** Calls every waiter of a list; a relay waiter that gets True forwards its message. */
    static method CallBack(ws: seq<Waiter>, rid: nat, value: bool) returns (calls: seq<Event>)
      ensures calls == AnswerAll(ws, rid, value)
    {
      calls := [];
      var i := 0;
      while i < |ws|
        invariant 0 <= i <= |ws| && calls == AnswerAll(ws[..i], rid, value)
      {
        assert ws[..i + 1][..i] == ws[..i];
        calls := calls + [Replied(ws[i], Some(rid), value)];
        if value && ws[i].relay {
          calls := calls + [Forwarded(ws[i], rid)];
        }
        i := i + 1;
      }
      assert ws[..|ws|] == ws;
    }

    method AnswerEach(ws: seq<Waiter>, rid: nat, value: bool)
      requires Valid()
      modifies this`events, this`model
      ensures Valid() && model == Log(old(model), AnswerAll(ws, rid, value))
    {
      AnswerAllShape(ws, rid, value);
      var calls := CallBack(ws, rid, value);
      Emit(calls);
    }

    /** The first pending request that carries the cookie, oldest first. */
    method FindFiled(cookie: string) returns (found: Option<nat>)
      requires Valid()
      ensures found == FirstWith(model, cookie, 0)
      ensures found.Some? ==> found.value in pending
    {
      var i := 0;
      while i < nextId
        invariant 0 <= i <= nextId && FirstWith(model, cookie, 0) == FirstWith(model, cookie, i)
      {
        if i in pending && pending[i].filing.cookie == cookie {
          return Some(i);
        }
        i := i + 1;
      }
      return None;
    }

    /** A decided request answers at once; an undecided or provisional one parks the callback. */
    method Attend(req: PendingRequest, rid: nat, w: Waiter)
      requires Valid() && rid < |objects| && objects[rid] == req
      modifies this`events, this`model, req
      ensures Valid() && model == BrokerModel.Attend(old(model), rid, w)
    {
      ghost var q := model.reqs[rid];
      assert req.Mirrors(q);
      if req.decision.Some? && !req.finalizing {
        AnswerEach([w], rid, req.decision.value);
        AnswerOne(w, rid, req.decision.value);
      } else {
        req.waiters := req.waiters + [w];
        Sync(rid, q.(waiters := req.waiters));
      }
    }

    /** `WaitForDecision`; `w` is the caller's reply callback. */
    method WaitForDecision(now: real, rid: int, uid: int, w: Waiter)
      requires Valid() && model.now <= now && w == Waiter(|model.issued|, false)
      modifies this, objects
      ensures Valid() && objects == old(objects)
      ensures model == BrokerModel.WaitForDecision(old(model).(now := now), rid, uid)
      ensures WaitPromise(old(model).(now := now), rid, uid, model)
    {
      WaitKeepsPromise(model.(now := now), rid, uid);
      Adopt(now, model.issued + [w], model.lastPass);
      if rid < 0 || rid !in pending {
        Emit([Replied(w, None, false)]);
        return;
      }
      var req := pending[rid];
      if uid != 0 && uid != ADMIN_UID && uid != req.filing.uid {
        Emit([Refused(w)]);
      } else {
        Attend(req, rid, w);
      }
    }

    /** Everyone in the list is called back and the outcome is signalled. */
    method ReleaseAll(ws: seq<Waiter>, rid: nat, value: bool, signalFirst: bool)
      requires Valid()
      modifies this`events, this`model
      ensures Valid() && model == Log(old(model), Release(ws, rid, value, signalFirst))
    {
      ghost var s := model;
      if signalFirst {
        Emit([Signalled(rid, value)]);
        AnswerEach(ws, rid, value);
        LogTwice(s, [Signalled(rid, value)], AnswerAll(ws, rid, value));
      } else {
        AnswerEach(ws, rid, value);
        Emit([Signalled(rid, value)]);
        LogTwice(s, AnswerAll(ws, rid, value), [Signalled(rid, value)]);
      }
    }

    /** A decision is recorded in a request and everyone parked on it is called back. */
    method Settle(req: PendingRequest, rid: nat, ghost decider: Decider, value: bool, signalFirst: bool)
      requires Valid() && rid < |objects| && objects[rid] == req && req.decision.None?
      modifies this`events, this`model, req
      ensures Valid() && model == BrokerModel.Settle(old(model), rid, decider, value, signalFirst)
    {
      ghost var q := model.reqs[rid];
      assert req.Mirrors(q);
      req.decision := Some(value);
      var waiters := req.waiters;
      req.waiters := [];
      Sync(rid, q.(decision := Some(value), waiters := []));
      NoteDecision(rid, decider, value);
      ReleaseAll(waiters, rid, value, signalFirst);
      SettleInParts(old(model), rid, decider, value, signalFirst);
    }

    /** What `DecideRequest` answers, as far as the request itself decides it. */
    method Screen(rid: int, allow: bool, scope: Scope, startNow: int) returns (answer: Begun)
      requires Valid()
      ensures answer == BeginAnswer(model, rid, allow, scope, startNow)
      ensures answer == Started || answer == CallerGone ==>
                0 <= rid < |objects| && rid in pending && pending[rid] == objects[rid] && pending[rid].decision.None?
    {
      if rid < 0 || rid !in pending {
        return Unknown;
      }
      var req := pending[rid];
      assert req.Mirrors(model.reqs[rid]);
      if req.decision.Some? {
        return if req.finalizing then Deciding else if req.decision.value then AlreadyAllow else AlreadyDeny;
      }
      if req.filing.delegated && DelegatedForbidden(scope) {
        return ScopeNotPermitted;
      }
      if req.filing.oneShot && !scope.Once? {
        return ScopeNotPermitted;
      }
      if allow && ArgvRequired(scope) && req.filing.argv == [] {
        return ScopeNotPermitted;
      }
      if !req.filing.delegated && req.filing.pid > 0 {
        if req.filing.startTime != 0 && startNow != 0 && startNow != req.filing.startTime {
          return CallerGone;
        }
      }
      return Started;
    }

    /** The decision is recorded as provisional and the waiters are taken over. */
    method Record(rid: nat, req: PendingRequest, allow: bool, scope: Scope, admin: int) returns (f: Finisher)
      requires Valid() && rid < |objects| && objects[rid] == req
      modifies this`model, req
      ensures CanFinish(f) && f.rid == rid && f.allow == allow && f.scope == scope && f.admin == admin
      ensures rid < |old(model).reqs|
      ensures var s, q := old(model), old(model).reqs[rid];
              var t := Ticket(allow, scope, admin, q.waiters);
              model == s.(reqs := s.reqs[rid := q.(decision := Some(allow), finalizing := true, waiters := [],
                                                   ticket := Some(t))],
                          trace := s.trace + [Decided(rid, ByAdmin(scope), allow, s.now)])
    {
      ghost var q := model.reqs[rid];
      assert req.Mirrors(q);
      req.decision := Some(allow);
      req.finalizing := true;
      var waiters := req.waiters;
      req.waiters := [];
      Sync(rid, q.(decision := Some(allow), finalizing := true, waiters := [],
                   ticket := Some(Ticket(allow, scope, admin, waiters))));
      NoteDecision(rid, ByAdmin(scope), allow);
      f := Finisher(rid, req, allow, scope, admin, waiters);
    }

    /** The process that asked is not the one now under its pid. */
    method DenyGone(req: PendingRequest, rid: nat, ghost allow: bool, ghost scope: Scope, ghost admin: int,
                    ghost startNow: int,
                    auditOk: bool)
      requires Valid() && rid < |objects| && objects[rid] == req && req.decision.None?
      requires BeginAnswer(model, rid, allow, scope, startNow) == CallerGone
      modifies this`events, this`model, req
      ensures Valid()
      ensures model == Begin(old(model), rid, allow, scope, admin, startNow, auditOk)
    {
      var f := req.filing;
      Emit(AuditIf(auditOk, AuditRow(f.uid, f.exe, f.action, false, None, CallerGoneSource, Some(rid))));
      Settle(req, rid, ByCallerGone, false, true);
    }

    /** Screens a decision, and records it or denies the request. */
    method TakeDecision(now: real, rid: int, allow: bool, scope: Scope, admin: int, startNow: int, auditOk: bool)
      returns (answer: Begun, finisher: Option<Finisher>)
      requires Valid() && model.now <= now
      modifies this, objects
      ensures Valid() && objects == old(objects)
      ensures answer == BeginAnswer(old(model).(now := now), rid, allow, scope, startNow)
      ensures model == Begin(old(model).(now := now), rid, allow, scope, admin, startNow, auditOk)
      ensures finisher.Some? <==> answer == Started
      ensures finisher.Some? ==>
                && CanFinish(finisher.value) && finisher.value.rid == rid
                && finisher.value.allow == allow && finisher.value.scope == scope && finisher.value.admin == admin
    {
      Adopt(now, model.issued, model.lastPass);
      answer := Screen(rid, allow, scope, startNow);
      finisher := None;
      if answer == CallerGone {
        var req := pending[rid];
        DenyGone(req, rid, allow, scope, admin, startNow, auditOk);
      } else if answer == Started {
        var req := pending[rid];
        var f := Record(rid, req, allow, scope, admin);
        finisher := Some(f);
      }
    }

    /** The block of `DecideRequest` under the lock. */
    method BeginDecide(now: real, rid: int, allow: bool, scope: Scope, admin: int, startNow: int, auditOk: bool)
      returns (answer: Begun, finisher: Option<Finisher>)
      requires Valid() && model.now <= now
      modifies this, objects
      ensures Valid() && objects == old(objects)
      ensures answer == BeginAnswer(old(model).(now := now), rid, allow, scope, startNow)
      ensures model == Begin(old(model).(now := now), rid, allow, scope, admin, startNow, auditOk)
      ensures finisher.Some? <==> answer == Started
      ensures BeginPromise(old(model).(now := now), rid, allow, scope, admin, startNow, auditOk, model, answer)
      ensures finisher.Some? ==>
                && CanFinish(finisher.value) && finisher.value.rid == rid
                && finisher.value.allow == allow && finisher.value.scope == scope && finisher.value.admin == admin
    {
      BeginKeepsPromise(model.(now := now), rid, allow, scope, admin, startNow, auditOk);
      answer, finisher := TakeDecision(now, rid, allow, scope, admin, startNow, auditOk);
    }

    /** The call still owns its request: nobody else has finished it. */
    ghost predicate CanFinish(f: Finisher)
      reads this, cache, objects
    {
      exists ticket ::
        && ticket == Ticket(f.allow, f.scope, f.admin, f.waiters)
        && Valid() && f.rid < |objects| && objects[f.rid] == f.req && model.reqs[f.rid].ticket == Some(ticket)
    }

    /** `_respond_polkit`. */
    method RespondPolkit(req: PendingRequest, rid: nat)
      requires Valid() && rid < |objects| && objects[rid] == req
      modifies this`events, this`model
      ensures Valid() && model == Log(old(model), Respond(old(model), rid))
    {
      assert req.Mirrors(model.reqs[rid]);
      var f := req.filing;
      if f.cookie in cancelled && (f.filedBy == "" || f.filedBy in cancelled[f.cookie].senders) {
        Emit([]);
      } else if !f.hasIdentity {
        Emit([]);
      } else {
        Emit([Delivered(Some(rid), f.cookie, f.filedBy, false)]);
      }
    }

    /** A cache write on behalf of a request. */
    method StoreGrant(rid: nat, g: Grant, at: real) returns (wrote: bool)
      requires Valid() && at == model.now
      modifies this`events, this`model, cache
      ensures Valid() && model == BrokerModel.StoreGrant(old(model), rid, g)
      ensures wrote == StoredKind(g.scope, g.argv).Some?
    {
      wrote := cache.Remember(g, at.Floor);
      if wrote {
        ghost var row := RowFor(g, NewId(model.cache), at.Floor);
        events := events + [Stored(rid, g, cache.rows[|cache.rows| - 1], at)];
        VisibleConcat(model.trace, [Stored(rid, g, row, at)]);
        VisibleAll([Stored(rid, g, row, at)]);
        model := model.(cache := model.cache + [row], trace := model.trace + [Stored(rid, g, row, at)]);
      }
      assert ValidBut(-1);
    }

    /** The rest of `DecideRequest` once its audit row is lost and audit rows are required. */
    method LoseDecision(f: Finisher)
      requires CanFinish(f) && config.auditRequired
      modifies this, objects
      ensures Valid() && objects == old(objects)
      ensures model == Finish(config, old(model), f.rid, false, false)
    {
      var req, rid := f.req, f.rid;
      ghost var q := model.reqs[rid];
      assert req.Mirrors(q);
      if rid in pending {
        req.decision := Some(false);
        req.finalizing := false;
      }
      ghost var q1 := q.(ticket := None, waiters := []);
      assert model == Log(model, []);
      FinishWaiters(f, if q.retained then q1.(decision := Some(false), finalizing := false) else q1, false);
    }

    /** Cache and polkit, when the decision stands. */
    method Effects(f: Finisher, now: real, storeOk: bool) returns (cachedOk: bool)
      requires CanFinish(f) && now == model.now
      modifies this`events, this`model, cache
      ensures CanFinish(f) && model.reqs == old(model).reqs
      ensures var d, s := f.req.filing, old(model);
              var g := Grant(d.uid, d.action, d.exe, f.scope, f.allow, f.admin, d.argv);
              var s1 := if f.allow && !d.oneShot && storeOk then BrokerModel.StoreGrant(s, f.rid, g) else s;
              model == if f.allow && d.cookie != "" then Log(s1, Respond(s1, f.rid)) else s1
      ensures cachedOk == !(f.allow && !f.req.filing.oneShot && !storeOk)
    {
      var d := f.req.filing;
      cachedOk := true;
      if f.allow && !d.oneShot {
        if storeOk {
          var _ := StoreGrant(f.rid, Grant(d.uid, d.action, d.exe, f.scope, f.allow, f.admin, d.argv), now);
        } else {
          cachedOk := false;
        }
      }
      if f.allow && d.cookie != "" {
        RespondPolkit(f.req, f.rid);
      }
    }

    /** The rest of `DecideRequest` when the decision stands. */
    method KeepDecision(f: Finisher, now: real, auditOk: bool, storeOk: bool) returns (cachedOk: bool)
      requires CanFinish(f) && now == model.now && (auditOk || !config.auditRequired)
      modifies this, cache, objects
      ensures Valid() && objects == old(objects)
      ensures model == Finish(config, old(model), f.rid, auditOk, storeOk)
      ensures cachedOk == !(f.allow && !f.req.filing.oneShot && !storeOk)
    {
      ghost var q := model.reqs[f.rid];
      assert f.req.Mirrors(q);
      var d := f.req.filing;
      Emit(AuditIf(auditOk, AuditRow(d.uid, d.exe, d.action, f.allow, Some(f.scope), PromptSource, Some(f.rid))));
      cachedOk := Effects(f, now, storeOk);
      f.req.finalizing := false;
      FinishWaiters(f, q.(ticket := None, waiters := [], finalizing := false), f.allow);
    }

    /** The rest of `DecideRequest`.  The request may have been dropped from the pending map meanwhile. */
    method FinishDecide(now: real, f: Finisher, auditOk: bool, storeOk: bool) returns (r: Finished)
      requires CanFinish(f) && model.now <= now
      modifies this, cache, objects
      ensures Valid() && objects == old(objects)
      ensures model == Finish(config, old(model).(now := now), f.rid, auditOk, storeOk)
      ensures r == AuditUnavailable <==> !auditOk && config.auditRequired
      ensures r == AppliedUncached <==>
                r != AuditUnavailable && f.allow && !f.req.filing.oneShot && !storeOk
      ensures f.rid < |old(model).reqs| && old(model).reqs[f.rid].ticket.Some?
      ensures Shape(old(model).reqs[f.rid]) ==>
                FinishPromise(config, old(model).(now := now), f.rid, auditOk, storeOk, model)
    {
      if Shape(model.reqs[f.rid]) {
        FinishKeepsPromise(config, model.(now := now), f.rid, auditOk, storeOk);
      }
      Adopt(now, model.issued, model.lastPass);
      if !auditOk && config.auditRequired {
        LoseDecision(f);
        return AuditUnavailable;
      }
      var cachedOk := KeepDecision(f, now, auditOk, storeOk);
      r := if cachedOk then Applied else AppliedUncached;
    }

    /** The finisher's waiters and those parked meanwhile are called back, and the outcome is signalled. */
    method FinishWaiters(f: Finisher, ghost q: Request, value: bool)
      requires ValidBut(f.rid) && f.rid < |objects| && objects[f.rid] == f.req
      requires model.reqs[f.rid].ticket == Some(Ticket(f.allow, f.scope, f.admin, f.waiters))
      requires f.req.waiters == model.reqs[f.rid].waiters && q.waiters == [] && q.retained == model.reqs[f.rid].retained
      requires f.req.filing == q.filing && f.req.decision == q.decision && f.req.finalizing == q.finalizing
      requires f.req.decidedAt == q.decidedAt && q.ticket.None?
      modifies this`events, this`model, f.req
      ensures Valid() && model == Conclude(old(model), f.rid, q, value, false)
    {
      ghost var s := model;
      var waiters := f.waiters + f.req.waiters;
      f.req.waiters := [];
      Sync(f.rid, q);
      ReleaseAll(waiters, f.rid, value, false);
      assert Owed(s.reqs[f.rid]) == waiters;
    }

    // -------------------------------------------------------------- filing

    method Create(f: Filing, decision: Option<bool>, ghost hooked: bool) returns (rid: nat, req: PendingRequest)
      requires Valid()
      modifies this`pending, this`nextId, this`objects, this`model
      ensures Valid() && rid == |old(objects)| && fresh(req) && objects == old(objects) + [req]
      ensures model == old(model).(reqs := old(model).reqs + [NewRequest(f, decision, hooked)])
    {
      rid := nextId;
      nextId := nextId + 1;
      req := new PendingRequest(f, decision);
      InMapAppend(pending, objects, model.reqs, req, NewRequest(f, decision, hooked));
      pending := pending[rid := req];
      objects := objects + [req];
      model := model.(reqs := model.reqs + [NewRequest(f, decision, hooked)]);
      assert ValidBut(-1);
    }

    /** Whether the filer itself cancelled the cookie; a mark of others only is retired. */
    method CheckMark(a: BrokerModel.Ask) returns (polkitCancelled: bool)
      requires Valid()
      modifies this`cancelled, this`model
      ensures Valid() && model == RetireMark(old(model), a)
      ensures polkitCancelled == (a.kind.Polkit? && MarkedBy(old(model), a.kind.cookie, a.kind.sender))
    {
      polkitCancelled := false;
      if a.kind.Polkit? && a.kind.cookie in cancelled {
        if a.kind.sender in cancelled[a.kind.cookie].senders {
          polkitCancelled := true;
        } else {
          cancelled := map k | k in cancelled && k != a.kind.cookie :: cancelled[k];
          model := RetireMark(model, a);
        }
      }
      assert ValidBut(-1);
    }

    /** Rules, then cache, for a request that may consult them. */
    method Consult(a: BrokerModel.Ask, e: World, now: int, polkitCancelled: bool, ghost s: State)
        returns (verdict: Verdict)
      requires Valid() && model.cache == s.cache && now == s.now.Floor
      requires polkitCancelled == (a.kind.Polkit? && MarkedBy(s, a.kind.cookie, a.kind.sender))
      ensures verdict == FilingVerdict(s, a, e, s.now)
    {
      if polkitCancelled {
        return Closed(PolkitCancelSource, false, None);
      }
      if a.kind.Relay? {
        return Open;
      }
      var rule := FirstRule(e.rules, a.kind.Polkit?);
      if rule.Some? {
        return Closed(RuleSource, rule.value, None);
      }
      if a.kind.Polkit? {
        return Open;
      }
      var row := cache.LookupDetail(Query(a.caller.uid, a.action, a.caller.exe, a.rawArgv, a.kind.Delegated?
                                          || e.sandboxed), now);
      verdict := if row.None? then Open else Closed(CacheSource, row.value.decision, Some(row.value.scope));
    }

    /** Whether the cookie belongs to another peer. */
    method CookieTaken(cookie: string, sender: string) returns (taken: bool)
      requires Valid()
      ensures taken == (BoundElsewhere(model, cookie, sender) || FiledElsewhere(model, cookie, sender))
    {
      if cookie in announced && announced[cookie].sender != sender {
        return true;
      }
      if cookie == "" {
        return false;
      }
      var dup := FindFiled(cookie);
      return dup.Some? && pending[dup.value].filing.filedBy != sender;
    }

    method AdmitOpen(f: Filing, hookStarts: bool) returns (rid: nat)
      requires Valid()
      modifies this`pending, this`nextId, this`objects, this`model, this`events
      ensures Valid() && rid == |old(objects)| && |objects| == rid + 1 && old(objects) <= objects && fresh(objects[rid])
      ensures var s, hooked := old(model), !f.oneShot && hookStarts;
              model == s.(reqs := s.reqs + [NewRequest(f, None, hooked)],
                          trace := s.trace + (if hooked then [] else [Prompted(rid)]))
    {
      var hooked := !f.oneShot && hookStarts;
      var req;
      rid, req := Create(f, None, hooked);
      Emit(if hooked then [] else [Prompted(rid)]);
    }

    method AdmitDecided(f: Filing, auditOk: bool, source: Source, allow: bool, scope: Option<Scope>) returns (rid: nat)
      requires Valid()
      modifies this`pending, this`nextId, this`objects, this`model, this`events
      ensures Valid() && rid == |old(objects)| && |objects| == rid + 1 && old(objects) <= objects && fresh(objects[rid])
      ensures var s := old(model);
              var recorded := RecordCheck(config, auditOk,
                                          AuditRow(f.uid, f.exe, f.action, allow, scope, source, Some(rid)));
              model == s.(reqs := s.reqs + [NewRequest(f, Some(recorded.1), false)],
                          trace := s.trace + recorded.0 + [Decided(rid, AtFiling(source), recorded.1, s.now)])
    {
      var req;
      rid, req := Create(f, Some(allow), false);
      var recorded := RecordCheck(config, auditOk, AuditRow(f.uid, f.exe, f.action, allow, scope, source, Some(rid)));
      Emit(recorded.0);
      req.decision := Some(recorded.1);
      Sync(rid, NewRequest(f, Some(recorded.1), false));
      AppendThenReplace(old(model).reqs, NewRequest(f, Some(allow), false), NewRequest(f, Some(recorded.1), false));
      NoteDecision(rid, AtFiling(source), recorded.1);
    }

    method Admit(a: BrokerModel.Ask, e: World, now: real, verdict: Verdict) returns (rid: nat)
      requires Valid() && now == model.now
      modifies this`pending, this`nextId, this`objects, this`model, this`events
      ensures Valid() && rid == |old(objects)| && |objects| == rid + 1 && old(objects) <= objects && fresh(objects[rid])
      ensures model == BrokerModel.Admit(config, old(model), a, e, verdict) && rid == |old(model).reqs|
    {
      match verdict
      case Open => rid := AdmitOpen(FilingOf(a, now), e.hookStarts);
      case Closed(source, allow, scope) => rid := AdmitDecided(FilingOf(a, now), e.auditOk, source, allow, scope);
    }

    /** The body of `_enqueue`. */
    method File(now: real, a: BrokerModel.Ask, e: World) returns (filed: Filed)
      requires Valid() && model.now <= now
      modifies this
      ensures Valid() && old(objects) <= objects
      ensures filed == BrokerModel.Enqueue(config, old(model).(now := now), a, e).1
      ensures model == BrokerModel.Enqueue(config, old(model).(now := now), a, e).0
      ensures if filed.Queued? then filed.rid == |old(objects)| == |objects| - 1 && fresh(objects[filed.rid])
               else objects == old(objects)
    {
      Adopt(now, model.issued, model.lastPass);
      if !e.rateOk {
        Emit(AuditIf(e.auditOk, AuditRow(a.caller.uid, a.caller.exe, a.action, false, None, RateLimitSource, None)));
        return RateLimited;
      }
      ghost var s := model;
      var polkitCancelled := CheckMark(a);
      var verdict := Consult(a, e, now.Floor, polkitCancelled, s);
      if a.kind.Polkit? {
        var taken := CookieTaken(a.kind.cookie, a.kind.sender);
        if taken {
          return AccessDenied;
        }
      }
      var rid := Admit(a, e, now, verdict);
      filed := Queued(rid);
    }

    /** `_enqueue`. */
    method Enqueue(now: real, a: BrokerModel.Ask, e: World) returns (filed: Filed)
      requires Valid() && model.now <= now
      modifies this
      ensures Valid() && old(objects) <= objects
      ensures filed == BrokerModel.Enqueue(config, old(model).(now := now), a, e).1
      ensures model == BrokerModel.Enqueue(config, old(model).(now := now), a, e).0
      ensures if filed.Queued? then filed.rid == |old(objects)| == |objects| - 1 && fresh(objects[filed.rid])
               else objects == old(objects)
      ensures FilingPromise(config, old(model).(now := now), a, e, model, filed)
    {
      EnqueueKeepsPromise(config, model.(now := now), a, e);
      filed := File(now, a, e);
    }

    /** A filing behind the limiter itself: it is let through iff fewer than `limit` calls accepted on the same uid and
        action lie in the window that ends now. */
    method EnqueueLimited(limiter: RateLimit.RateLimiter, now: real, a: BrokerModel.Ask, e: World)
        returns (filed: Filed)
      requires Valid() && model.now <= now && limiter.Valid() && RateLimit.EndTime(limiter.start, limiter.log) <= now
      modifies this, limiter
      ensures Valid() && limiter.Valid() && old(objects) <= objects
      ensures var key := RateLimit.Key(a.caller.uid, a.action);
              var past := RateLimit.AfterRun(limiter.limits, map[], map[], limiter.start, old(limiter.log)).1;
              var ok := RateLimit.NaiveAccepts(limiter.limits, past, RateLimit.Call(key, now, key));
              && filed == BrokerModel.Enqueue(config, old(model).(now := now), a, e.(rateOk := ok)).1
              && model == BrokerModel.Enqueue(config, old(model).(now := now), a, e.(rateOk := ok)).0
    {
      var ok := limiter.Allow(RateLimit.Key(a.caller.uid, a.action), now);
      filed := File(now, a, e.(rateOk := ok));
    }

    /** A message to an application of the same user is forwarded at once and audited afterwards. */
    method SendWithin(now: real, caller: Caller, action: string, forwardOk: bool, auditOk: bool, w: Waiter)
      requires Valid() && model.now <= now && w == Waiter(|model.issued|, true)
      modifies this`events, this`model
      ensures Valid() && model == BrokerModel.SendWithin(old(model).(now := now), caller, action, forwardOk, auditOk)
    {
      Adopt(now, model.issued + [w], model.lastPass);
      if !forwardOk {
        Emit([Refused(w)]);
        return;
      }
      var row := AuditRow(caller.uid, caller.exe, action, true, Some(Once), SameSiloSource, None);
      Emit([SentWithin(caller.uid, action)] + AuditIf(auditOk, row) + [Replied(w, None, true)]);
    }

    /** A cross-silo message files a one-shot request; `w` forwards it when it is called back with True. */
    method RelayAcross(now: real, a: BrokerModel.Ask, e: World, w: Waiter)
      requires Valid() && model.now <= now && w == Waiter(|model.issued|, true)
      modifies this
      ensures Valid() && old(objects) <= objects
      ensures model == BrokerModel.RelayMessage(config, old(model).(now := now), a, e)
    {
      var filed := File(now, a.(kind := Relay), e);
      Adopt(now, model.issued + [w], model.lastPass);
      if !filed.Queued? {
        Emit([Refused(w)]);
        return;
      }
      Attend(pending[filed.rid], filed.rid, w);
    }

    /** `_relay_message_common`, once its arguments are accepted. */
    method RelayMessage(now: real, a: BrokerModel.Ask, e: World, target: int, forwardOk: bool, w: Waiter)
      requires Valid() && model.now <= now && w == Waiter(|model.issued|, true)
      modifies this
      ensures Valid() && old(objects) <= objects
      ensures model == SendMessage(config, old(model).(now := now), a, e, target, forwardOk)
      ensures a.caller.uid != target ==> RelayPromise(old(model).(now := now), a, e, model)
    {
      if a.caller.uid == target {
        SendWithin(now, a.caller, a.action, forwardOk, e.auditOk, w);
      } else {
        RelayKeepsPromise(config, model.(now := now), a, e);
        RelayAcross(now, a, e, w);
      }
    }

    // -------------------------------------------------------------- the synchronous gate and the hook

    /** `_decide_check` up to its audit row. */
    method DecideCheck(uid: int, exe: string, action: string, argv: seq<string>, rules: seq<bool>, sandboxed: bool,
                       now: int)
      returns (verdict: Verdict)
      requires Valid() && now == model.now.Floor
      ensures verdict == CheckVerdict(model, uid, exe, action, argv, rules, sandboxed, model.now)
    {
      var rule := FirstRule(rules, false);
      if rule.Some? {
        return Closed(RuleSource, rule.value, None);
      }
      if RulesOnly(action) {
        return Open;
      }
      var row := cache.LookupDetail(Query(uid, action, exe, argv, sandboxed), now);
      verdict := if row.None? then Open else Closed(CacheSource, row.value.decision, Some(row.value.scope));
    }

    /** `_record_check`: the row, and the verdict that stands. */
    method Recorded(row: AuditRow, auditOk: bool) returns (stands: bool)
      requires Valid()
      modifies this`events, this`model
      ensures Valid() && model == Log(old(model), RecordCheck(config, auditOk, row).0)
      ensures stands == RecordCheck(config, auditOk, row).1
    {
      if auditOk {
        Emit([Audited(row)]);
        return row.allow;
      }
      Emit([]);
      stands := row.allow && !config.auditRequired;
    }

    method CheckPermission(now: real, a: BrokerModel.Ask, e: World) returns (answer: GateAnswer)
      requires Valid() && model.now <= now
      modifies this`events, this`model
      ensures Valid() && answer == BrokerModel.CheckPermission(config, old(model).(now := now), a, e).1
      ensures model == BrokerModel.CheckPermission(config, old(model).(now := now), a, e).0
      ensures GatePromise(config, old(model).(now := now), a, e, model, answer)
    {
      CheckKeepsPromise(config, model.(now := now), a, e);
      Adopt(now, model.issued, model.lastPass);
      if !e.rateOk {
        return GateLimited;
      }
      var verdict := DecideCheck(a.caller.uid, a.caller.exe, a.action, a.rawArgv, e.rules, e.sandboxed, now.Floor);
      match verdict
      case Open => answer := GateUnknown;
      case Closed(source, allow, scope) =>
        var stands := Recorded(AuditRow(a.caller.uid, a.caller.exe, a.action, allow, scope, source, None), e.auditOk);
        answer := GateVerdict(stands);
    }

    /** The row a hook verdict leads to: a rule or a cached approval comes before the verdict. */
    method RecheckHook(req: PendingRequest, rid: nat, h: HookAnswers, now: int) returns (row: AuditRow)
      requires Valid() && rid < |objects| && objects[rid] == req && h.verdict.Some? && now == model.now.Floor
      ensures row == HookRow(model, rid, h)
    {
      assert req.Mirrors(model.reqs[rid]);
      var f := req.filing;
      var valid := f.startTime > 0 && h.sameProcess;
      if valid {
        var current := DecideCheck(f.uid, f.exe, f.action, f.argv, h.rules, h.sandboxed, now);
        match current
        case Closed(source, allow, scope) => return AuditRow(f.uid, f.exe, f.action, allow, scope, source, None);
        case Open => return AuditRow(f.uid, f.exe, f.action, h.verdict.value, None, HookSource, Some(rid));
      }
      return AuditRow(f.uid, f.exe, f.action, false, None, HookSource, Some(rid));
    }

    /** `_apply_hook`. */
    method ApplyHook(now: real, rid: nat, h: HookAnswers)
      requires Valid() && model.now <= now && rid < |objects| && model.reqs[rid].hooked
      modifies this, objects
      ensures Valid() && objects == old(objects)
      ensures model == BrokerModel.ApplyHook(config, old(model).(now := now), rid, h)
      ensures HookPromise(config, old(model).(now := now), rid, h, model)
    {
      HookKeepsPromise(config, model.(now := now), rid, h);
      Adopt(now, model.issued, model.lastPass);
      assert objects[rid].Mirrors(model.reqs[rid]);
      Sync(rid, model.reqs[rid].(hooked := false));
      if rid !in pending || pending[rid].decision.Some? {
        return;
      }
      var req := pending[rid];
      if h.verdict.None? {
        Emit([Prompted(rid)]);
        return;
      }
      DecideHooked(req, rid, h, now.Floor);
    }

    method DecideHooked(req: PendingRequest, rid: nat, h: HookAnswers, now: int)
      requires Valid() && rid < |objects| && objects[rid] == req && req.decision.None?
      requires h.verdict.Some? && now == model.now.Floor
      modifies this`events, this`model, req
      ensures Valid()
      ensures var row := HookRow(old(model), rid, h);
              var recorded := RecordCheck(config, h.auditOk, row);
              var s := Log(old(model), recorded.0);
              model == BrokerModel.Settle(if recorded.1 && req.filing.cookie != "" then Log(s, Respond(s, rid)) else s,
                                          rid, ByHook(row.source), recorded.1, true)
    {
      var row := RecheckHook(req, rid, h, now);
      var stands := Recorded(row, h.auditOk);
      if stands && req.filing.cookie != "" {
        RespondPolkit(req, rid);
      }
      Settle(req, rid, ByHook(row.source), stands, true);
    }

    // -------------------------------------------------------------- cached approvals

    /** The model follows the cache table. */
    ghost method SyncCache(rows: seq<Row>)
      requires ValidButCache(-1) && cache.Valid() && cache.rows == rows
      modifies this`model
      ensures Valid() && model == old(model).(cache := rows)
    {
      model := model.(cache := rows);
      assert ValidBut(-1);
    }

    method RevokeApproval(now: real, id: nat) returns (gone: Option<Row>)
      requires Valid() && model.now <= now
      modifies this`events, this`model, cache
      ensures Valid()
      ensures model == Log(old(model), [RevokedId(id)]).(now := now, cache := WithoutId(old(model).cache, id))
      ensures gone.Some? <==> exists x :: x in old(cache.rows) && x.id == id
      ensures gone.Some? ==> gone.value in old(cache.rows) && gone.value.id == id
    {
      Adopt(now, model.issued, model.lastPass);
      Emit([RevokedId(id)]);
      assert ValidButCache(-1);
      gone := cache.DeleteById(id);
      SyncCache(cache.rows);
    }

    method RevokeAllFor(now: real, uid: int) returns (gone: seq<Row>)
      requires Valid() && model.now <= now
      modifies this`events, this`model, cache
      ensures Valid()
      ensures model == Log(old(model), [RevokedUid(uid)]).(now := now, cache := WithoutUid(old(model).cache, uid))
      ensures gone == OfUid(old(cache.rows), uid)
    {
      Adopt(now, model.issued, model.lastPass);
      Emit([RevokedUid(uid)]);
      assert ValidButCache(-1);
      gone := cache.DeleteByUid(uid);
      SyncCache(cache.rows);
    }

    method CollectCache(now: real) returns (deleted: nat)
      requires Valid() && model.now <= now
      modifies this`model, cache
      ensures Valid() && model == old(model).(now := now, cache := LiveRows(old(model).cache, now.Floor))
      ensures deleted == |old(cache.rows)| - |cache.rows|
    {
      Adopt(now, model.issued, model.lastPass);
      assert ValidButCache(-1);
      deleted := cache.Gc(now.Floor);
      SyncCache(cache.rows);
    }

    // -------------------------------------------------------------- the reaper

    /** The audit rows, callbacks and signals of requests already denied. */
    method DenyEach(x: Target, denials: seq<Denial>, audited: set<nat>)
      requires Valid()
      modifies this`events, this`model
      ensures Valid() && model == Log(old(model), AllDenialEvents(x, denials, audited, old(model).now))
    {
      ghost var s := model;
      var i := 0;
      while i < |denials|
        invariant 0 <= i <= |denials| && Valid() && model == s.(trace := model.trace)
        invariant s.trace + AllDenialEvents(x, denials, audited, s.now) == model.trace
                 + AllDenialEvents(x, denials[i..], audited, s.now)
      {
        var d := denials[i];
        ghost var t := model.trace;
        DenyOne(x, d, audited);
        LogNext(t, DenialEvents(x, d, audited, s.now), AllDenialEvents(x, denials[i..][1..], audited, s.now));
        assert denials[i..][1..] == denials[i + 1..];
        i := i + 1;
      }
      assert denials[i..] == [] && model.trace + [] == model.trace;
    }

    method DenyOne(x: Target, d: Denial, audited: set<nat>)
      requires Valid()
      modifies this`events, this`model
      ensures Valid() && model == Log(old(model), DenialEvents(x, d, audited, old(model).now))
    {
      ghost var s := model;
      var row := DenyRow(d.filing, d.rid, SourceOf(x));
      Emit(AuditIf(d.rid in audited, row));
      NoteDecision(d.rid, DeciderOf(x), false);
      ReleaseAll(d.waiters, d.rid, false, false);
      LogNext(s.trace, AuditIf(d.rid in audited, row), [Decided(d.rid, DeciderOf(x), false, s.now)]);
      LogNext(s.trace, AuditIf(d.rid in audited, row) + [Decided(d.rid, DeciderOf(x), false, s.now)],
              Release(d.waiters, d.rid, false, false));
    }

    lemma AreUnfinished()
      requires Valid()
      ensures Unfinished(model.reqs)
    {
      forall i | 0 <= i < |model.reqs| && model.reqs[i].decision.None? ensures model.reqs[i].ticket.None? {
        assert objects[i].Mirrors(model.reqs[i]);
      }
    }

    method Drop(rid: nat)
      requires Valid() && rid in pending
      modifies this`pending, this`model
      ensures Valid() && rid < |old(model).reqs|
      ensures model == old(model).(reqs := old(model).reqs[rid := old(model).reqs[rid].(retained := false)])
    {
      InMapRemove(pending, objects, model.reqs, rid);
      pending := Without(pending, rid);
      model := model.(reqs := model.reqs[rid := model.reqs[rid].(retained := false)]);
      assert ValidBut(-1);
    }

    /** One request of a reaper pass: stale ones are denied, decided ones stamped and later dropped. */
    method ReapOne(now: real, rid: nat) returns (denied: Option<Denial>, dropped: bool)
      requires Valid() && now == model.now && rid < |objects|
      modifies this`pending, this`model, objects[rid]
      ensures Valid() && model == old(model).(reqs := old(model).reqs[rid := ReapedTo(config, old(model).reqs[rid],
                                                                                      now)])
      ensures denied == if Denies(StaleAt(now), old(model).reqs[rid])
                        then Some(Denial(rid, old(model).reqs[rid].filing, old(model).reqs[rid].waiters)) else None
      ensures dropped == Drops(config, old(model).reqs[rid], now)
    {
      ghost var q := model.reqs[rid];
      assert objects[rid].Mirrors(q) && model.reqs[rid := q] == model.reqs;
      denied, dropped := None, false;
      if rid !in pending {
        return;
      }
      var req := pending[rid];
      if req.decision.None? {
        if req.filing.cookie != "" && now - req.filing.createdAt >= POLKIT_UNDECIDED_TTL {
          req.decision := Some(false);
          req.decidedAt := Some(now);
          denied := Some(Denial(rid, req.filing, req.waiters));
          req.waiters := [];
          Sync(rid, q.(decision := Some(false), waiters := [], decidedAt := Some(now)));
        }
      } else if config.retention > 0.0 {
        if req.decidedAt.None? {
          req.decidedAt := Some(now);
          Sync(rid, q.(decidedAt := Some(now)));
        } else if now - req.decidedAt.value >= config.retention {
          Drop(rid);
          dropped := true;
        }
      }
    }

    /** The next request of a sweep that began in state `s`. */
    method SweepNext(now: real, i: nat, expired: seq<Denial>, removed: nat, ghost s: State)
        returns (expired': seq<Denial>, removed': nat)
      requires Valid() && now == model.now && i < |objects| && i < |s.reqs|
      requires SweptTo(config, s, model, now, i, expired, removed)
      modifies this`pending, this`model, objects[i]
      ensures Valid() && model.now == now && SweptTo(config, s, model, now, i + 1, expired', removed')
    {
      SweptNext(config, s, model, now, i, expired, removed);
      var denied, dropped := ReapOne(now, i);
      expired' := if denied.Some? then expired + [denied.value] else expired;
      removed' := if dropped then removed + 1 else removed;
    }

    /** The fields of every request, one after the other; the denied ones are collected. */
    method Sweep(now: real) returns (expired: seq<Denial>, removed: nat)
      requires Valid() && now == model.now
      modifies this`pending, this`model, objects
      ensures Valid() && ReapedUpTo(config, old(model).reqs, model.reqs, now, |old(model).reqs|)
      ensures model == old(model).(reqs := model.reqs) && expired == DenialsFrom(StaleAt(now), old(model).reqs, 0)
      ensures removed == DropsUpTo(config, old(model).reqs, now, |old(model).reqs|)
    {
      ghost var s := model;
      expired, removed := [], 0;
      var i := 0;
      while i < nextId
        invariant 0 <= i <= nextId == |s.reqs| == |objects| && Valid() && model.now == now
        invariant SweptTo(config, s, model, now, i, expired, removed)
      {
        expired, removed := SweepNext(now, i, expired, removed, s);
        i := i + 1;
      }
    }

    /** `_reap_pending`: first every request's fields, then the denied ones' rows, callbacks and signals. */
    method ReapPending(now: real, audited: set<nat>) returns (removed: nat)
      requires Valid() && model.now <= now
      modifies this, objects
      ensures Valid() && objects == old(objects)
      ensures model == Reap(config, old(model).(now := now), audited)
      ensures removed == DropsUpTo(config, old(model).reqs, now, |old(model).reqs|)
    {
      Adopt(now, model.issued, now);
      AreUnfinished();
      ghost var s := model;
      var expired;
      expired, removed := Sweep(now);
      ReapAsParts(config, s, model.reqs, audited);
      DenyEach(StaleAt(now), expired, audited);
    }

    // -------------------------------------------------------------- the polkit relay

    /** The loop over one mark map. */
    static method PruneOld<V>(m: map<string, V>, at: V -> real, now: real) returns (r: map<string, V>)
      ensures r == map k | k in m && now - at(m[k]) <= POLKIT_UNDECIDED_TTL :: m[k]
    {
      r := m;
      var keys := m.Keys;
      while keys != {}
        invariant keys <= m.Keys
        invariant r == map k | k in m && (k in keys || now - at(m[k]) <= POLKIT_UNDECIDED_TTL) :: m[k]
        decreases |keys|
      {
        var k :| k in keys;
        if now - at(m[k]) > POLKIT_UNDECIDED_TTL {
          r := map j | j in r && j != k :: r[j];
        }
        keys := keys - {k};
      }
    }

    /** The model follows the mark maps. */
    ghost method SyncMarks(marks: map<string, Mark>, bindings: map<string, Binding>)
      requires ValidButMarks() && marks == cancelled && bindings == announced
      modifies this`model
      ensures Valid() && model == old(model).(cancelled := marks, announced := bindings)
    {
      model := model.(cancelled := marks, announced := bindings);
      assert ValidBut(-1);
    }

    /** `_prune_polkit_marks`. */
    method PruneMarks(now: real)
      requires Valid()
      modifies this`cancelled, this`announced, this`model
      ensures Valid() && model == Prune(old(model), now)
    {
      assert ValidButMarks();
      cancelled := PruneOld(cancelled, (mark: Mark) => mark.at, now);
      announced := PruneOld(announced, (binding: Binding) => binding.at, now);
      SyncMarks(cancelled, announced);
    }

    /** `AnnouncePolkitAuth`. */
    method AnnouncePolkitAuth(now: real, cookie: string, sender: string) returns (reply: RelayReply)
      requires Valid() && model.now <= now
      modifies this`cancelled, this`announced, this`model
      ensures Valid() && model == Announce(old(model).(now := now), cookie, sender)
      ensures reply == AnnounceReply(old(model).(now := now), cookie, sender)
    {
      Adopt(now, model.issued, model.lastPass);
      if cookie == "" {
        return Done;
      }
      PruneMarks(now);
      var taken := CookieTaken(cookie, sender);
      if taken {
        return NotOwner;
      }
      if cookie in cancelled && sender in cancelled[cookie].senders {
        return Done;
      }
      if cookie !in announced && |announced| >= POLKIT_MARKS_MAX {
        return TooManyMarks;
      }
      Bind(now, cookie, sender);
      reply := Done;
    }

    method Bind(now: real, cookie: string, sender: string)
      requires Valid()
      modifies this`announced, this`model
      ensures Valid() && model == old(model).(announced := old(model).announced[cookie := Binding(sender, now)])
    {
      assert ValidButMarks();
      announced := announced[cookie := Binding(sender, now)];
      SyncMarks(cancelled, announced);
    }

    /** What the broker knows of a cookie and a sender. */
    method Standing(cookie: string, sender: string) returns (filed: Option<nat>, owned: bool, dead: bool, denied: bool)
      requires Valid()
      ensures filed == FirstWith(model, cookie, 0) && (filed.Some? ==> filed.value in pending)
      ensures owned == Owns(model, cookie, sender) && dead == MarkedBy(model, cookie, sender)
      ensures denied == (filed.Some? && model.reqs[filed.value].decision == Some(false))
    {
      filed := FindFiled(cookie);
      owned := (filed.Some? && pending[filed.value].filing.filedBy == sender)
               || (cookie in announced && announced[cookie].sender == sender);
      dead := cookie in cancelled && sender in cancelled[cookie].senders;
      denied := filed.Some? && pending[filed.value].decision == Some(false);
    }

    /** The checks of a local authentication, and its effect. */
    method RelayLocalAuth(now: real, cookie: string, hasIdentity: bool, sender: string, caller: Caller,
                          auditOk: bool, callOk: bool)
      returns (reply: RelayReply)
      requires Valid() && model.now <= now
      modifies this, objects
      ensures Valid() && objects == old(objects)
      ensures model == LocalAuth(config, old(model).(now := now), cookie, hasIdentity, sender, caller, auditOk, callOk)
      ensures reply == LocalAuthReply(config, old(model), cookie, hasIdentity, sender, auditOk, callOk)
    {
      SameFirst(model, model.(now := now), cookie, 0);
      Adopt(now, model.issued, model.lastPass);
      var filed, owned, dead, denied := Standing(cookie, sender);
      if dead {
        return Done;
      }
      if !owned {
        return NotOwner;
      }
      if denied {
        return Done;
      }
      if !hasIdentity {
        return NoIdentity;
      }
      if !auditOk && config.auditRequired {
        return RowLost;
      }
      DeliverLocal(filed, cookie, sender, caller, auditOk, callOk);
      reply := if callOk then Done else CallFailed;
    }

    /** `RespondPolkitAuth`. */
    method RespondPolkitAuth(now: real, cookie: string, hasIdentity: bool, sender: string, caller: Caller,
                             auditOk: bool, callOk: bool)
      returns (reply: RelayReply)
      requires Valid() && model.now <= now
      modifies this, objects
      ensures Valid() && objects == old(objects)
      ensures model == LocalAuth(config, old(model).(now := now), cookie, hasIdentity, sender, caller, auditOk, callOk)
      ensures reply == LocalAuthReply(config, old(model), cookie, hasIdentity, sender, auditOk, callOk)
      ensures RespondPromise(config, old(model).(now := now), cookie, hasIdentity, sender, auditOk, callOk,
                             FirstWith(old(model).(now := now), cookie, 0), model)
    {
      RespondKeepsPromise(config, model.(now := now), cookie, hasIdentity, sender, caller, auditOk, callOk);
      reply := RelayLocalAuth(now, cookie, hasIdentity, sender, caller, auditOk, callOk);
    }

    /** The row, the response, and the verdict for a filing still open. */
    method DeliverLocal(filed: Option<nat>, cookie: string, sender: string, caller: Caller, auditOk: bool, callOk: bool)
      requires Valid() && filed == FirstWith(model, cookie, 0) && (filed.Some? ==> filed.value in pending)
      modifies this`events, this`model, objects
      ensures Valid()
      ensures var s := old(model);
              var action := if filed.Some? then s.reqs[filed.value].filing.action else "polkit.local_auth";
              var s1 := Log(s, AuditIf(auditOk,
                  AuditRow(caller.uid, caller.exe, action, true, Some(Once), LocalAuthSource, filed))
                               + [Delivered(filed, cookie, sender, true)]);
              model == if callOk && filed.Some? && s.reqs[filed.value].decision.None?
                       then BrokerModel.Settle(s1, filed.value, ByLocalAuth(sender), true, false) else s1
    {
      var action := if filed.Some? then pending[filed.value].filing.action else "polkit.local_auth";
      Emit(AuditIf(auditOk, AuditRow(caller.uid, caller.exe, action, true, Some(Once), LocalAuthSource, filed))
           + [Delivered(filed, cookie, sender, true)]);
      if callOk && filed.Some? {
        var req := pending[filed.value];
        if req.decision.None? {
          Settle(req, filed.value, ByLocalAuth(sender), true, false);
        }
      }
    }

    /** `_note_polkit_cancelled`, after pruning and with room for the mark. */
    method NoteCancel(now: real, cookie: string, sender: string)
      requires Valid() && now == model.now && cookie != "" && RoomForMark(model, cookie)
      modifies this`cancelled, this`model
      ensures Valid() && model == NoteCancelled(old(model), cookie, sender)
    {
      assert ValidButMarks();
      if cookie in cancelled {
        var mark := cancelled[cookie];
        cancelled := cancelled[cookie := mark.(senders := mark.senders + {sender})];
      } else {
        cancelled := cancelled[cookie := Mark({sender}, now)];
      }
      SyncMarks(cancelled, announced);
    }

    method Unbind(cookie: string, sender: string) returns (was: bool)
      requires Valid()
      modifies this`announced, this`model
      ensures Valid() && model == BrokerModel.Unbind(old(model), cookie, sender)
      ensures was == (cookie in old(model).announced && old(model).announced[cookie].sender == sender)
    {
      was := cookie in announced && announced[cookie].sender == sender;
      if was {
        assert ValidButMarks();
        announced := map k | k in announced && k != cookie :: announced[k];
        SyncMarks(cancelled, announced);
      }
    }

    /** One request of a cancel. */
    method CancelOne(rid: nat, cookie: string, sender: string) returns (denied: Option<Denial>)
      requires Valid() && rid < |objects|
      modifies this`model, objects[rid]
      ensures Valid() && model == old(model).(reqs := old(model).reqs[rid := CancelledTo(old(model).reqs[rid],
                                                                                         cookie, sender)])
      ensures denied == if Denies(CancelledBy(cookie, sender), old(model).reqs[rid])
                        then Some(Denial(rid, old(model).reqs[rid].filing, old(model).reqs[rid].waiters)) else None
    {
      ghost var q := model.reqs[rid];
      assert objects[rid].Mirrors(q) && model.reqs[rid := q] == model.reqs;
      denied := None;
      if rid in pending {
        var req := pending[rid];
        if req.filing.cookie != "" && req.filing.cookie == cookie && req.decision.None?
            && req.filing.filedBy == sender {
          req.decision := Some(false);
          denied := Some(Denial(rid, req.filing, req.waiters));
          req.waiters := [];
          Sync(rid, q.(decision := Some(false), waiters := []));
        }
      }
    }

    method CancelSweep(cookie: string, sender: string) returns (hits: seq<Denial>)
      requires Valid()
      modifies this`model, objects
      ensures Valid() && CancelledUpTo(old(model).reqs, model.reqs, cookie, sender, |old(model).reqs|)
      ensures model == old(model).(reqs := model.reqs)
      ensures hits == DenialsFrom(CancelledBy(cookie, sender), old(model).reqs, 0)
    {
      ghost var s := model;
      ghost var x := CancelledBy(cookie, sender);
      hits := [];
      var i := 0;
      while i < nextId
        invariant 0 <= i <= nextId == |s.reqs| == |objects| && Valid()
        invariant model == s.(reqs := model.reqs) && CancelledUpTo(s.reqs, model.reqs, cookie, sender, i)
        invariant hits + DenialsFrom(x, s.reqs, i) == DenialsFrom(x, s.reqs, 0)
      {
        CancelSweepStep(s.reqs, model.reqs, cookie, sender, i);
        CollectStep(x, s.reqs, i, hits);
        var denied := CancelOne(i, cookie, sender);
        if denied.Some? {
          hits := hits + [denied.value];
        }
        i := i + 1;
      }
    }

    /** `CancelPolkitAuth`. */
    method CancelPolkitAuth(now: real, cookie: string, sender: string, caller: Caller, audited: set<nat>, auditOk: bool)
      returns (reply: RelayReply)
      requires Valid() && model.now <= now
      modifies this, objects
      ensures Valid() && objects == old(objects)
      ensures model == Cancel(old(model).(now := now), cookie, sender, caller, audited, auditOk)
      ensures reply.TooManyMarks? <==> cookie != "" && !RoomForMark(Prune(old(model), now), cookie)
      ensures reply.TooManyMarks? || reply.Done?
    {
      Adopt(now, model.issued, model.lastPass);
      if cookie != "" {
        PruneMarks(now);
        if cookie !in cancelled && |cancelled| >= POLKIT_MARKS_MAX {
          return TooManyMarks;
        }
        NoteCancel(now, cookie, sender);
      }
      CancelRest(cookie, sender, caller, audited, auditOk);
      reply := Done;
    }

    /** A cancel once its mark is taken: the binding and the sender's open filings of the cookie. */
    method CancelRest(cookie: string, sender: string, caller: Caller, audited: set<nat>, auditOk: bool)
      requires Valid()
      modifies this, objects
      ensures Valid() && objects == old(objects)
      ensures model == CancelTail(old(model), cookie, sender, caller, audited, auditOk)
    {
      var was := Unbind(cookie, sender);
      AreUnfinished();
      ghost var s3 := model;
      var hits := CancelSweep(cookie, sender);
      CancelAsParts(s3, model.reqs, cookie, sender, audited);
      NoDenials(CancelledBy(cookie, sender), s3.reqs, 0);
      DenyEach(CancelledBy(cookie, sender), hits, audited);
      if hits == [] && was {
        Emit(AuditIf(auditOk, AuditRow(caller.uid, caller.exe, "polkit.local_auth", false, None, PolkitCancelSource,
                                       None)));
      }
    }
  }

  /** The rest of a cancel after its mark. */
  ghost function CancelTail(s: State, cookie: string, sender: string, caller: Caller, audited: set<nat>,
                            auditOk: bool): State {
    var s3 := BrokerModel.Unbind(s, cookie, sender);
    var s4 := CancelFrom(s3, 0, cookie, sender, audited);
    if !AnyHit(s3, cookie, sender) && s3.announced != s.announced
    then Log(s4, AuditIf(auditOk,
                         AuditRow(caller.uid, caller.exe, "polkit.local_auth", false, None, PolkitCancelSource, None)))
    else s4
  }

  lemma AppendThenReplace(reqs: seq<Request>, a: Request, b: Request)
    ensures (reqs + [a])[|reqs| := b] == reqs + [b]
  {
  }

  lemma LogTwice(s: State, a: seq<Event>, b: seq<Event>)
    ensures Log(Log(s, a), b) == Log(s, a + b)
  {
    assert (s.trace + a) + b == s.trace + (a + b);
  }

  /** Settling a request nobody is finishing: fields first, then the decision noted, then everyone released. */
  lemma SettleInParts(s: State, rid: nat, decider: Decider, value: bool, signalFirst: bool)
    requires rid < |s.reqs| && s.reqs[rid].ticket.None?
    ensures var q := s.reqs[rid];
            Settle(s, rid, decider, value, signalFirst)
            == Log(Log(s.(reqs := s.reqs[rid := q.(decision := Some(value), waiters := [])]),
                       [Decided(rid, decider, value, s.now)]),
                   Release(q.waiters, rid, value, signalFirst))
  {
    assert Owed(s.reqs[rid]) == s.reqs[rid].waiters;
  }

  lemma AnswerOne(w: Waiter, rid: nat, value: bool)
    ensures AnswerAll([w], rid, value) == Answer(w, rid, value)
  {
    assert [w][..0] == [];
  }
}
