/** What becomes of a verdict over whole runs: where each decision comes from, how an administrator's is carried out,
    what a denial stops, who hears first, and when a request is put to the administrator. */
module BrokerVerdicts {
  import opened Options
  import opened Cache
  import opened BrokerModel
  import opened BrokerInvariant
  import opened BrokerMoves
  import opened BrokerCauses
  import opened BrokerCalls
  import opened BrokerSteps
  import opened BrokerTheorems
  import opened BrokerFrames

  // ---------------------------------------------------------------- the administrator's decisions

  /** Every decision in an administrator's name is what one asked for: the same request, verdict and scope, then. */
  lemma {:induction false} AdminDecisionsAreAsked(c: Config, start: real, run: seq<Timed>, k: nat) returns (i: nat)
    requires var t := After(c, Start(start), run).trace; k < |t| && t[k].Decided? && t[k].decider.ByAdmin?
    ensures var e := After(c, Start(start), run).trace[k];
            && i < |run| && run[i].at == e.at && run[i].step.DoBegin? && run[i].step.rid == e.rid
            && run[i].step.allow == e.value && ByAdmin(run[i].step.scope) == e.decider
  {
    i := EventsHaveCauses(c, Start(start), run, k);
    var s1 := After(c, Start(start), run[..i]);
    assert Causes(c, s1.(now := run[i].at), run[i].step, After(c, Start(start), run).trace[k]);
  }

  lemma OtherStepsKeepTicket(c: Config, s: State, t: Timed, rid: nat)
    requires rid < |s.reqs| && s.reqs[rid].decision.Some? && !(t.step.DoFinish? && t.step.ticket == rid)
    ensures var s' := Next(c, s, t);
            && rid < |s'.reqs|
            && s'.reqs[rid].decision == s.reqs[rid].decision && s'.reqs[rid].ticket == s.reqs[rid].ticket
  {
    var s0 := s.(now := t.at);
    if t.step.DoFinish? {
      FinishFrame(c, s0, t.step.ticket, t.step.auditOk, t.step.storeOk);
    } else {
      OtherStepsKeepDecisions(c, s0, t.step);
    }
  }

  lemma {:induction false} RunKeepsTicket(c: Config, s: State, run: seq<Timed>, rid: nat)
    requires rid < |s.reqs| && s.reqs[rid].decision.Some?
    requires forall i :: 0 <= i < |run| ==> !(run[i].step.DoFinish? && run[i].step.ticket == rid)
    ensures var s' := After(c, s, run);
            && rid < |s'.reqs|
            && s'.reqs[rid].decision == s.reqs[rid].decision && s'.reqs[rid].ticket == s.reqs[rid].ticket
    decreases |run|
  {
    if run != [] {
      OtherStepsKeepTicket(c, s, run[0], rid);
      forall i | 0 <= i < |run[1..]| ensures !(run[1..][i].step.DoFinish? && run[1..][i].step.ticket == rid) {
        assert run[1..][i] == run[i + 1];
      }
      RunKeepsTicket(c, Next(c, s, run[0]), run[1..], rid);
    }
  }

  /** What finishing at `s2` makes of the verdict begun at `s`: it stands and is stored as its scope says if the
      row is kept, and it is a deny otherwise; everyone who waited when it was begun or came later is told. */
  ghost predicate CarriedOut(c: Config, s: State, s2: State, s3: State, rid: nat, allow: bool, scope: Scope, admin: int,
                             kept: bool, storeOk: bool) {
    && rid < |s.reqs| && rid < |s2.reqs| && rid < |s3.reqs|
    && var value, f := allow && kept, s.reqs[rid].filing;
       && Outcome(s3.reqs[rid]) == Some(value) && Told(New(s2, s3), rid, Owed(s2.reqs[rid]), value)
       && (forall w :: w in s.reqs[rid].waiters ==> w in Owed(s2.reqs[rid]))
       && s3.cache == if value && !f.oneShot && storeOk
                      then Store(s2.cache, Grant(f.uid, f.action, f.exe, scope, true, admin, f.argv), s3.now.Floor)
                      else s2.cache
  }

  /** An administrator's verdict, once begun, is carried out as given: whatever happens before its finish, the outcome
      is exactly the verdict if the row is kept. */
  lemma {:induction false} DecisionIsCarriedOut(c: Config, s: State, begin: Timed, run: seq<Timed>, finish: Timed)
    requires Reachable(c, s) && Possible(s, begin) && begin.step.DoBegin?
    requires var b := begin.step; BeginAnswer(s.(now := begin.at), b.rid, b.allow, b.scope, b.startNow) == Started
    requires IsRun(c, Next(c, s, begin), run) && Possible(After(c, Next(c, s, begin), run), finish)
    requires forall i :: 0 <= i < |run| ==> !(run[i].step.DoFinish? && run[i].step.ticket == begin.step.rid)
    requires finish.step.DoFinish? && finish.step.ticket == begin.step.rid
    ensures var b, s2 := begin.step, After(c, Next(c, s, begin), run);
            CarriedOut(c, s, s2, Next(c, s2, finish), b.rid, b.allow, b.scope, b.admin, Kept(c, finish.step.auditOk),
                       finish.step.storeOk)
  {
    var b, s2 := begin.step, After(c, Next(c, s, begin), run);
    BegunIsHeld(c, s, begin, run);
    FinishNow(c, s, s2, finish, b.rid, Ticket(b.allow, b.scope, b.admin, s.reqs[b.rid].waiters));
  }

  lemma FinishNow(c: Config, s: State, s2: State, finish: Timed, rid: nat, t: Ticket)
    requires finish.step.DoFinish? && finish.step.ticket == rid && rid < |s.reqs| && rid < |s2.reqs|
    requires s2.reqs[rid].ticket == Some(t) && Shape(s2.reqs[rid]) && t.waiters == s.reqs[rid].waiters
    requires s2.reqs[rid].filing == s.reqs[rid].filing
    ensures CarriedOut(c, s, s2, Next(c, s2, finish), rid, t.allow, t.scope, t.admin, Kept(c, finish.step.auditOk),
                       finish.step.storeOk)
  {
    FinishKeepsPromise(c, s2.(now := finish.at), rid, finish.step.auditOk, finish.step.storeOk);
    FinishCarriesOut(c, s, s2, Next(c, s2, finish), finish, rid, t);
  }

  /** What was begun waits unchanged for its finish. */
  lemma {:induction false} BegunIsHeld(c: Config, s: State, begin: Timed, run: seq<Timed>)
    requires Reachable(c, s) && Possible(s, begin) && begin.step.DoBegin?
    requires var b := begin.step; BeginAnswer(s.(now := begin.at), b.rid, b.allow, b.scope, b.startNow) == Started
    requires IsRun(c, Next(c, s, begin), run)
    requires forall i :: 0 <= i < |run| ==> !(run[i].step.DoFinish? && run[i].step.ticket == begin.step.rid)
    ensures var b, s2 := begin.step, After(c, Next(c, s, begin), run);
            && 0 <= b.rid < |s.reqs| && b.rid < |s2.reqs| && Shape(s2.reqs[b.rid])
            && s2.reqs[b.rid].ticket == Some(Ticket(b.allow, b.scope, b.admin, s.reqs[b.rid].waiters))
            && s2.reqs[b.rid].filing == s.reqs[b.rid].filing
  {
    var b := begin.step;
    var rid, s1 := b.rid, Next(c, s, begin);
    var s2 := After(c, s1, run);
    ReachableInv(c, s);
    NextIsGood(c, s, begin);
    RunIsGood(c, s1, run);
    BeginKeepsPromise(s.(now := begin.at), rid, b.allow, b.scope, b.admin, b.startNow, b.auditOk);
    RunKeepsTicket(c, s1, run, rid);
    assert Evolves(s.reqs[rid], s1.reqs[rid]) && Evolves(s1.reqs[rid], s2.reqs[rid]);
  }

  lemma {:induction false} FinishCarriesOut(c: Config, s: State, s2: State, s3: State, finish: Timed, rid: nat,
                                            t: Ticket)
    requires finish.step.DoFinish? && finish.step.ticket == rid
    requires rid < |s.reqs| && rid < |s2.reqs| && s2.reqs[rid].ticket == Some(t) && t.waiters == s.reqs[rid].waiters
    requires s2.reqs[rid].filing == s.reqs[rid].filing
    requires FinishPromise(c, s2.(now := finish.at), rid, finish.step.auditOk, finish.step.storeOk, s3)
    ensures CarriedOut(c, s, s2, s3, rid, t.allow, t.scope, t.admin, Kept(c, finish.step.auditOk), finish.step.storeOk)
  {
    assert New(s2.(now := finish.at), s3) == New(s2, s3);
  }

  // ---------------------------------------------------------------- what a denial stops

  /** Nothing is relayed to polkit about this request among the events from `from` on. */
  ghost predicate NotRelayed(t: seq<Event>, from: nat, rid: nat) {
    forall k :: from <= k < |t| && t[k].Delivered? ==> t[k].about != Some(rid)
  }

  lemma {:induction false} DeniedStepRelaysNothing(c: Config, s: State, t: Timed, rid: nat)
    requires Inv(c, s) && rid < |s.reqs| && Outcome(s.reqs[rid]) == Some(false)
    ensures s.trace <= Next(c, s, t).trace && NotRelayed(Next(c, s, t).trace, |s.trace|, rid)
  {
    StepEventsAreCaused(c, s, t);
    assert Shape(s.reqs[rid]);
    var t' := Next(c, s, t).trace;
    forall k | |s.trace| <= k < |t'| && t'[k].Delivered? ensures t'[k].about != Some(rid) {
      assert Causes(c, s.(now := t.at), t.step, t'[k]);
    }
  }

  /** A denied request is never relayed: once its outcome is a deny, no run delivers a polkit response about it, neither
      for an approval nor for a local verification. */
  lemma {:induction false} DeniedIsNeverRelayed(c: Config, s: State, run: seq<Timed>, rid: nat)
    requires Inv(c, s) && IsRun(c, s, run) && rid < |s.reqs| && Outcome(s.reqs[rid]) == Some(false)
    ensures s.trace <= After(c, s, run).trace && NotRelayed(After(c, s, run).trace, |s.trace|, rid)
    decreases |run|
  {
    if run != [] {
      var s1 := Next(c, s, run[0]);
      NextIsGood(c, s, run[0]);
      assert Evolves(s.reqs[rid], s1.reqs[rid]);
      DeniedStepRelaysNothing(c, s, run[0], rid);
      DeniedIsNeverRelayed(c, s1, run[1..], rid);
      var t := After(c, s1, run[1..]).trace;
      assert s1.trace == t[..|s1.trace|] && s.trace == s1.trace[..|s.trace|];
      forall k | |s.trace| <= k < |t| && t[k].Delivered? ensures t[k].about != Some(rid) {
        if k < |s1.trace| {
          assert t[k] == s1.trace[k];
        }
      }
    }
  }

  // ---------------------------------------------------------------- who hears first

  lemma {:induction false} PrefixIsRun(c: Config, s: State, run: seq<Timed>, i: nat)
    requires IsRun(c, s, run) && i <= |run|
    ensures IsRun(c, s, run[..i])
    ensures i < |run| ==> Possible(After(c, s, run[..i]), run[i])
    decreases |run|
  {
    if i > 0 {
      PrefixIsRun(c, Next(c, s, run[0]), run[1..], i - 1);
      assert run[..i][1..] == run[1..][..i - 1];
    }
  }

  /** An approval is relayed within its own finish, when nobody has been told yet. */
  lemma ApprovalIsRelayedByFinish(c: Config, s: State, step: Step, e: Event)
    requires Inv(c, s) && e.Delivered? && !e.local && Causes(c, s, step, e)
    ensures e.about.Some? && e.about.value < |s.reqs| && step.DoFinish? && step.ticket == e.about.value
    ensures Outcome(s.reqs[e.about.value]).None? && s.reqs[e.about.value].ticket.Some?
  {
    assert Shape(s.reqs[e.about.value]);
  }

  lemma {:induction false} FinishRelaysFirst(c: Config, s: State, rid: nat, auditOk: bool, storeOk: bool, j: nat,
                                             k: nat)
    requires rid < |s.reqs| && s.reqs[rid].ticket.Some? && Shape(s.reqs[rid])
    requires |s.trace| <= j < k < |Finish(c, s, rid, auditOk, storeOk).trace|
    requires Finish(c, s, rid, auditOk, storeOk).trace[k].Delivered?
    ensures !Finish(c, s, rid, auditOk, storeOk).trace[j].Replied?
  {
    var s' := Finish(c, s, rid, auditOk, storeOk);
    FinishKeepsPromise(c, s, rid, auditOk, storeOk);
    var u := New(s, s');
    assert u[k - |s.trace|] == s'.trace[k] && u[j - |s.trace|] == s'.trace[j];
  }

  lemma {:induction false} StepRelaysFirst(c: Config, s: State, t: Timed, j: nat, k: nat)
    requires Inv(c, s) && Possible(s, t) && j < k && |s.trace| <= k < |Next(c, s, t).trace|
    requires s.trace <= Next(c, s, t).trace && Causes(c, s.(now := t.at), t.step, Next(c, s, t).trace[k])
    requires var t' := Next(c, s, t).trace; t'[k].Delivered? && !t'[k].local
    ensures var t' := Next(c, s, t).trace; !(t'[j].Replied? && t'[j].about == t'[k].about)
  {
    var s0, t' := s.(now := t.at), Next(c, s, t).trace;
    ClockKeepsInv(c, s, t.at);
    ApprovalIsRelayedByFinish(c, s0, t.step, t'[k]);
    var rid := t'[k].about.value;
    if j < |s.trace| {
      assert s.trace[j] == t'[j] && EventOk(s.reqs, s.trace[j]);
    } else {
      assert Shape(s0.reqs[rid]);
      FinishRelaysFirst(c, s0, rid, t.step.auditOk, t.step.storeOk, j, k);
    }
  }

  /** polkit hears of an approval before anyone waiting does: no answer about a request precedes the response that
      relays its approval, because polkit ends the session as soon as its agent is answered. */
  lemma {:induction false} PolkitHearsFirst(c: Config, start: real, run: seq<Timed>, j: nat, k: nat)
    requires IsRun(c, Start(start), run) && j < k < |After(c, Start(start), run).trace|
    requires var t := After(c, Start(start), run).trace; t[k].Delivered? && !t[k].local
    ensures var t := After(c, Start(start), run).trace; !(t[j].Replied? && t[j].about == t[k].about)
  {
    var i := EventsHaveCauses(c, Start(start), run, k);
    var s1 := After(c, Start(start), run[..i]);
    StartInv(c, start);
    PrefixIsRun(c, Start(start), run, i);
    RunIsGood(c, Start(start), run[..i]);
    StepEventsAreCaused(c, s1, run[i]);
    StepRelaysFirst(c, s1, run[i], j, k);
  }

  // ---------------------------------------------------------------- prompts

  function PromptCount(t: seq<Event>, rid: nat): nat {
    if t == [] then 0 else PromptCount(t[..|t| - 1], rid) + (if t[|t| - 1] == Prompted(rid) then 1 else 0)
  }

  lemma {:induction false} ConcatPrompts(t: seq<Event>, u: seq<Event>, rid: nat)
    ensures PromptCount(t + u, rid) == PromptCount(t, rid) + PromptCount(u, rid)
  {
    if u == [] {
      assert t + u == t;
    } else {
      ConcatPrompts(t, u[..|u| - 1], rid);
      assert (t + u)[..|t + u| - 1] == t + u[..|u| - 1];
    }
  }

  lemma {:induction false} NotPrompted(u: seq<Event>, rid: nat)
    requires Prompted(rid) !in u
    ensures PromptCount(u, rid) == 0
  {
    if u != [] {
      NotPrompted(u[..|u| - 1], rid);
    }
  }

  /** A request waiting for its hook has not been put to the administrator; any other open one has, once. */
  ghost predicate PromptedOk(reqs: seq<Request>, t: seq<Event>, rid: nat) {
    if rid >= |reqs| then PromptCount(t, rid) == 0
    else
      && PromptCount(t, rid) <= 1 && (reqs[rid].hooked ==> PromptCount(t, rid) == 0)
      && (reqs[rid].decision.None? && !reqs[rid].hooked ==> PromptCount(t, rid) == 1)
  }

  ghost predicate AllPromptedOk(s: State) { forall rid: nat :: PromptedOk(s.reqs, s.trace, rid) }

  /** How a step's new events and requests go together. */
  ghost predicate PromptChange(a: seq<Request>, b: seq<Request>, u: seq<Event>, rid: nat) {
    if rid < |a| then
      && rid < |b| && (b[rid].decision.None? ==> a[rid].decision.None?)
      && if b[rid].hooked == a[rid].hooked then PromptCount(u, rid) == 0
         else a[rid].hooked && PromptCount(u, rid) == (if b[rid].decision.None? then 1 else 0)
    else if rid < |b| then PromptCount(u, rid) == (if b[rid].decision.None? && !b[rid].hooked then 1 else 0)
    else PromptCount(u, rid) == 0
  }

  lemma PromptChangeKeeps(s: State, s': State, u: seq<Event>)
    requires AllPromptedOk(s) && s'.trace == s.trace + u && |s.reqs| <= |s'.reqs|
    requires forall rid: nat :: PromptChange(s.reqs, s'.reqs, u, rid)
    ensures AllPromptedOk(s')
  {
    forall rid: nat ensures PromptedOk(s'.reqs, s'.trace, rid) {
      assert PromptedOk(s.reqs, s.trace, rid) && PromptChange(s.reqs, s'.reqs, u, rid);
      ConcatPrompts(s.trace, u, rid);
    }
  }

  lemma OnePrompt(rid: nat, r: nat)
    ensures PromptCount([Prompted(rid)], r) == (if r == rid then 1 else 0) && PromptCount([], r) == 0
  {
    assert [Prompted(rid)][..0] == [];
  }

  /** Only filings and hooks without a verdict prompt, and only about their own request. */
  lemma OthersUnprompted(c: Config, s: State, step: Step, t: seq<Event>, t': seq<Event>, u: seq<Event>, rid: nat)
    requires AllCaused(c, s, step, t, t') && t' == t + u && !Prompts(s, step, rid)
    ensures PromptCount(u, rid) == 0
  {
    forall k | 0 <= k < |u| ensures u[k] != Prompted(rid) {
      assert t'[|t| + k] == u[k] && Causes(c, s, step, t'[|t| + k]);
    }
    NotPrompted(u, rid);
  }

  lemma FilingPrompts(c: Config, s: State, step: Step, s': State, u: seq<Event>, rid: nat)
    requires Ordered(s.cache) && s' == Perform(c, s, step) && s'.trace == s.trace + u
    requires step.DoEnqueue? || (step.DoRelay? && step.ask.caller.uid != step.target)
    ensures PromptChange(s.reqs, s'.reqs, u, rid) && |s.reqs| <= |s'.reqs|
  {
    NewIs(s, s', u);
    OnePrompt(|s.reqs|, rid);
    if step.DoEnqueue? {
      EnqueueKeepsPromise(c, s, step.ask, step.world);
    } else {
      RelayKeepsPromise(c, s, step.ask, step.world);
    }
    if rid == |s.reqs| {
      if Prompted(rid) !in u {
        NotPrompted(u, rid);
      }
    } else {
      OtherStepsExplained(c, s, step);
      OthersUnprompted(c, s, step, s.trace, s'.trace, u, rid);
      assert rid < |s.reqs| ==> s'.reqs[rid] == s'.reqs[..|s.reqs|][rid];
    }
  }

  lemma HookPrompts(c: Config, s: State, step: Step, s': State, u: seq<Event>, rid: nat)
    requires Shapes(s) && step.DoHook? && s' == Perform(c, s, step) && s'.trace == s.trace + u
    ensures PromptChange(s.reqs, s'.reqs, u, rid) && |s.reqs| == |s'.reqs|
  {
    var hooked := step.hooked;
    OtherStepsExplained(c, s, step);
    if hooked < |s.reqs| && s.reqs[hooked].hooked {
      assert Shape(s.reqs[hooked]);
      HookKeepsPromise(c, s, hooked, step.hook);
      NewIs(s, s', u);
      OnePrompt(hooked, rid);
    }
    if !Prompts(s, step, rid) {
      OthersUnprompted(c, s, step, s.trace, s'.trace, u, rid);
    }
  }

  lemma RestPrompts(c: Config, s: State, step: Step, s': State, u: seq<Event>, rid: nat)
    requires AllEvolve(s.reqs, s'.reqs) && |s'.reqs| == |s.reqs|
    requires AllCaused(c, s, step, s.trace, s'.trace) && s'.trace == s.trace + u
    requires !step.DoEnqueue? && !step.DoHook? && !(step.DoRelay? && step.ask.caller.uid != step.target)
    requires forall i :: 0 <= i < |s.reqs| ==> s'.reqs[i].hooked == s.reqs[i].hooked
    ensures PromptChange(s.reqs, s'.reqs, u, rid)
  {
    OthersUnprompted(c, s, step, s.trace, s'.trace, u, rid);
    assert rid < |s.reqs| ==> Evolves(s.reqs[rid], s'.reqs[rid]);
  }

  lemma RestKeepHooks(c: Config, s: State, step: Step)
    requires !step.DoEnqueue? && !step.DoHook? && !(step.DoRelay? && step.ask.caller.uid != step.target)
    ensures var s' := Perform(c, s, step);
            && |s'.reqs| == |s.reqs| && AllCaused(c, s, step, s.trace, s'.trace)
            && forall i :: 0 <= i < |s.reqs| ==> s'.reqs[i].hooked == s.reqs[i].hooked
  {
    if step.DoReap? {
      ReapIsPointwise(c, s, s.(lastPass := s.now), 0, step.audited);
    } else {
      OtherStepsExplained(c, s, step);
    }
  }

  lemma StepKeepsPrompts(c: Config, s: State, t: Timed)
    requires Inv(c, s) && Possible(s, t) && AllPromptedOk(s)
    ensures AllPromptedOk(Next(c, s, t))
  {
    var s0, s' := s.(now := t.at), Next(c, s, t);
    NextIsGood(c, s, t);
    var u := s'.trace[|s.trace|..];
    assert s'.trace == s.trace + u;
    forall rid: nat ensures PromptChange(s0.reqs, s'.reqs, u, rid) && |s0.reqs| <= |s'.reqs| {
      if t.step.DoEnqueue? || (t.step.DoRelay? && t.step.ask.caller.uid != t.step.target) {
        FilingPrompts(c, s0, t.step, s', u, rid);
      } else if t.step.DoHook? {
        HookPrompts(c, s0, t.step, s', u, rid);
      } else {
        RestKeepHooks(c, s0, t.step);
        RestPrompts(c, s0, t.step, s', u, rid);
      }
    }
    assert AllPromptedOk(s0) by {
      forall rid: nat ensures PromptedOk(s0.reqs, s0.trace, rid) {
        assert PromptedOk(s.reqs, s.trace, rid);
      }
    }
    PromptChangeKeeps(s0, s', u);
  }

  lemma {:induction false} RunKeepsPrompts(c: Config, s: State, run: seq<Timed>)
    requires Inv(c, s) && IsRun(c, s, run) && AllPromptedOk(s)
    ensures AllPromptedOk(After(c, s, run))
    decreases |run|
  {
    if run != [] {
      NextIsGood(c, s, run[0]);
      StepKeepsPrompts(c, s, run[0]);
      RunKeepsPrompts(c, Next(c, s, run[0]), run[1..]);
    }
  }

  /** Every request is put to the administrator at most once; an open one exactly once, unless its hook is still out. */
  lemma OpenIsPromptedOnce(c: Config, s: State, rid: nat)
    requires Reachable(c, s) && rid < |s.reqs|
    ensures PromptCount(s.trace, rid) <= 1
    ensures s.reqs[rid].decision.None? ==> PromptCount(s.trace, rid) == (if s.reqs[rid].hooked then 0 else 1)
  {
    var start: real, run: seq<Timed> :| IsRun(c, Start(start), run) && s == After(c, Start(start), run);
    StartInv(c, start);
    RunKeepsPrompts(c, Start(start), run);
    assert PromptedOk(s.reqs, s.trace, rid);
  }
}
