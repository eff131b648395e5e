/** How long decided requests stay: with reaper passes at most `gap` apart, a decided request is gone within its
    retention time plus two gaps. */
module BrokerTimes {
  import opened Options
  import opened Cache
  import opened BrokerModel
  import opened BrokerInvariant
  import opened BrokerMoves
  import opened BrokerCauses
  import opened BrokerSteps

  // ---------------------------------------------------------------- passes at most `gap` apart

  ghost predicate PromptOk(c: Config, gap: real, q: Request, at: real, lastPass: real) {
    q.retained ==>
      && (q.decidedAt.None? ==> lastPass <= at)
      && (q.decidedAt.Some? ==>
            && q.decidedAt.value <= at + gap
            && (lastPass <= q.decidedAt.value || lastPass - q.decidedAt.value < c.retention))
  }

  /** Where the last pass left every decided request, and every undecided polkit filing. */
  ghost predicate Prompt(c: Config, gap: real, s: State) {
    && s.lastPass <= s.now <= s.lastPass + gap
    && (forall k :: 0 <= k < |s.trace| && s.trace[k].Decided? && s.trace[k].rid < |s.reqs| ==>
          PromptOk(c, gap, s.reqs[s.trace[k].rid], s.trace[k].at, s.lastPass))
    && (forall i :: 0 <= i < |s.reqs| && s.reqs[i].decision.None? && s.reqs[i].filing.cookie != "" ==>
          s.lastPass - s.reqs[i].filing.createdAt < POLKIT_UNDECIDED_TTL)
  }

  /** Only undecided requests are decided. */
  lemma NewDecisionsAreFirst(c: Config, s: State, s': State, k: nat)
    requires Inv(c, s) && Good(c, s, s') && |s.trace| <= k < |s'.trace| && s'.trace[k].Decided?
    ensures s'.trace[k].rid < |s'.reqs|
    ensures s'.trace[k].rid < |s.reqs| ==> s.reqs[s'.trace[k].rid].decision.None?
  {
    var n, rid := |s.trace|, s'.trace[k].rid;
    assert EventOk(s'.reqs, s'.trace[k]);
    assert CountsFor(s.reqs, s.trace, rid) && CountsFor(s'.reqs, s'.trace, rid);
    var u := s'.trace[n..];
    assert s'.trace == s.trace + u && u[k - n] == s'.trace[k];
    DecidedIsCounted(u, k - n);
    ConcatCounts(s.trace, u, rid);
  }

  lemma OtherStepsKeepPrompt(c: Config, gap: real, s: State, step: Step, s': State)
    requires Inv(c, s) && Good(c, s, s') && Explained(c, s, step, s, s') && Prompt(c, gap, s)
    ensures Prompt(c, gap, s')
  {
    forall k | 0 <= k < |s'.trace| && s'.trace[k].Decided? && s'.trace[k].rid < |s'.reqs|
      ensures PromptOk(c, gap, s'.reqs[s'.trace[k].rid], s'.trace[k].at, s'.lastPass)
    {
      var rid := s'.trace[k].rid;
      if k < |s.trace| {
        assert s'.trace[k] == s.trace[k] && EventOk(s.reqs, s.trace[k]);
      } else {
        NewDecisionsAreFirst(c, s, s', k);
        assert rid < |s.reqs| ==> Shape(s.reqs[rid]);
      }
    }
    forall i | 0 <= i < |s'.reqs| && s'.reqs[i].decision.None? && s'.reqs[i].filing.cookie != ""
      ensures s'.lastPass - s'.reqs[i].filing.createdAt < POLKIT_UNDECIDED_TTL
    {
      assert i < |s.reqs| ==> Evolves(s.reqs[i], s'.reqs[i]);
    }
  }

  lemma PassKeepsPrompt(c: Config, gap: real, s: State, step: Step, s': State)
    requires Inv(c, s) && Good(c, s, s') && Prompt(c, gap, s) && c.retention > 0.0
    requires |s'.reqs| == |s.reqs| && forall i :: 0 <= i < |s.reqs| ==> s'.reqs[i] == ReapedTo(c, s.reqs[i], s.now)
    requires AllCaused(c, s, step, s.trace, s'.trace) && s'.now == s.now && s'.lastPass == s.now
    ensures Prompt(c, gap, s')
  {
    forall k | 0 <= k < |s'.trace| && s'.trace[k].Decided? && s'.trace[k].rid < |s'.reqs|
      ensures PromptOk(c, gap, s'.reqs[s'.trace[k].rid], s'.trace[k].at, s'.lastPass)
    {
      var rid := s'.trace[k].rid;
      if k < |s.trace| {
        assert s'.trace[k] == s.trace[k] && EventOk(s.reqs, s.trace[k]);
        assert PromptOk(c, gap, s.reqs[rid], s.trace[k].at, s.lastPass);
      } else {
        NewDecisionsAreFirst(c, s, s', k);
        assert EventOk(s'.reqs, s'.trace[k]);
        assert Shape(s.reqs[rid]);
      }
    }
    forall i | 0 <= i < |s'.reqs| && s'.reqs[i].decision.None? && s'.reqs[i].filing.cookie != ""
      ensures s'.lastPass - s'.reqs[i].filing.createdAt < POLKIT_UNDECIDED_TTL
    {
      assert s'.reqs[i] == ReapedTo(c, s.reqs[i], s.now) && Shape(s.reqs[i]);
    }
  }

  /** Every step comes at most `gap` after the pass before it. */
  ghost predicate TimelyRun(c: Config, s: State, run: seq<Timed>, gap: real)
    decreases |run|
  {
    run != [] ==>
      && Possible(s, run[0]) && run[0].at <= s.lastPass + gap
      && TimelyRun(c, Next(c, s, run[0]), run[1..], gap)
  }

  lemma PassStepKeepsPrompt(c: Config, gap: real, s: State, audited: set<nat>, s': State)
    requires Inv(c, s) && Good(c, s, s') && Prompt(c, gap, s) && c.retention > 0.0 && s' == Reap(c, s, audited)
    ensures Prompt(c, gap, s')
  {
    ReapIsPointwise(c, s, s.(lastPass := s.now), 0, audited);
    PassKeepsPrompt(c, gap, s, DoReap(audited), s');
  }

  lemma NextKeepsPrompt(c: Config, gap: real, s: State, t: Timed)
    requires Inv(c, s) && Prompt(c, gap, s) && c.retention > 0.0
    requires Possible(s, t) && t.at <= s.lastPass + gap
    ensures Prompt(c, gap, Next(c, s, t))
  {
    var s0, s' := s.(now := t.at), Next(c, s, t);
    ClockKeepsInv(c, s, t.at);
    PerformIsGood(c, s0, t.step);
    assert Prompt(c, gap, s0);
    if t.step.DoReap? {
      PassStepKeepsPrompt(c, gap, s0, t.step.audited, s');
    } else {
      OtherStepsExplained(c, s0, t.step);
      OtherStepsKeepPrompt(c, gap, s0, t.step, s');
    }
  }

  lemma {:induction false} TimelyRunIsPrompt(c: Config, gap: real, s: State, run: seq<Timed>)
    requires Inv(c, s) && Prompt(c, gap, s) && c.retention > 0.0 && TimelyRun(c, s, run, gap)
    ensures Inv(c, After(c, s, run)) && Prompt(c, gap, After(c, s, run))
    decreases |run|
  {
    if run != [] {
      NextIsGood(c, s, run[0]);
      NextKeepsPrompt(c, gap, s, run[0]);
      TimelyRunIsPrompt(c, gap, Next(c, s, run[0]), run[1..]);
    }
  }

  /** With passes at most `gap` apart, a decided request is out of the pending map within its retention time plus
      two gaps, and no polkit filing stays undecided longer than its time to live plus one gap. */
  lemma ReapedInTime(c: Config, gap: real, start: real, run: seq<Timed>, k: nat, i: nat)
    requires gap >= 0.0 && c.retention > 0.0 && TimelyRun(c, Start(start), run, gap)
    ensures var s := After(c, Start(start), run);
            && (k < |s.trace| && s.trace[k].Decided? && s.now - s.trace[k].at > c.retention + 2.0 * gap ==>
                  s.trace[k].rid < |s.reqs| && !s.reqs[s.trace[k].rid].retained)
            && (i < |s.reqs| && s.reqs[i].filing.cookie != ""
                  && s.now - s.reqs[i].filing.createdAt >= POLKIT_UNDECIDED_TTL + gap ==>
                  s.reqs[i].decision.Some?)
  {
    StartInv(c, start);
    TimelyRunIsPrompt(c, gap, Start(start), run);
    var s := After(c, Start(start), run);
    if k < |s.trace| && s.trace[k].Decided? {
      assert EventOk(s.reqs, s.trace[k]);
      assert PromptOk(c, gap, s.reqs[s.trace[k].rid], s.trace[k].at, s.lastPass);
    }
  }
}
