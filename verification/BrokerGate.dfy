/** How the ways of answering a request from rules and cache agree: the synchronous gate against the queue, a
    remembered exact command against a later identical request, and the recheck at hook time against filing. */
module BrokerGate {
  import opened Options
  import opened Cache
  import opened BrokerModel
  import opened BrokerInvariant
  import opened BrokerSteps
  import opened BrokerTheorems
  import opened BrokerFrames
  import opened ArgvCodec

  // ---------------------------------------------------------------- the gate and the queue

  /** What `_enqueue` makes of a request: refused by the limiter, decided True, decided False, or left undecided. */
  function QueueAnswer(c: Config, s: State, a: BrokerModel.Ask, e: World): GateAnswer
    requires a.kind.Direct?
  {
    var (s', filed) := Enqueue(c, s, a, e);
    if !filed.Queued? then GateLimited
    else
      match s'.reqs[|s.reqs|].decision
      case None => GateUnknown
      case Some(allow) => GateVerdict(allow)
  }

  /** For an ordinary request the gate answers exactly as the queue does, except that an action of the rules-only
      family is unknown to the gate when only a cached approval would answer it. */
  lemma GateAgreesWithQueue(c: Config, s: State, a: BrokerModel.Ask, e: World)
    requires a.kind.Direct?
    ensures CheckPermission(c, s, a, e).1 == QueueAnswer(c, s, a, e) <==>
            !(e.rateOk && RulesOnly(a.action) && e.rules == []
              && Lookup(s.cache, Query(a.caller.uid, a.action, a.caller.exe, a.rawArgv, e.sandboxed),
                        s.now.Floor).Some?)
  {
    assert FirstRule(e.rules, false).None? <==> e.rules == [];
  }

  /** With auditing required, the gate says allow only directly behind a written row that allows this very caller,
      exe and action; it says unknown without writing anything; and it never touches requests, cache or marks. */
  lemma GateAllowsAreAudited(c: Config, s: State, a: BrokerModel.Ask, e: World)
    ensures var (s', answer) := CheckPermission(c, s, a, e);
            && s' == s.(trace := s'.trace) && s.trace <= s'.trace
            && (!answer.GateVerdict? ==> s' == s)
            && (answer == GateVerdict(true) && c.auditRequired ==>
                  && |s'.trace| == |s.trace| + 1 && s'.trace[|s.trace|].Audited?
                  && var row := s'.trace[|s.trace|].entry;
                     row.allow && row.uid == a.caller.uid && row.exe == a.caller.exe && row.action == a.action)
  {
    var s' := CheckPermission(c, s, a, e).0;
    assert s.trace <= s'.trace;
  }

  // ---------------------------------------------------------------- remembered commands

  lemma CachedRowsAllow(c: Config, s: State, row: Row)
    requires Inv(c, s) && row in s.cache
    ensures row.decision
  {
    var k :| StoredAt(s.trace, k, row);
    assert EventOk(s.reqs, s.trace[k]);
  }

  lemma OrderedIds(rows: seq<Row>)
    requires Ordered(rows)
    ensures DistinctIds(rows)
  {
  }

  lemma CandidateIsFound(c: Config, s: State, row: Row, q: Query)
    requires Inv(c, s) && row in s.cache && Candidate(row, q, s.now.Floor)
    ensures Lookup(s.cache, q, s.now.Floor).Some? && Lookup(s.cache, q, s.now.Floor).value.decision
  {
    OrderedIds(s.cache);
    LookupIsOptimal(s.cache, q, s.now.Floor);
    var found := Lookup(s.cache, q, s.now.Floor);
    assert found.Some?;
    CachedRowsAllow(c, s, found.value);
  }

  /** The request asks for the same command by the same user as an earlier filing. */
  predicate Repeats(a: BrokerModel.Ask, f: Filing) {
    && a.caller.uid == f.uid && a.action == f.action && a.caller.exe == f.exe && a.rawArgv == f.argv
    && (a.kind.Direct? || a.kind.Delegated?)
  }

  lemma FinishPinsCommand(c: Config, s: State, rid: nat) returns (row: Row)
    requires Inv(c, s) && rid < |s.reqs| && s.reqs[rid].ticket.Some? && !s.reqs[rid].filing.oneShot
    requires s.reqs[rid].ticket.value.allow && s.reqs[rid].ticket.value.scope.ForeverArgv?
    ensures Finish(c, s, rid, true, true).cache == s.cache + [row]
    ensures var f := s.reqs[rid].filing;
            && row.uid == f.uid && row.action == f.action && row.expires.None?
            && row.kind.ArgvExact? && row.value == f.exe && row.pattern == Tuple(f.argv) && f.argv != []
  {
    assert Shape(s.reqs[rid]);
    row := RowFor(GrantOf(s.reqs[rid].filing, s.reqs[rid].ticket.value), NewId(s.cache), s.now.Floor);
  }

  /** Once a `forever_argv` approval is audited and stored, an identical request that matches no rule, is within its
      rate and is audited, is allowed at once, delegated and sandboxed ones included, until its row is revoked. */
  lemma RememberedCommandIsAllowed(c: Config, s: State, at: real, rid: nat, run: seq<Timed>, a: BrokerModel.Ask,
                                   e: World)
    returns (row: Row)
    requires Reachable(c, s) && s.now <= at
    requires rid < |s.reqs| && s.reqs[rid].ticket.Some? && !s.reqs[rid].filing.oneShot
    requires s.reqs[rid].ticket.value.allow && s.reqs[rid].ticket.value.scope.ForeverArgv?
    requires IsRun(c, Next(c, s, Timed(at, DoFinish(rid, true, true))), run)
    requires Repeats(a, s.reqs[rid].filing) && e.rateOk && e.rules == [] && e.auditOk
    ensures var s1 := Next(c, s, Timed(at, DoFinish(rid, true, true)));
            && row in s1.cache
            && ((forall i :: 0 <= i < |run| ==> !StepRevokes(run[i].step, row)) ==>
                  var s2 := After(c, s1, run);
                  Enqueue(c, s2, a, e).1 == Queued(|s2.reqs|)
                  && Enqueue(c, s2, a, e).0.reqs[|s2.reqs|].decision == Some(true))
  {
    var t := Timed(at, DoFinish(rid, true, true));
    ReachableInv(c, s);
    BrokerMoves.ClockKeepsInv(c, s, at);
    row := FinishPinsCommand(c, s.(now := at), rid);
    var s1 := Next(c, s, t);
    NextIsGood(c, s, t);
    RunIsGood(c, s1, run);
    assert s1.cache[|s1.cache| - 1] == row;
    if forall i :: 0 <= i < |run| ==> !StepRevokes(run[i].step, row) {
      RowOutlivesRun(c, s1, run, row);
      RepeatIsAllowed(c, After(c, s1, run), row, a, e);
    }
  }

  /** The same end to end: the approved request and the later one carry the argv in their details, in any order and
      among other entries; the approved one's details are clean. */
  lemma RememberedArgvIsAllowed(u: Unicode, approved: seq<Entry>, repeated: seq<Entry>, argv: seq<string>,
                                c: Config, s: State, at: real, rid: nat, run: seq<Timed>, a: BrokerModel.Ask, e: World)
    returns (row: Row)
    requires u.Valid() && argv != [] && argv[0] != "" && |argv| <= MAX_INDEX + 1
    requires CleanDetails(u, approved) && Carries(u, approved, argv)
    requires DistinctKeys(repeated) && Carries(u, repeated, argv)
    requires Reachable(c, s) && s.now <= at
    requires rid < |s.reqs| && s.reqs[rid].ticket.Some? && !s.reqs[rid].filing.oneShot
    requires s.reqs[rid].ticket.value.allow && s.reqs[rid].ticket.value.scope.ForeverArgv?
    requires s.reqs[rid].filing.argv == ArgvOf(u, Sanitize(u, approved))
    requires IsRun(c, Next(c, s, Timed(at, DoFinish(rid, true, true))), run)
    requires a.caller.uid == s.reqs[rid].filing.uid && a.action == s.reqs[rid].filing.action
    requires a.caller.exe == s.reqs[rid].filing.exe && a.rawArgv == ArgvOf(u, repeated)
    requires (a.kind.Direct? || a.kind.Delegated?) && e.rateOk && e.rules == [] && e.auditOk
    ensures var s1 := Next(c, s, Timed(at, DoFinish(rid, true, true)));
            && row in s1.cache
            && ((forall i :: 0 <= i < |run| ==> !StepRevokes(run[i].step, row)) ==>
                  var s2 := After(c, s1, run);
                  Enqueue(c, s2, a, e).1 == Queued(|s2.reqs|)
                  && Enqueue(c, s2, a, e).0.reqs[|s2.reqs|].decision == Some(true))
  {
    ArgvRoundTrip(u, approved, argv);
    DecodeReturnsCarried(u, repeated, argv);
    row := RememberedCommandIsAllowed(c, s, at, rid, run, a, e);
  }

  lemma RepeatIsAllowed(c: Config, s: State, row: Row, a: BrokerModel.Ask, e: World)
    requires Inv(c, s) && row in s.cache && row.kind.ArgvExact? && row.expires.None?
    requires row.uid == a.caller.uid && row.action == a.action && row.value == a.caller.exe
    requires row.pattern == Tuple(a.rawArgv) && a.rawArgv != []
    requires (a.kind.Direct? || a.kind.Delegated?) && e.rateOk && e.rules == [] && e.auditOk
    ensures Enqueue(c, s, a, e).1 == Queued(|s.reqs|)
    ensures Enqueue(c, s, a, e).0.reqs[|s.reqs|].decision == Some(true)
  {
    CandidateIsFound(c, s, row, Query(a.caller.uid, a.action, a.caller.exe, a.rawArgv, a.kind.Delegated?
                                      || e.sandboxed));
  }

  // ---------------------------------------------------------------- the recheck at hook time

  /** Blind rows answer only where no pinned row does. */
  lemma PinnedRowsComeFirst(rows: seq<Row>, q: Query, now: int)
    requires DistinctIds(rows) && !q.skipBlind
    ensures Lookup(rows, q.(skipBlind := true), now).Some? ==>
             Lookup(rows, q, now) == Lookup(rows, q.(skipBlind := true), now)
    ensures Lookup(rows, q.(skipBlind := true), now).None? && Lookup(rows, q, now).Some? ==>
              ArgvBlind(Lookup(rows, q, now).value.kind)
  {
    LookupOptimal(rows, q, now);
    LookupIsOptimal(rows, q.(skipBlind := true), now);
    var pinned := Lookup(rows, q.(skipBlind := true), now);
    if pinned.Some? {
      assert Optimal(rows, q, now, pinned);
    }
  }

  /** The request as it would be filed again now, with the rules and the process as they are. */
  function Refiled(f: Filing): BrokerModel.Ask {
    BrokerModel.Ask(Caller(f.uid, f.pid, f.exe, f.startTime), f.action, f.argv, f.argv, if f.delegated then Delegated
                    else Direct)
  }

  function RefilingVerdict(s: State, f: Filing, h: HookAnswers): Verdict {
    FilingVerdict(s, Refiled(f), World(true, h.rules, h.sandboxed, h.auditOk, false), s.now)
  }

  /** How the request would be decided if the answer were sought where a filing seeks it: rules, then cache, and only
      then the hook's verdict; a lost row denies where rows are required, and a changed process is denied. */
  function AsFiled(c: Config, s: State, f: Filing, h: HookAnswers): bool
    requires h.verdict.Some?
  {
    var allow :=
      if !(f.startTime > 0 && h.sameProcess) then false
      else match RefilingVerdict(s, f, h)
           case Closed(_, allow, _) => allow
           case Open => h.verdict.value;
    allow && (h.auditOk || !c.auditRequired)
  }

  function FilingRow(s: State, f: Filing, sandboxed: bool): Option<Row> {
    Lookup(s.cache, Query(f.uid, f.action, f.exe, f.argv, f.delegated || sandboxed), s.now.Floor)
  }

  /** The request is delegated, its process is not sandboxed, and only argv-blind approvals match. */
  predicate OnlyBlindRows(s: State, f: Filing, sandboxed: bool) {
    && f.delegated && !sandboxed && FilingRow(s, f, false).None?
    && Lookup(s.cache, Query(f.uid, f.action, f.exe, f.argv, false), s.now.Floor).Some?
  }

  /** What the recheck does differently from a filing: it passes over every approval of a rules-only action, and it does
      not pass over argv-blind approvals of a delegated request. */
  predicate RecheckDiffers(s: State, f: Filing, h: HookAnswers) {
    if RulesOnly(f.action) then FilingRow(s, f, h.sandboxed).Some? else OnlyBlindRows(s, f, h.sandboxed)
  }

  lemma RecheckedLaunch(c: Config, s: State, f: Filing, h: HookAnswers)
    requires Inv(c, s) && h.rules == [] && RulesOnly(f.action)
    ensures CheckVerdict(s, f.uid, f.exe, f.action, f.argv, h.rules, h.sandboxed, s.now) == Open
    ensures if RecheckDiffers(s, f, h) then RefilingVerdict(s, f, h).Closed? && RefilingVerdict(s, f, h).allow
            else RefilingVerdict(s, f, h) == Open
  {
    var filed := FilingRow(s, f, h.sandboxed);
    if filed.Some? {
      CachedRowsAllow(c, s, filed.value);
    }
  }

  lemma RecheckedRows(c: Config, s: State, f: Filing, h: HookAnswers)
    requires Inv(c, s)
    ensures var found := Lookup(s.cache, Query(f.uid, f.action, f.exe, f.argv, h.sandboxed), s.now.Floor);
            && (found.Some? ==> found.value.decision)
            && if OnlyBlindRows(s, f, h.sandboxed) then found.Some? && FilingRow(s, f, h.sandboxed).None?
               else found == FilingRow(s, f, h.sandboxed)
  {
    OrderedIds(s.cache);
    var q := Query(f.uid, f.action, f.exe, f.argv, h.sandboxed);
    if !h.sandboxed {
      PinnedRowsComeFirst(s.cache, q, s.now.Floor);
    }
    var found := Lookup(s.cache, q, s.now.Floor);
    if found.Some? {
      CachedRowsAllow(c, s, found.value);
    }
  }

  lemma RecheckedOther(c: Config, s: State, f: Filing, h: HookAnswers)
    requires Inv(c, s) && h.rules == [] && !RulesOnly(f.action)
    ensures var check := CheckVerdict(s, f.uid, f.exe, f.action, f.argv, h.rules, h.sandboxed, s.now);
            if RecheckDiffers(s, f, h) then check.Closed? && check.allow && RefilingVerdict(s, f, h) == Open
            else check == RefilingVerdict(s, f, h)
  {
    RecheckedRows(c, s, f, h);
  }

  /** A request whose hook query comes back is decided as if it were filed now, hook last, except exactly when no rule
      matches, the process is unchanged, the hook denies, the row is not lost, and the recheck differs from a filing:
      for a rules-only action some approval would have answered the filing, or for a delegated request of another action
      only argv-blind approvals match. */
  lemma HookRecheckAgrees(c: Config, s: State, rid: nat, h: HookAnswers)
    requires Inv(c, s) && rid < |s.reqs| && s.reqs[rid].hooked && s.reqs[rid].retained && s.reqs[rid].decision.None?
    requires h.verdict.Some?
    ensures var f := s.reqs[rid].filing;
            ApplyHook(c, s, rid, h).reqs[rid].decision == Some(AsFiled(c, s, f, h)) <==>
              !(h.rules == [] && f.startTime > 0 && h.sameProcess && h.verdict == Some(false)
                && (h.auditOk || !c.auditRequired)
                && RecheckDiffers(s, f, h))
  {
    var f := s.reqs[rid].filing;
    assert Shape(s.reqs[rid]);
    HookDecision(c, s, rid, h);
    if h.rules == [] {
      if RulesOnly(f.action) {
        RecheckedLaunch(c, s, f, h);
      } else {
        RecheckedOther(c, s, f, h);
      }
    }
  }

  /** The decision a hook step takes, from the row it is about to write. */
  lemma HookDecision(c: Config, s: State, rid: nat, h: HookAnswers)
    requires rid < |s.reqs| && s.reqs[rid].hooked && s.reqs[rid].retained && s.reqs[rid].decision.None?
             && h.verdict.Some?
    ensures ApplyHook(c, s, rid, h).reqs[rid].decision
             == Some(HookRow(s, rid, h).allow && (h.auditOk || !c.auditRequired))
  {
    assert HookRow(Unhook(s, rid), rid, h) == HookRow(s, rid, h);
  }

  const EXAMPLE_CALLER := Caller(1001, 10, "/usr/bin/tool", 5)
  const EXAMPLE_WORLD := World(true, [], false, true, false)

  const EXAMPLE_ROW := RowFor(Grant(1001, "net.open", "/usr/bin/tool", Forever, true, ADMIN_UID, []), 1, 0)

  function ExampleStep(i: nat): Timed {
    Timed(0.0,
          if i == 0 then DoEnqueue(BrokerModel.Ask(EXAMPLE_CALLER, "net.open", [], [], Direct), EXAMPLE_WORLD)
          else if i == 1 then DoBegin(0, true, Forever, ADMIN_UID, 5, true)
          else if i == 2 then DoFinish(0, true, true)
          else DoEnqueue(BrokerModel.Ask(EXAMPLE_CALLER, "net.open", [], [], Delegated),
                         EXAMPLE_WORLD.(hookStarts := true)))
  }

  lemma ExampleGrant(c: Config) returns (s1: State, s2: State, s3: State)
    ensures s1 == Next(c, Start(0.0), ExampleStep(0)) && s2 == Next(c, s1, ExampleStep(1))
             && s3 == Next(c, s2, ExampleStep(2))
    ensures s1.now == s2.now == s3.now == 0.0 && |s3.reqs| == 1 && s3.cache == [EXAMPLE_ROW]
  {
    s1 := Next(c, Start(0.0), ExampleStep(0));
    var filing := Filing(1001, 10, "/usr/bin/tool", 5, "net.open", [], false, false, "", "", false, 0.0);
    assert s1 == State([NewRequest(filing, None, false)], [], [], map[], map[], [Prompted(0)], 0.0, 0.0);
    s2 := Next(c, s1, ExampleStep(1));
    assert BeginAnswer(s1, 0, true, Forever, 5) == Started;
    s3 := Next(c, s2, ExampleStep(2));
  }

  /** Such a state is reachable: an administrator approves a direct request "forever", then the same user's delegated
      request goes to the hook, which says "deny", and the request is allowed. */
  lemma BlindRowAllowsDelegated(c: Config) returns (s: State, h: HookAnswers)
    ensures Reachable(c, s) && |s.reqs| == 2 && s.reqs[1].filing.delegated && s.reqs[1].hooked
    ensures h == HookAnswers(Some(false), true, [], false, true)
    ensures ApplyHook(c, s, 1, h).reqs[1].decision == Some(true)
  {
    h := HookAnswers(Some(false), true, [], false, true);
    var s1, s2, s3 := ExampleGrant(c);
    s := Next(c, s3, ExampleStep(3));
    ExampleHook(c, s3, h);
    FourSteps(c, Start(0.0), ExampleStep(0), ExampleStep(1), ExampleStep(2), ExampleStep(3));
  }

  lemma ExampleHook(c: Config, s3: State, h: HookAnswers)
    requires |s3.reqs| == 1 && s3.cache == [EXAMPLE_ROW] && h == HookAnswers(Some(false), true, [], false, true)
    ensures var s := Next(c, s3, ExampleStep(3));
            && |s.reqs| == 2 && s.reqs[1].filing.delegated && s.reqs[1].hooked
            && ApplyHook(c, s, 1, h).reqs[1].decision == Some(true)
  {
    var s := Next(c, s3, ExampleStep(3));
    BlindRowAnswers(EXAMPLE_ROW, 0);
    assert s.reqs[1].decision.None? && s.reqs[1].hooked && s.cache == [EXAMPLE_ROW];
    assert HookRow(Unhook(s, 1), 1, h).allow;
  }

  lemma BlindRowAnswers(row: Row, now: int)
    requires row.kind.Always? && row.expires.None?
    ensures forall exe, argv :: Lookup([row], Query(row.uid, row.action, exe, argv, true), now) == None
    ensures forall exe, argv :: Lookup([row], Query(row.uid, row.action, exe, argv, false), now) == Some(row)
  {
    assert [row][..0] == [];
  }

  const LAUNCH := "qdistro.tier1.spawn:web"

  const LAUNCH_ROW := RowFor(Grant(1001, LAUNCH, "/usr/bin/tool", ForeverArgv, true, ADMIN_UID, ["tool"]), 1, 0)

  function LaunchStep(i: nat): Timed {
    Timed(0.0,
          if i == 0 then DoEnqueue(BrokerModel.Ask(EXAMPLE_CALLER, LAUNCH, ["tool"], ["tool"], Direct), EXAMPLE_WORLD)
          else if i == 1 then
            DoEnqueue(BrokerModel.Ask(EXAMPLE_CALLER, LAUNCH, ["tool"], ["tool"], Delegated),
                      EXAMPLE_WORLD.(hookStarts := true))
          else if i == 2 then DoBegin(0, true, ForeverArgv, ADMIN_UID, 5, true)
          else DoFinish(0, true, true))
  }

  lemma LaunchFilings(c: Config) returns (s1: State, s2: State)
    ensures s1 == Next(c, Start(0.0), LaunchStep(0)) && s2 == Next(c, s1, LaunchStep(1)) && s1.now == s2.now == 0.0
    ensures |s2.reqs| == 2 && s2.cache == []
    ensures s2.reqs[0] == NewRequest(LAUNCH_FILING, None, false)
    ensures s2.reqs[1] == NewRequest(LAUNCH_FILING.(delegated := true), None, true)
  {
    s1 := Next(c, Start(0.0), LaunchStep(0));
    s2 := Next(c, s1, LaunchStep(1));
  }

  const LAUNCH_FILING :=
    Filing(1001, 10, "/usr/bin/tool", 5, LAUNCH, ["tool"], false, false, "", "", false, 0.0)

  lemma LaunchBegun(c: Config, s2: State) returns (s3: State)
    requires s2.now == 0.0 && |s2.reqs| == 2 && s2.reqs[0] == NewRequest(LAUNCH_FILING, None, false)
    ensures s3 == Next(c, s2, LaunchStep(2)) && s3.now == 0.0 && s3.cache == s2.cache && |s3.reqs| == 2
    ensures s3.reqs[1] == s2.reqs[1] && s3.reqs[0].filing == LAUNCH_FILING
    ensures s3.reqs[0].ticket == Some(Ticket(true, ForeverArgv, ADMIN_UID, []))
  {
    assert BeginAnswer(s2, 0, true, ForeverArgv, 5) == Started;
    s3 := Next(c, s2, LaunchStep(2));
  }

  lemma LaunchFinished(c: Config, s3: State) returns (s: State)
    requires s3.now == 0.0 && s3.cache == [] && |s3.reqs| == 2 && s3.reqs[0].filing == LAUNCH_FILING
    requires s3.reqs[0].ticket == Some(Ticket(true, ForeverArgv, ADMIN_UID, []))
    ensures s == Next(c, s3, LaunchStep(3)) && s.now == 0.0
    ensures |s.reqs| == 2 && s.reqs[1] == s3.reqs[1] && s.cache == [LAUNCH_ROW]
  {
    s := Next(c, s3, LaunchStep(3));
    assert s3.(now := 0.0) == s3;
    assert GrantOf(LAUNCH_FILING, Ticket(true, ForeverArgv, ADMIN_UID, []))
        == Grant(1001, LAUNCH, "/usr/bin/tool", ForeverArgv, true, ADMIN_UID, ["tool"]);
  }

  /** The other difference is reachable too: a delegated launch waits for its hook while an identical launch is approved
      "forever_argv"; filed now it would be allowed, but the hook's "deny" decides it. */
  lemma RulesOnlyIgnoresApproval(c: Config) returns (s: State, h: HookAnswers)
    ensures Reachable(c, s) && |s.reqs| == 2 && s.reqs[1].filing.delegated && s.reqs[1].hooked
             && s.reqs[1].filing.action == LAUNCH
    ensures h == HookAnswers(Some(false), true, [], false, true)
    ensures ApplyHook(c, s, 1, h).reqs[1].decision == Some(false) && AsFiled(c, s, s.reqs[1].filing, h)
  {
    h := HookAnswers(Some(false), true, [], false, true);
    var s1, s2 := LaunchFilings(c);
    var s3 := LaunchBegun(c, s2);
    s := LaunchFinished(c, s3);
    FourSteps(c, Start(0.0), LaunchStep(0), LaunchStep(1), LaunchStep(2), LaunchStep(3));
    LaunchHook(c, s, h);
  }

  lemma LaunchHook(c: Config, s: State, h: HookAnswers)
    requires s.now == 0.0 && |s.reqs| == 2 && s.cache == [LAUNCH_ROW]
    requires s.reqs[1] == NewRequest(LAUNCH_FILING.(delegated := true), None, true)
    requires h == HookAnswers(Some(false), true, [], false, true)
    ensures ApplyHook(c, s, 1, h).reqs[1].decision == Some(false) && AsFiled(c, s, s.reqs[1].filing, h)
  {
    PinnedRowAnswers(LAUNCH_ROW, 0);
    HookDecision(c, s, 1, h);
  }

  lemma PinnedRowAnswers(row: Row, now: int)
    requires row.kind.ArgvExact? && row.expires.None? && row.pattern == Tuple(["tool"])
    ensures Lookup([row], Query(row.uid, row.action, row.value, ["tool"], true), now) == Some(row)
  {
    assert [row][..0] == [];
  }

  lemma StepFirst(c: Config, s: State, t: Timed, rest: seq<Timed>)
    requires Possible(s, t) && IsRun(c, Next(c, s, t), rest)
    ensures IsRun(c, s, [t] + rest) && After(c, s, [t] + rest) == After(c, Next(c, s, t), rest)
  {
    assert ([t] + rest)[1..] == rest;
  }

  lemma FourSteps(c: Config, s: State, a: Timed, b: Timed, d: Timed, e: Timed)
    requires Possible(s, a) && Possible(Next(c, s, a), b)
    requires Possible(Next(c, Next(c, s, a), b), d) && Possible(Next(c, Next(c, Next(c, s, a), b), d), e)
    ensures IsRun(c, s, [a] + ([b] + ([d] + ([e] + []))))
    ensures After(c, s, [a] + ([b] + ([d] + ([e] + [])))) == Next(c, Next(c, Next(c, Next(c, s, a), b), d), e)
  {
    var s1 := Next(c, s, a);
    var s2 := Next(c, s1, b);
    var s3 := Next(c, s2, d);
    StepFirst(c, s3, e, []);
    StepFirst(c, s2, d, [e] + []);
    StepFirst(c, s1, b, [d] + ([e] + []));
    StepFirst(c, s, a, [b] + ([d] + ([e] + [])));
  }
}
