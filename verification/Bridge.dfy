/** The admin app's side of a decision (admin_app/qdistro_admin_app.py, `BrokerBridge` and `_bulk_decide`).

    Request ids are per broker instance and start again at 1 with each.  An instance's unique bus name is its position
    in `instances`: names are never reused.  Instances start, die and take over the well-known name at any time; the
    app's calls are broken up where something else can happen in between, including while a password prompt is open. */
module Bridge {
  import opened Options

  /** `requests[r - 1]` is what request `r` of the instance is about. */
  datatype Instance = Instance(alive: bool, requests: seq<string>)

  /** A row as the app shows it; `owner` is None when the row carries no instance. */
  datatype Row = Row(owner: Option<nat>, rid: nat, about: string)

  datatype Result = Delivered | InstanceChanged | InstanceGone | AuthNotGranted | AuthStillRequired

  /** Where a `decide` call is. */
  datatype Stage = Checking | Sending | Prompting | Resending | Over(result: Result)

  datatype Decision = Decision(row: Row, allow: bool, stage: Stage)

  /** A `DecideRequest` that reached an instance, for the app's decision number `call`. */
  datatype Delivery = Delivery(call: nat, instance: nat, rid: nat, allow: bool)

  datatype State = State(instances: seq<Instance>, owner: Option<nat>, fetches: seq<nat>, shown: set<Row>,
                         decisions: seq<Decision>, authorizing: bool, deliveries: seq<Delivery>)

  const START := State([], None, [], {}, [], false, [])

  predicate Alive(s: State, i: nat) { i < |s.instances| && s.instances[i].alive }

  datatype Step =
    | InstanceStarts
    | InstanceDies(i: nat)
    | NameMoves(to: Option<nat>)
    | RequestFiled(i: nat, about: string)
    | FetchBegins
    | FetchAnswered(fetch: nat)
    | Decides(row: Row, allow: bool)
    | Advances(call: nat, authRequired: bool, granted: bool)

  /** The rows `GetPending` gives, tagged with the instance that was asked. */
  function Tagged(owner: nat, requests: seq<string>): set<Row> {
    set i | 0 <= i < |requests| :: Row(Some(owner), i + 1, requests[i])
  }

  /** A `DecideRequest` sent to the row's instance, whoever owns the well-known name now. */
  function Deliver(s: State, call: nat): State
    requires call < |s.decisions| && s.decisions[call].row.owner.Some?
  {
    var d := s.decisions[call];
    s.(deliveries := s.deliveries + [Delivery(call, d.row.owner.value, d.row.rid, d.allow)],
       decisions := s.decisions[call := d.(stage := Over(Delivered))])
  }

  function SetStage(s: State, call: nat, stage: Stage): State
    requires call < |s.decisions|
  {
    s.(decisions := s.decisions[call := s.decisions[call].(stage := stage)])
  }

  /** The next operation of a `decide` call. */
  function Advance(s: State, call: nat, authRequired: bool, granted: bool): State
    requires call < |s.decisions|
  {
    var d := s.decisions[call];
    match d.stage
    case Checking =>
      if d.row.owner.None? || s.owner != d.row.owner then SetStage(s, call, Over(InstanceChanged))
          else SetStage(s, call, Sending)
    case Sending =>
      if d.row.owner.None? || !Alive(s, d.row.owner.value) then SetStage(s, call, Over(InstanceGone))
      else if !authRequired then Deliver(s, call)
      else if s.authorizing then SetStage(s, call, Over(AuthNotGranted))
      else SetStage(s, call, Prompting).(authorizing := true)
    case Prompting =>
      SetStage(s, call, if granted then Resending else Over(AuthNotGranted)).(authorizing := false)
    case Resending =>
      if d.row.owner.None? || !Alive(s, d.row.owner.value) then SetStage(s, call, Over(InstanceGone))
      else if authRequired then SetStage(s, call, Over(AuthStillRequired))
      else Deliver(s, call)
    case Over(_) => s
  }

  /** The admin decides rows the app has shown, or rows that carry no instance. */
  predicate Possible(s: State, step: Step) {
    match step
    case Decides(row, _) => row in s.shown || row.owner.None?
    case NameMoves(to) => to.Some? ==> Alive(s, to.value)
    case _ => true
  }

  function Move(s: State, step: Step): State {
    match step
    case InstanceStarts => s.(instances := s.instances + [Instance(true, [])])
    case InstanceDies(i) =>
      if i >= |s.instances| then s
      else s.(instances := s.instances[i := s.instances[i].(alive := false)], owner := if s.owner
              == Some(i) then None else s.owner)
    case NameMoves(to) => s.(owner := to)
    case RequestFiled(i, about) =>
      if !Alive(s, i) then s
      else s.(instances := s.instances[i := s.instances[i].(requests := s.instances[i].requests + [about])])
    case FetchBegins => if s.owner.None? then s else s.(fetches := s.fetches + [s.owner.value])
    case FetchAnswered(fetch) =>
      if fetch >= |s.fetches| || !Alive(s, s.fetches[fetch]) then s
      else s.(shown := s.shown + Tagged(s.fetches[fetch], s.instances[s.fetches[fetch]].requests))
    case Decides(row, allow) => s.(decisions := s.decisions + [Decision(row, allow, Checking)])
    case Advances(call, authRequired, granted) =>
      if call >= |s.decisions| then s else Advance(s, call, authRequired, granted)
  }

  ghost predicate IsRun(s: State, run: seq<Step>)
    decreases |run|
  {
    run != [] ==> Possible(s, run[0]) && IsRun(Move(s, run[0]), run[1..])
  }

  function After(s: State, run: seq<Step>): State
    decreases |run|
  {
    if run == [] then s else After(Move(s, run[0]), run[1..])
  }

  // ---------------------------------------------------------------- what every run keeps

  /** The row says what request `rid` of its instance is about. */
  ghost predicate Truthful(s: State, row: Row) {
    && row.owner.Some? && row.owner.value < |s.instances|
    && 1 <= row.rid <= |s.instances[row.owner.value].requests|
    && s.instances[row.owner.value].requests[row.rid - 1] == row.about
  }

  ghost predicate DeliveryOk(s: State, x: Delivery) {
    && x.call < |s.decisions| && s.decisions[x.call].stage == Over(Delivered)
    && s.decisions[x.call].row in s.shown && s.decisions[x.call].allow == x.allow
    && s.decisions[x.call].row.owner == Some(x.instance) && s.decisions[x.call].row.rid == x.rid
  }

  ghost predicate Reached(s: State, call: nat) {
    exists k :: 0 <= k < |s.deliveries| && s.deliveries[k].call == call
  }

  /** How many password prompts are open. */
  function Prompts(decisions: seq<Decision>): nat {
    if decisions == [] then 0
    else Prompts(decisions[..|decisions| - 1]) + (if decisions[|decisions| - 1].stage.Prompting? then 1 else 0)
  }

  ghost predicate Inv(s: State) {
    && (forall row :: row in s.shown ==> Truthful(s, row))
    && (forall i :: 0 <= i < |s.fetches| ==> s.fetches[i] < |s.instances|)
    && (forall i :: 0 <= i < |s.decisions| ==> s.decisions[i].row in s.shown || s.decisions[i].row.owner.None?)
    && (forall k :: 0 <= k < |s.deliveries| ==> DeliveryOk(s, s.deliveries[k]))
    && (forall j, k :: 0 <= j < k < |s.deliveries| ==> s.deliveries[j].call != s.deliveries[k].call)
    && (forall i :: 0 <= i < |s.decisions| && s.decisions[i].stage == Over(Delivered) ==> Reached(s, i))
    && Prompts(s.decisions) == (if s.authorizing then 1 else 0)
    && (s.owner.Some? ==> s.owner.value < |s.instances|)
  }

  lemma StartInv()
    ensures Inv(START)
  {
  }

  lemma {:induction false} PromptsUpdate(ds: seq<Decision>, i: nat, d: Decision)
    requires i < |ds|
    ensures Prompts(ds[i := d]) + (if ds[i].stage.Prompting? then 1 else 0) == Prompts(ds)
             + (if d.stage.Prompting? then 1 else 0)
  {
    var n := |ds| - 1;
    if i < n {
      PromptsUpdate(ds[..n], i, d);
      assert ds[i := d][..n] == ds[..n][i := d];
    } else {
      assert ds[i := d][..n] == ds[..n];
    }
  }

  lemma {:induction false} PromptsCounted(ds: seq<Decision>, i: nat)
    requires i < |ds| && ds[i].stage.Prompting?
    ensures Prompts(ds) >= 1
  {
    if i < |ds| - 1 {
      PromptsCounted(ds[..|ds| - 1], i);
    }
  }

  lemma DeliverKeepsInv(s: State, call: nat)
    requires Inv(s) && call < |s.decisions| && s.decisions[call].row.owner.Some?
    requires !s.decisions[call].stage.Over? && !s.decisions[call].stage.Prompting?
    ensures Inv(Deliver(s, call))
  {
    var s' := Deliver(s, call);
    PromptsUpdate(s.decisions, call, s.decisions[call].(stage := Over(Delivered)));
    forall k | 0 <= k < |s'.deliveries| ensures DeliveryOk(s', s'.deliveries[k]) {
      if k < |s.deliveries| {
        assert DeliveryOk(s, s.deliveries[k]);
      }
    }
    forall row | row in s'.shown ensures Truthful(s', row) {
      assert Truthful(s, row);
    }
    forall i | 0 <= i < |s'.decisions| && s'.decisions[i].stage == Over(Delivered) ensures Reached(s', i) {
      if i == call {
        assert s'.deliveries[|s.deliveries|].call == call;
      } else {
        assert Reached(s, i);
        var k :| 0 <= k < |s.deliveries| && s.deliveries[k].call == i;
        assert s'.deliveries[k] == s.deliveries[k];
      }
    }
  }

  lemma StageKeepsInv(s: State, call: nat, stage: Stage, authorizing: bool)
    requires Inv(s) && call < |s.decisions| && !s.decisions[call].stage.Over? && stage != Over(Delivered)
    requires (if authorizing then 1 else 0) + (if s.decisions[call].stage.Prompting? then 1 else 0)
             == (if s.authorizing then 1 else 0) + (if stage.Prompting? then 1 else 0)
    ensures Inv(SetStage(s, call, stage).(authorizing := authorizing))
  {
    var s' := SetStage(s, call, stage).(authorizing := authorizing);
    PromptsUpdate(s.decisions, call, s.decisions[call].(stage := stage));
    forall k | 0 <= k < |s'.deliveries| ensures DeliveryOk(s', s'.deliveries[k]) {
      assert DeliveryOk(s, s.deliveries[k]);
    }
    forall row | row in s'.shown ensures Truthful(s', row) {
      assert Truthful(s, row);
    }
    forall i | 0 <= i < |s'.decisions| && s'.decisions[i].stage == Over(Delivered) ensures Reached(s', i) {
      assert Reached(s, i);
    }
  }

  lemma AdvanceKeepsInv(s: State, call: nat, authRequired: bool, granted: bool)
    requires Inv(s) && call < |s.decisions|
    ensures Inv(Advance(s, call, authRequired, granted))
  {
    var d := s.decisions[call];
    if d.stage.Prompting? {
      PromptsCounted(s.decisions, call);
      StageKeepsInv(s, call, if granted then Resending else Over(AuthNotGranted), false);
    } else if d.stage.Over? {
    } else if d.stage.Checking? {
      StageKeepsInv(s, call, Over(InstanceChanged), s.authorizing);
      StageKeepsInv(s, call, Sending, s.authorizing);
    } else if d.row.owner.None? || !Alive(s, d.row.owner.value) {
      StageKeepsInv(s, call, Over(InstanceGone), s.authorizing);
    } else if !authRequired {
      DeliverKeepsInv(s, call);
    } else if d.stage.Resending? {
      StageKeepsInv(s, call, Over(AuthStillRequired), s.authorizing);
    } else if s.authorizing {
      StageKeepsInv(s, call, Over(AuthNotGranted), true);
    } else {
      StageKeepsInv(s, call, Prompting, true);
    }
  }

  /** Requests are only ever added to an instance. */
  ghost predicate Grown(a: seq<Instance>, b: seq<Instance>) {
    |a| <= |b| && forall i :: 0 <= i < |a| ==> a[i].requests <= b[i].requests
  }

  lemma WorldKeepsInv(s: State, s': State)
    requires Inv(s) && s' == s.(instances := s'.instances, owner := s'.owner) && Grown(s.instances, s'.instances)
    requires s'.owner.Some? ==> s'.owner.value < |s'.instances|
    ensures Inv(s')
  {
    forall row | row in s'.shown ensures Truthful(s', row) {
      assert Truthful(s, row);
      assert s.instances[row.owner.value].requests <= s'.instances[row.owner.value].requests;
    }
    forall k | 0 <= k < |s'.deliveries| ensures DeliveryOk(s', s'.deliveries[k]) {
      assert DeliveryOk(s, s.deliveries[k]);
    }
    forall i | 0 <= i < |s'.decisions| && s'.decisions[i].stage == Over(Delivered) ensures Reached(s', i) {
      assert Reached(s, i);
    }
  }

  lemma FetchKeepsInv(s: State, fetch: nat)
    requires Inv(s) && fetch < |s.fetches| && Alive(s, s.fetches[fetch])
    ensures Inv(Move(s, FetchAnswered(fetch)))
  {
    var s' := Move(s, FetchAnswered(fetch));
    forall row | row in s'.shown ensures Truthful(s', row) {
      if row in s.shown {
        assert Truthful(s, row);
      }
    }
    forall k | 0 <= k < |s'.deliveries| ensures DeliveryOk(s', s'.deliveries[k]) {
      assert DeliveryOk(s, s.deliveries[k]);
    }
    forall i | 0 <= i < |s'.decisions| && s'.decisions[i].stage == Over(Delivered) ensures Reached(s', i) {
      assert Reached(s, i);
    }
  }

  lemma DecidesKeepsInv(s: State, row: Row, allow: bool)
    requires Inv(s) && (row in s.shown || row.owner.None?)
    ensures Inv(Move(s, Decides(row, allow)))
  {
    var s' := Move(s, Decides(row, allow));
    assert s'.decisions[..|s.decisions|] == s.decisions;
    forall k | 0 <= k < |s'.deliveries| ensures DeliveryOk(s', s'.deliveries[k]) {
      assert DeliveryOk(s, s.deliveries[k]);
    }
    forall r | r in s'.shown ensures Truthful(s', r) {
      assert Truthful(s, r);
    }
    forall i | 0 <= i < |s'.decisions| && s'.decisions[i].stage == Over(Delivered) ensures Reached(s', i) {
      assert Reached(s, i);
    }
  }

  lemma BeginKeepsInv(s: State)
    requires Inv(s)
    ensures Inv(Move(s, FetchBegins))
  {
    var s' := Move(s, FetchBegins);
    forall row | row in s'.shown ensures Truthful(s', row) {
      assert Truthful(s, row);
    }
    forall k | 0 <= k < |s'.deliveries| ensures DeliveryOk(s', s'.deliveries[k]) {
      assert DeliveryOk(s, s.deliveries[k]);
    }
    forall i | 0 <= i < |s'.decisions| && s'.decisions[i].stage == Over(Delivered) ensures Reached(s', i) {
      assert Reached(s, i);
    }
  }

  predicate IsWorld(step: Step) { step.InstanceStarts? || step.InstanceDies? || step.NameMoves? || step.RequestFiled? }

  lemma WorldStepKeepsInv(s: State, step: Step)
    requires Inv(s) && Possible(s, step) && IsWorld(step)
    ensures Inv(Move(s, step))
  {
    var s' := Move(s, step);
    assert Grown(s.instances, s'.instances);
    WorldKeepsInv(s, s');
  }

  lemma MoveKeepsInv(s: State, step: Step)
    requires Inv(s) && Possible(s, step)
    ensures Inv(Move(s, step))
  {
    match step
    case FetchBegins => BeginKeepsInv(s);
    case FetchAnswered(fetch) =>
      if fetch < |s.fetches| && Alive(s, s.fetches[fetch]) {
        FetchKeepsInv(s, fetch);
      }
    case Decides(row, allow) => DecidesKeepsInv(s, row, allow);
    case Advances(call, authRequired, granted) =>
      if call < |s.decisions| {
        AdvanceKeepsInv(s, call, authRequired, granted);
      }
    case _ => WorldStepKeepsInv(s, step);
  }

  lemma {:induction false} RunKeepsInv(s: State, run: seq<Step>)
    requires Inv(s) && IsRun(s, run)
    ensures Inv(After(s, run))
    decreases |run|
  {
    if run != [] {
      MoveKeepsInv(s, run[0]);
      RunKeepsInv(Move(s, run[0]), run[1..]);
    }
  }

  /** Whatever restarts, refreshes, prompts and other decisions come in between: a decision that reaches a broker
      instance was made on a row of that very instance, and the request it names there is the one the row showed;
      a decision reaches an instance at most once; and at most one password prompt is open. */
  lemma DecisionsStayWithTheirInstance(run: seq<Step>, k: nat)
    requires IsRun(START, run) && k < |After(START, run).deliveries|
    ensures var s := After(START, run);
            var x := s.deliveries[k];
            && x.call < |s.decisions| && x.instance < |s.instances|
            && s.decisions[x.call].row.owner == Some(x.instance) && s.decisions[x.call].allow == x.allow
            && 1 <= x.rid <= |s.instances[x.instance].requests|
            && s.instances[x.instance].requests[x.rid - 1] == s.decisions[x.call].row.about
            && (forall j :: 0 <= j < |s.deliveries| && j != k ==> s.deliveries[j].call != x.call)
    ensures Prompts(After(START, run).decisions) <= 1
  {
    StartInv();
    RunKeepsInv(START, run);
    var s := After(START, run);
    assert DeliveryOk(s, s.deliveries[k]);
    assert Truthful(s, s.decisions[s.deliveries[k].call].row);
  }

  // ---------------------------------------------------------------- a decision that should arrive does

  /** None of these steps is the call's own. */
  ghost predicate Elsewhere(run: seq<Step>, call: nat) {
    forall i :: 0 <= i < |run| ==> !(run[i].Advances? && run[i].call == call)
  }

  lemma {:induction false} OthersLeaveCall(s: State, run: seq<Step>, call: nat)
    requires call < |s.decisions| && Elsewhere(run, call)
    ensures call < |After(s, run).decisions| && After(s, run).decisions[call] == s.decisions[call]
    decreases |run|
  {
    if run != [] {
      assert !(run[0].Advances? && run[0].call == call);
      forall i | 0 <= i < |run[1..]| ensures !(run[1..][i].Advances? && run[1..][i].call == call) {
        assert run[1..][i] == run[i + 1];
      }
      OthersLeaveCall(Move(s, run[0]), run[1..], call);
    }
  }

  /** The call's decision has just reached the instance of its row. */
  ghost predicate JustDelivered(s: State, s': State, call: nat, row: Row, allow: bool) {
    && row.owner.Some? && s'.deliveries == s.deliveries + [Delivery(call, row.owner.value, row.rid, allow)]
    && call < |s'.decisions| && s'.decisions[call].stage == Over(Delivered)
  }

  /** A decide whose row is of the current instance when it is checked and whose instance is alive when it is sent
      arrives: at once with authority, and after a granted prompt otherwise, whatever happens in between. */
  lemma {:induction false} CurrentInstanceIsReached(s: State, row: Row, allow: bool, before: seq<Step>,
                                                    between: seq<Step>, granted: bool)
    requires row.owner.Some? && Elsewhere(before, |s.decisions|) && Elsewhere(between, |s.decisions|)
    requires var s1 := After(Move(s, Decides(row, allow)), before);
             var s2 := After(Move(s1, Advances(|s.decisions|, false, granted)), between);
             s1.owner == row.owner && Alive(s2, row.owner.value)
    ensures var call := |s.decisions|;
            var s1 := After(Move(s, Decides(row, allow)), before);
            var s2 := After(Move(s1, Advances(call, false, granted)), between);
            && JustDelivered(s2, Move(s2, Advances(call, false, granted)), call, row, allow)
            && (!s2.authorizing ==> Move(s2, Advances(call, true, granted)).decisions[call].stage == Prompting)
  {
    var call, s0 := |s.decisions|, Move(s, Decides(row, allow));
    var s1 := After(s0, before);
    OthersLeaveCall(s0, before, call);
    OthersLeaveCall(Move(s1, Advances(call, false, granted)), between, call);
  }

  /** A prompt that is granted sends the decision again, and it arrives if the instance is still alive. */
  lemma {:induction false} GrantedIsReached(s: State, call: nat, between: seq<Step>, late: seq<Step>)
    requires call < |s.decisions| && s.decisions[call].stage.Prompting? && s.decisions[call].row.owner.Some?
    requires Elsewhere(between, call) && Elsewhere(late, call)
    requires Alive(After(Move(After(s, between), Advances(call, true, true)), late), s.decisions[call].row.owner.value)
    ensures var s2 := After(Move(After(s, between), Advances(call, true, true)), late);
            JustDelivered(s2, Move(s2, Advances(call, false, true)), call, s.decisions[call].row,
                          s.decisions[call].allow)
  {
    OthersLeaveCall(s, between, call);
    OthersLeaveCall(Move(After(s, between), Advances(call, true, true)), late, call);
  }

  // ---------------------------------------------------------------- rows and bulk decisions

  /** What `GetPending` returns for one request. */
  datatype Raw = Raw(rid: nat, about: string)

  /** The loop of `get_pending`: every row is tagged with the instance that was asked. */
  method TagRows(owner: nat, raw: seq<Raw>) returns (rows: seq<Row>)
    ensures |rows| == |raw| && forall i :: 0 <= i < |raw| ==> rows[i] == Row(Some(owner), raw[i].rid, raw[i].about)
  {
    rows := [];
    for i := 0 to |raw|
      invariant |rows| == i && forall k :: 0 <= k < i ==> rows[k] == Row(Some(owner), raw[k].rid, raw[k].about)
    {
      rows := rows + [Row(Some(owner), raw[i].rid, raw[i].about)];
    }
  }

  /** How one `decide` of a bulk run ended. */
  datatype Answer = Applied | AppliedUncached | NotApplied(reason: string) | Raised(notGranted: bool, error: string)

  predicate IsApplied(a: Answer) { a.Applied? || a.AppliedUncached? }

  function CountApplied(answers: seq<Answer>): nat {
    if answers == [] then 0
    else CountApplied(answers[..|answers| - 1]) + (if IsApplied(answers[|answers| - 1]) then 1 else 0)
  }

  function CountUncached(answers: seq<Answer>): nat {
    if answers == [] then 0
    else CountUncached(answers[..|answers| - 1]) + (if answers[|answers| - 1].AppliedUncached? then 1 else 0)
  }

  /** The rows whose decision was not applied, with why, in row order. */
  function Failures(rows: seq<Row>, answers: seq<Answer>): seq<(nat, Answer)>
    requires |answers| <= |rows|
  {
    if answers == [] then []
    else
      var n := |answers| - 1;
      Failures(rows, answers[..n]) + (if IsApplied(answers[n]) then [] else [(rows[n].rid, answers[n])])
  }

  /** Every row asked about is reported once, as applied or as a failure. */
  lemma {:induction false} SummaryAddsUp(rows: seq<Row>, answers: seq<Answer>)
    requires |answers| <= |rows|
    ensures CountApplied(answers) + |Failures(rows, answers)| == |answers|
             && CountUncached(answers) <= CountApplied(answers)
  {
    if answers != [] {
      SummaryAddsUp(rows, answers[..|answers| - 1]);
    }
  }

  predicate Refuses(a: Answer) { a.Raised? && a.notGranted }

  /** What `decide` may answer, by how its call ended. */
  predicate Fits(result: Result, a: Answer) {
    match result
    case Delivered => !Refuses(a)
    case InstanceChanged => a.NotApplied?
    case AuthNotGranted => Refuses(a)
    case _ => a.Raised? && !a.notGranted
  }

  /** The answer is that of call number `call`, which decided this row. */
  ghost predicate AnsweredBy(s: State, call: nat, row: Row, allow: bool, a: Answer) {
    && call < |s.decisions| && s.decisions[call].row == row && s.decisions[call].allow == allow
    && s.decisions[call].stage.Over? && Fits(s.decisions[call].stage.result, a)
  }

  /** A row of a bulk run counted as applied was decided at the instance that reported it, about the request it showed,
      by its own call and no other. */
  lemma AppliedRowsWereReached(run: seq<Step>, call: nat, row: Row, allow: bool, a: Answer) returns (k: nat)
    requires IsRun(START, run) && AnsweredBy(After(START, run), call, row, allow, a) && IsApplied(a)
    ensures var s := After(START, run);
            && k < |s.deliveries| && s.deliveries[k].call == call && s.deliveries[k].allow == allow
            && row.owner == Some(s.deliveries[k].instance) && row.rid == s.deliveries[k].rid
            && s.deliveries[k].instance < |s.instances|
                && 1 <= row.rid <= |s.instances[s.deliveries[k].instance].requests|
            && s.instances[s.deliveries[k].instance].requests[row.rid - 1] == row.about
  {
    StartInv();
    RunKeepsInv(START, run);
    var s := After(START, run);
    assert Reached(s, call);
    var m :| 0 <= m < |s.deliveries| && s.deliveries[m].call == call;
    k := m;
    DecisionsStayWithTheirInstance(run, k);
  }

  /** How many rows a bulk run asks about from row `i` on: the dialog's button and a refused password stop it. */
  function Asked(presses: seq<bool>, supply: seq<Answer>, i: nat): nat
    requires i <= |presses| == |supply|
    decreases |presses| - i
  {
    if i == |presses| || presses[i] then i
    else if Refuses(supply[i]) then i + 1
    else Asked(presses, supply, i + 1)
  }

  /** The state of `_bulk_decide` while it works through its snapshot of rows. */
  class BulkRun {
    const rows: seq<Row>
    const allow: bool
    var i: nat
    var ok: nat
    var uncached: nat
    var failures: seq<(nat, Answer)>
    var cancelled: bool
    /** What the `decide` calls answered, row by row, and which calls they were. */
    ghost var answers: seq<Answer>
    ghost var calls: seq<nat>

    ghost predicate Valid()
      reads this
    {
      && i == |answers| == |calls| <= |rows|
      && ok == CountApplied(answers) && uncached == CountUncached(answers) && failures == Failures(rows, answers)
    }

    constructor (rows: seq<Row>, allow: bool)
      ensures Valid() && this.rows == rows && this.allow == allow && answers == [] && !cancelled
    {
      this.rows, this.allow := rows, allow;
      i, ok, uncached, failures, cancelled, answers, calls := 0, 0, 0, [], false, [], [];
    }

    /** Whether the run has nothing left to do; the progress dialog's button cancels it. */
    method Finished(progressCancelled: bool) returns (finished: bool)
      requires Valid()
      modifies this`cancelled
      ensures Valid()
      ensures finished == (old(cancelled) || i == |rows| || progressCancelled)
      ensures cancelled == (old(cancelled) || (i < |rows| && progressCancelled))
    {
      if cancelled || i >= |rows| {
        return true;
      }
      if progressCancelled {
        cancelled := true;
        return true;
      }
      return false;
    }

    /** One row: `answer` is what its `decide`, call number `call` of session `s`, gave. */
    method Take(answer: Answer, ghost s: State, ghost call: nat)
      requires Valid() && i < |rows| && !cancelled && AnsweredBy(s, call, rows[i], allow, answer)
      modifies this
      ensures Valid() && answers == old(answers) + [answer] && calls == old(calls) + [call]
      ensures cancelled == Refuses(answer)
    {
      match answer {
        case Raised(notGranted, _) =>
          failures := failures + [(rows[i].rid, answer)];
          if notGranted {
            cancelled := true;
          }
        case NotApplied(_) => failures := failures + [(rows[i].rid, answer)];
        case Applied => ok := ok + 1;
        case AppliedUncached =>
          ok := ok + 1;
          uncached := uncached + 1;
      }
      assert (answers + [answer])[..|answers|] == answers;
      i := i + 1;
      answers, calls := answers + [answer], calls + [call];
    }

    /** The whole batch: rows are decided in order, each by its own call, until the end, the dialog's button or the
        first refused password.  `presses[k]`: the button is down before row `k`. */
    method Run(presses: seq<bool>, supply: seq<Answer>, ghost s: State, ghost made: seq<nat>)
      requires Valid() && i == 0 && !cancelled && |presses| == |supply| == |made| == |rows|
      requires forall k :: 0 <= k < Asked(presses, supply, 0) && k < |rows| ==>
               AnsweredBy(s, made[k], rows[k], allow, supply[k])
      modifies this
      ensures Valid() && i == Asked(presses, supply, 0) && answers == supply[..i] && calls == made[..i]
    {
      var finished := Finished(i < |presses| && presses[i]);
      while !finished
        invariant Valid() && answers == supply[..i] && calls == made[..i]
        invariant if finished then i == Asked(presses, supply, 0)
                  else !cancelled && i < |rows| && !presses[i] && Asked(presses, supply, i) == Asked(presses, supply, 0)
        decreases |rows| - i, !finished
      {
        AskedGrows(presses, supply, i);
        Take(supply[i], s, made[i]);
        finished := Finished(i < |presses| && presses[i]);
      }
    }
  }

  lemma {:induction false} AskedGrows(presses: seq<bool>, supply: seq<Answer>, i: nat)
    requires i <= |presses| == |supply|
    ensures i <= Asked(presses, supply, i) <= |presses|
    ensures i < |presses| && !presses[i] ==> i < Asked(presses, supply, i)
    decreases |presses| - i
  {
    if i < |presses| && !presses[i] && !Refuses(supply[i]) {
      AskedGrows(presses, supply, i + 1);
    }
  }
}
