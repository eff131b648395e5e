/** The admin broker's decision engine as a state machine (broker/qdistro_admin_broker.py).

    Every D-Bus method and idle callback runs to completion on one main loop, so each is one step.
    `DecideRequest` is two: `Begin` is the block under the lock, `Finish` the audit, cache and reply
    work after it; other steps may come between.  A step carries what the outside world answers while
    it runs: the clock, the rules that match, whether an audit or cache write succeeds, what /proc says.

    A request's id is its position in `reqs`, which keeps every request ever made because a `Finish`
    still holds the object after the reaper has dropped it; the source's ids start at 1 instead.
    `issued` lists every reply callback handed in so far, `trace` what the broker did, oldest first. */
module BrokerModel {
  import opened Options
  import opened Cache

  const ADMIN_UID := 1000
  const POLKIT_UNDECIDED_TTL := 1200.0
  const POLKIT_MARKS_MAX := 512

  datatype Config = Config(auditRequired: bool, retention: real)

  /** A reply callback pair.  A relay waiter forwards its message when it is answered True. */
  datatype Waiter = Waiter(id: nat, relay: bool)

  datatype Source =
    | RateLimitSource | RuleSource | CacheSource | HookSource | PromptSource | CallerGoneSource
    | LocalAuthSource | PolkitCancelSource | StaleReapSource | SameSiloSource

  datatype AuditRow = AuditRow(uid: int, exe: string, action: string, allow: bool, scope: Option<Scope>,
                               source: Source, rid: Option<nat>)

  /** Who took a request out of "undecided". */
  datatype Decider =
    | AtFiling(source: Source)
    | ByHook(source: Source)
    | ByAdmin(scope: Scope)
    | ByCallerGone
    | ByLocalAuth(sender: string)
    | ByCancel(sender: string)
    | ByStaleReap

  /** `SentWithin` is a message between two applications of one user.  A delivery is `local` when it relays the
      agent's own verification and not an approval. */
  datatype Event =
    | Audited(entry: AuditRow)
    | Decided(rid: nat, decider: Decider, value: bool, at: real)
    | Replied(waiter: Waiter, about: Option<nat>, value: bool)
    | Forwarded(waiter: Waiter, rid: nat)
    | Refused(waiter: Waiter)
    | Signalled(rid: nat, value: bool)
    | Prompted(rid: nat)
    | SentWithin(uid: int, action: string)
    | Stored(rid: nat, grant: Grant, row: Row, at: real)
    | RevokedId(id: nat)
    | RevokedUid(uid: int)
    | Delivered(about: Option<nat>, cookie: string, sender: string, local: bool)

  /** What a request says; none of it changes after `_enqueue`.  `argv` is decoded from the sanitised
      details.  `filedBy` is empty unless the polkit agent filed the request. */
  datatype Filing = Filing(uid: int, pid: int, exe: string, startTime: int, action: string, argv: seq<string>,
                           delegated: bool, oneShot: bool, cookie: string, filedBy: string,
                           hasIdentity: bool, createdAt: real)

  /** The local variables of a `DecideRequest` between its two halves. */
  datatype Ticket = Ticket(allow: bool, scope: Scope, admin: int, waiters: seq<Waiter>)

  /** `retained`: still in the pending map.  `hooked`: a hook query is under way. */
  datatype Request = Request(filing: Filing, decision: Option<bool>, finalizing: bool, waiters: seq<Waiter>,
                             decidedAt: Option<real>, retained: bool, ticket: Option<Ticket>, hooked: bool)

  datatype Mark = Mark(senders: set<string>, at: real)
  datatype Binding = Binding(sender: string, at: real)

  datatype State = State(reqs: seq<Request>, issued: seq<Waiter>, cache: seq<Row>,
                         cancelled: map<string, Mark>, announced: map<string, Binding>,
                         trace: seq<Event>, now: real, lastPass: real)

  function Start(now: real): State { State([], [], [], map[], map[], [], now, now) }

  // ---------------------------------------------------------------- pieces

  function Log(s: State, events: seq<Event>): State { s.(trace := s.trace + events) }

  function Answer(w: Waiter, rid: nat, value: bool): seq<Event> {
    if value && w.relay then [Replied(w, Some(rid), value), Forwarded(w, rid)] else [Replied(w, Some(rid), value)]
  }

  function AnswerAll(ws: seq<Waiter>, rid: nat, value: bool): seq<Event> {
    if ws == [] then [] else AnswerAll(ws[..|ws| - 1], rid, value) + Answer(ws[|ws| - 1], rid, value)
  }

  /** Everyone a request still owes an answer: its finisher's list, then its own. */
  function Owed(q: Request): seq<Waiter> {
    (if q.ticket.Some? then q.ticket.value.waiters else []) + q.waiters
  }

  /** The request becomes `q`, everyone it owed an answer gets `value`, and one signal is sent. */
  function Conclude(s: State, rid: nat, q: Request, value: bool, signalFirst: bool): State
    requires rid < |s.reqs|
  {
    var answers := AnswerAll(Owed(s.reqs[rid]), rid, value);
    s.(reqs := s.reqs[rid := q],
       trace := s.trace + (if signalFirst then [Signalled(rid, value)] + answers
                           else answers + [Signalled(rid, value)]))
  }

  /** An undecided request is decided, becoming `q`, and its waiters are released. */
  function SettleAs(s: State, rid: nat, q: Request, decider: Decider, value: bool, signalFirst: bool): State
    requires rid < |s.reqs|
  {
    Conclude(Log(s, [Decided(rid, decider, value, s.now)]), rid, q, value, signalFirst)
  }

  function Settle(s: State, rid: nat, decider: Decider, value: bool, signalFirst: bool): State
    requires rid < |s.reqs|
  {
    SettleAs(s, rid, s.reqs[rid].(decision := Some(value), waiters := []), decider, value, signalFirst)
  }

  /** A waiter that asks about a request in the pending map. */
  function Attend(s: State, rid: nat, w: Waiter): State
    requires rid < |s.reqs|
  {
    var q := s.reqs[rid];
    if q.decision.Some? && !q.finalizing then Log(s, Answer(w, rid, q.decision.value))
    else s.(reqs := s.reqs[rid := q.(waiters := q.waiters + [w])])
  }

  predicate Retained(s: State, rid: int) { 0 <= rid < |s.reqs| && s.reqs[rid].retained }

  /** First match among the matching rules' verdicts, in rule order; True is "allow". */
  function FirstRule(verdicts: seq<bool>, denyOnly: bool): (r: Option<bool>)
    ensures !denyOnly ==> r == if verdicts == [] then None else Some(verdicts[0])
    ensures denyOnly ==> r == if false in verdicts then Some(false) else None
  {
    if verdicts == [] then None
    else if denyOnly && verdicts[0] then FirstRule(verdicts[1..], denyOnly)
    else Some(verdicts[0])
  }

  /** `_record_check`: the events and the verdict that stands once the row is written or lost. */
  function RecordCheck(c: Config, ok: bool, row: AuditRow): (seq<Event>, bool) {
    if ok then ([Audited(row)], row.allow) else ([], row.allow && !c.auditRequired)
  }

  function AuditIf(ok: bool, row: AuditRow): seq<Event> { if ok then [Audited(row)] else [] }

  // ---------------------------------------------------------------- the polkit marks

  predicate MarkedBy(s: State, cookie: string, sender: string) {
    cookie in s.cancelled && sender in s.cancelled[cookie].senders
  }

  function Prune(s: State, now: real): State {
    s.(cancelled := map k | k in s.cancelled && now - s.cancelled[k].at <= POLKIT_UNDECIDED_TTL :: s.cancelled[k],
       announced := map k | k in s.announced && now - s.announced[k].at <= POLKIT_UNDECIDED_TTL :: s.announced[k])
  }

  /** The first retained request that carries this cookie, at or after position `from`. */
  function FirstWith(s: State, cookie: string, from: nat): (r: Option<nat>)
    requires from <= |s.reqs|
    ensures r.Some? ==>
             from <= r.value < |s.reqs| && s.reqs[r.value].retained && s.reqs[r.value].filing.cookie == cookie
    ensures r.None? ==> forall i :: from <= i < |s.reqs| && s.reqs[i].retained ==> s.reqs[i].filing.cookie != cookie
    decreases |s.reqs| - from
  {
    if from == |s.reqs| then None
    else if s.reqs[from].retained && s.reqs[from].filing.cookie == cookie then Some(from)
    else FirstWith(s, cookie, from + 1)
  }

  predicate BoundElsewhere(s: State, cookie: string, sender: string) {
    cookie in s.announced && s.announced[cookie].sender != sender
  }

  predicate FiledElsewhere(s: State, cookie: string, sender: string) {
    && cookie != ""
    && var first := FirstWith(s, cookie, 0);
       first.Some? && s.reqs[first.value].filing.filedBy != sender
  }

  /** `_respond_polkit`: an approved filing is delivered unless its own sender cancelled the cookie. */
  function Respond(s: State, rid: nat): seq<Event>
    requires rid < |s.reqs|
  {
    var f := s.reqs[rid].filing;
    if f.cookie in s.cancelled && (f.filedBy == "" || f.filedBy in s.cancelled[f.cookie].senders) then []
    else if !f.hasIdentity then []
    else [Delivered(Some(rid), f.cookie, f.filedBy, false)]
  }

  // ---------------------------------------------------------------- filing

  datatype Caller = Caller(uid: int, pid: int, exe: string, startTime: int)

  /** Which method filed the request. */
  datatype Kind =
    | Direct
    | Delegated
    | Relay
    | Polkit(cookie: string, hasIdentity: bool, sender: string)

  /** `rawArgv` is decoded from the details as sent, `argv` from their sanitised copy. */
  datatype Ask = Ask(caller: Caller, action: string, rawArgv: seq<string>, argv: seq<string>, kind: Kind)

  datatype World = World(rateOk: bool, rules: seq<bool>, sandboxed: bool, auditOk: bool, hookStarts: bool)

  function FilingOf(a: Ask, now: real): Filing {
    Filing(a.caller.uid, a.caller.pid, a.caller.exe, a.caller.startTime, a.action, a.argv,
           a.kind.Delegated?, a.kind.Relay? || a.kind.Polkit?,
           if a.kind.Polkit? then a.kind.cookie else "",
           if a.kind.Polkit? then a.kind.sender else "",
           a.kind.Polkit? && a.kind.hasIdentity, now)
  }

  datatype Verdict = Open | Closed(source: Source, allow: bool, scope: Option<Scope>)

  /** The rules-then-cache resolution at filing time, before the audit row is written. */
  function FilingVerdict(s: State, a: Ask, e: World, now: real): Verdict {
    if a.kind.Polkit? && MarkedBy(s, a.kind.cookie, a.kind.sender) then Closed(PolkitCancelSource, false, None)
    else if a.kind.Relay? then Open
    else
      match FirstRule(e.rules, a.kind.Polkit?)
      case Some(allow) => Closed(RuleSource, allow, None)
      case None =>
        if a.kind.Polkit? then Open
        else
          match Lookup(s.cache, Query(a.caller.uid, a.action, a.caller.exe, a.rawArgv,
                                      a.kind.Delegated? || e.sandboxed), now.Floor)
          case None => Open
          case Some(row) => Closed(CacheSource, row.decision, Some(row.scope))
  }

  function RetireMark(s: State, a: Ask): State {
    if a.kind.Polkit? && a.kind.cookie in s.cancelled && !MarkedBy(s, a.kind.cookie, a.kind.sender)
    then s.(cancelled := map k | k in s.cancelled && k != a.kind.cookie :: s.cancelled[k])
    else s
  }

  function NewRequest(f: Filing, decision: Option<bool>, hooked: bool): Request {
    Request(f, decision, false, [], None, true, None, hooked)
  }

  datatype Filed = RateLimited | AccessDenied | Queued(rid: nat)

  function Admit(c: Config, s: State, a: Ask, e: World, verdict: Verdict): State {
    var f, rid := FilingOf(a, s.now), |s.reqs|;
    match verdict
    case Open =>
      var hooked := !f.oneShot && e.hookStarts;
      s.(reqs := s.reqs + [NewRequest(f, None, hooked)],
         trace := s.trace + (if hooked then [] else [Prompted(rid)]))
    case Closed(source, allow, scope) =>
      var (events, stands) := RecordCheck(c, e.auditOk,
                                          AuditRow(f.uid, f.exe, f.action, allow, scope, source, Some(rid)));
      s.(reqs := s.reqs + [NewRequest(f, Some(stands), false)],
         trace := s.trace + events + [Decided(rid, AtFiling(source), stands, s.now)])
  }

  function Enqueue(c: Config, s: State, a: Ask, e: World): (r: (State, Filed))
    ensures r.1.Queued? ==> r.1.rid == |s.reqs| && |r.0.reqs| == |s.reqs| + 1
  {
    if !e.rateOk then
      (Log(s, AuditIf(e.auditOk, AuditRow(a.caller.uid, a.caller.exe, a.action, false, None, RateLimitSource, None))),
       RateLimited)
    else
      var verdict, s1 := FilingVerdict(s, a, e, s.now), RetireMark(s, a);
      if a.kind.Polkit? && (BoundElsewhere(s1, a.kind.cookie, a.kind.sender)
                            || FiledElsewhere(s1, a.kind.cookie, a.kind.sender))
      then (s1, AccessDenied)
      else (Admit(c, s1, a, e, verdict), Queued(|s1.reqs|))
  }

  /** A new reply callback. */
  function Issue(s: State, relay: bool): (State, Waiter) {
    var w := Waiter(|s.issued|, relay);
    (s.(issued := s.issued + [w]), w)
  }

  /** A cross-silo send: files a one-shot request and parks its forwarding waiter on it. */
  function RelayMessage(c: Config, s: State, a: Ask, e: World): State {
    var (s1, filed) := Enqueue(c, s, a.(kind := Relay), e);
    var (s2, w) := Issue(s1, true);
    if filed.Queued? then Attend(s2, filed.rid, w) else Log(s2, [Refused(w)])
  }

  /** A message to an application of the same user: forwarded at once, then audited if the row can be written. */
  function SendWithin(s: State, caller: Caller, action: string, forwardOk: bool, auditOk: bool): State {
    var (s1, w) := Issue(s, true);
    if !forwardOk then Log(s1, [Refused(w)])
    else
      var row := AuditRow(caller.uid, caller.exe, action, true, Some(Once), SameSiloSource, None);
      Log(s1, [SentWithin(caller.uid, action)] + AuditIf(auditOk, row) + [Replied(w, None, true)])
  }

  function SendMessage(c: Config, s: State, a: Ask, e: World, target: int, forwardOk: bool): State {
    if a.caller.uid == target then SendWithin(s, a.caller, a.action, forwardOk, e.auditOk) else RelayMessage(c, s, a, e)
  }

  function WaitForDecision(s: State, rid: int, uid: int): State {
    var (s1, w) := Issue(s, false);
    if !Retained(s1, rid) then Log(s1, [Replied(w, None, false)])
    else if uid != 0 && uid != ADMIN_UID && uid != s1.reqs[rid].filing.uid then Log(s1, [Refused(w)])
    else Attend(s1, rid, w)
  }

  // ---------------------------------------------------------------- the admin's decision

  predicate DelegatedForbidden(scope: Scope) {
    scope.Hour1? || scope.Hour24? || scope.Forever? || scope.ForeverExe?
  }

  predicate ArgvRequired(scope: Scope) {
    scope.ForeverArgv? || scope.ForeverBasename? || scope.ForeverPrefix?
  }

  datatype Begun = Unknown | Deciding | AlreadyAllow | AlreadyDeny | ScopeNotPermitted | CallerGone | Started

  function BeginAnswer(s: State, rid: int, allow: bool, scope: Scope, startNow: int): Begun {
    if !Retained(s, rid) then Unknown
    else
      var q := s.reqs[rid];
      if q.decision.Some? then
        if q.finalizing then Deciding else if q.decision.value then AlreadyAllow else AlreadyDeny
      else if q.filing.delegated && DelegatedForbidden(scope) then ScopeNotPermitted
      else if q.filing.oneShot && !scope.Once? then ScopeNotPermitted
      else if allow && ArgvRequired(scope) && q.filing.argv == [] then ScopeNotPermitted
      else if !q.filing.delegated && q.filing.pid > 0 && q.filing.startTime != 0 && startNow != 0
              && startNow != q.filing.startTime then CallerGone
      else Started
  }

  /** The block of `DecideRequest` under the lock.  `startNow` is the pid's start time as /proc has it now. */
  function Begin(s: State, rid: int, allow: bool, scope: Scope, admin: int, startNow: int, auditOk: bool): State {
    match BeginAnswer(s, rid, allow, scope, startNow)
    case CallerGone =>
      var f := s.reqs[rid].filing;
      Settle(Log(s, AuditIf(auditOk, AuditRow(f.uid, f.exe, f.action, false, None, CallerGoneSource, Some(rid)))),
             rid, ByCallerGone, false, true)
    case Started =>
      var q := s.reqs[rid];
      s.(reqs := s.reqs[rid := q.(decision := Some(allow), finalizing := true, waiters := [],
                                  ticket := Some(Ticket(allow, scope, admin, q.waiters)))],
         trace := s.trace + [Decided(rid, ByAdmin(scope), allow, s.now)])
    case _ => s
  }

  function GrantOf(f: Filing, t: Ticket): Grant {
    Grant(f.uid, f.action, f.exe, t.scope, t.allow, t.admin, f.argv)
  }

  function StoreGrant(s: State, rid: nat, g: Grant): State {
    if StoredKind(g.scope, g.argv).None? then s
    else
      var row := RowFor(g, NewId(s.cache), s.now.Floor);
      s.(cache := s.cache + [row], trace := s.trace + [Stored(rid, g, row, s.now)])
  }

  /** The rest of `DecideRequest`. */
  function Finish(c: Config, s: State, rid: nat, auditOk: bool, storeOk: bool): State {
    if rid >= |s.reqs| || s.reqs[rid].ticket.None? then s
    else
      var q := s.reqs[rid];
      var f, t := q.filing, q.ticket.value;
      var s1 := Log(s, AuditIf(auditOk,
                               AuditRow(f.uid, f.exe, f.action, t.allow, Some(t.scope), PromptSource, Some(rid))));
      if !auditOk && c.auditRequired then
        var q1 := q.(ticket := None, waiters := []);
        Conclude(s1, rid, if q.retained then q1.(decision := Some(false), finalizing := false) else q1, false, false)
      else
        var s2 := if t.allow && !f.oneShot && storeOk then StoreGrant(s1, rid, GrantOf(f, t)) else s1;
        var s3 := if t.allow && f.cookie != "" then Log(s2, Respond(s2, rid)) else s2;
        Conclude(s3, rid, q.(ticket := None, waiters := [], finalizing := false), t.allow, false)
  }

  // ---------------------------------------------------------------- the synchronous gate and the hook

  predicate RulesOnly(action: string) {
    || "qdistro.tier1.spawn:" <= action
    || "qdistro.tier2.spawn:" <= action
    || "qdistro.tier3s.spawn:" <= action
    || "qdistro.dispose.spawn:" <= action
    || "qdistro.dispose.open:" <= action
    || "qdistro.dispose.export:" <= action
  }

  /** `_decide_check` up to its audit row. */
  function CheckVerdict(s: State, uid: int, exe: string, action: string, argv: seq<string>,
                        rules: seq<bool>, sandboxed: bool, now: real): Verdict {
    match FirstRule(rules, false)
    case Some(allow) => Closed(RuleSource, allow, None)
    case None =>
      if RulesOnly(action) then Open
      else
        match Lookup(s.cache, Query(uid, action, exe, argv, sandboxed), now.Floor)
        case None => Open
        case Some(row) => Closed(CacheSource, row.decision, Some(row.scope))
  }

  datatype GateAnswer = GateLimited | GateUnknown | GateVerdict(allow: bool)

  function CheckPermission(c: Config, s: State, a: Ask, e: World): (State, GateAnswer) {
    if !e.rateOk then (s, GateLimited)
    else
      match CheckVerdict(s, a.caller.uid, a.caller.exe, a.action, a.rawArgv, e.rules, e.sandboxed, s.now)
      case Open => (s, GateUnknown)
      case Closed(source, allow, scope) =>
        var (events, stands) :=
          RecordCheck(c, e.auditOk, AuditRow(a.caller.uid, a.caller.exe, a.action, allow, scope, source, None));
        (Log(s, events), GateVerdict(stands))
  }

  /** What the hook executor, /proc and the rules say when a hook query comes back. */
  datatype HookAnswers = HookAnswers(verdict: Option<bool>, sameProcess: bool, rules: seq<bool>, sandboxed: bool,
                                     auditOk: bool)

  /** Which source decides a hooked request and what its audit row says. */
  function HookRow(s: State, rid: nat, h: HookAnswers): AuditRow
    requires rid < |s.reqs| && h.verdict.Some?
  {
    var f := s.reqs[rid].filing;
    var valid := f.startTime > 0 && h.sameProcess;
    var current := if valid then CheckVerdict(s, f.uid, f.exe, f.action, f.argv, h.rules, h.sandboxed, s.now) else Open;
    match current
    case Closed(source, allow, scope) => AuditRow(f.uid, f.exe, f.action, allow, scope, source, None)
    case Open => AuditRow(f.uid, f.exe, f.action, valid && h.verdict.value, None, HookSource, Some(rid))
  }

  function Unhook(s: State, rid: nat): State
    requires rid < |s.reqs|
  {
    s.(reqs := s.reqs[rid := s.reqs[rid].(hooked := false)])
  }

  /** `_apply_hook`, the idle callback of a finished hook query. */
  function ApplyHook(c: Config, s: State, rid: nat, h: HookAnswers): State {
    if rid >= |s.reqs| || !s.reqs[rid].hooked then s
    else
      var s1 := Unhook(s, rid);
      if !s1.reqs[rid].retained || s1.reqs[rid].decision.Some? then s1
      else if h.verdict.None? then Log(s1, [Prompted(rid)])
      else
        var row := HookRow(s1, rid, h);
        var (events, stands) := RecordCheck(c, h.auditOk, row);
        var s2 := Log(s1, events);
        var s3 := if stands && s2.reqs[rid].filing.cookie != "" then Log(s2, Respond(s2, rid)) else s2;
        Settle(s3, rid, ByHook(row.source), stands, true)
  }

  // ---------------------------------------------------------------- the reaper

  function DenyRow(f: Filing, rid: nat, source: Source): AuditRow {
    AuditRow(f.uid, f.exe, f.action, false, None, source, Some(rid))
  }

  predicate Stale(q: Request, now: real) {
    q.decision.None? && q.filing.cookie != "" && now - q.filing.createdAt >= POLKIT_UNDECIDED_TTL
  }

  function ReapOne(c: Config, s: State, rid: nat, audited: set<nat>): State
    requires rid < |s.reqs|
  {
    var q := s.reqs[rid];
    if !q.retained then s
    else if q.decision.None? then
      if Stale(q, s.now) then
        SettleAs(Log(s, AuditIf(rid in audited, DenyRow(q.filing, rid, StaleReapSource))), rid,
                 q.(decision := Some(false), waiters := [], decidedAt := Some(s.now)), ByStaleReap, false, false)
      else s
    else if c.retention <= 0.0 then s
    else if q.decidedAt.None? then s.(reqs := s.reqs[rid := q.(decidedAt := Some(s.now))])
    else if s.now - q.decidedAt.value >= c.retention then s.(reqs := s.reqs[rid := q.(retained := false)])
    else s
  }

  function ReapFrom(c: Config, s: State, from: nat, audited: set<nat>): State
    requires from <= |s.reqs|
    decreases |s.reqs| - from
  {
    if from == |s.reqs| then s else ReapFrom(c, ReapOne(c, s, from, audited), from + 1, audited)
  }

  function Reap(c: Config, s: State, audited: set<nat>): State {
    ReapFrom(c, s.(lastPass := s.now), 0, audited)
  }

  // ---------------------------------------------------------------- the polkit relay

  function Announce(s: State, cookie: string, sender: string): State {
    if cookie == "" then s
    else
      var s1 := Prune(s, s.now);
      if BoundElsewhere(s1, cookie, sender) || FiledElsewhere(s1, cookie, sender) then s1
      else if MarkedBy(s1, cookie, sender) then s1
      else if cookie !in s1.announced && |s1.announced| >= POLKIT_MARKS_MAX then s1
      else s1.(announced := s1.announced[cookie := Binding(sender, s1.now)])
  }

  predicate Owns(s: State, cookie: string, sender: string) {
    var first := FirstWith(s, cookie, 0);
    || (first.Some? && s.reqs[first.value].filing.filedBy == sender)
    || (cookie in s.announced && s.announced[cookie].sender == sender)
  }

  /** `RespondPolkitAuth`.  `callOk` is False when polkitd rejects the response. */
  function LocalAuth(c: Config, s: State, cookie: string, hasIdentity: bool, sender: string, caller: Caller,
                     auditOk: bool, callOk: bool): State {
    var first := FirstWith(s, cookie, 0);
    if MarkedBy(s, cookie, sender) then s
    else if !Owns(s, cookie, sender) then s
    else if first.Some? && s.reqs[first.value].decision == Some(false) then s
    else if !hasIdentity then s
    else if !auditOk && c.auditRequired then s
    else
      var action := if first.Some? then s.reqs[first.value].filing.action else "polkit.local_auth";
      var s1 := Log(s, AuditIf(auditOk,
                               AuditRow(caller.uid, caller.exe, action, true, Some(Once), LocalAuthSource, first))
                       + [Delivered(first, cookie, sender, true)]);
      if callOk && first.Some? && s.reqs[first.value].decision.None?
      then Settle(s1, first.value, ByLocalAuth(sender), true, false)
      else s1
  }

  predicate RoomForMark(s: State, cookie: string) {
    cookie in s.cancelled || |s.cancelled| < POLKIT_MARKS_MAX
  }

  /** Adds the sender to the cookie's mark; a mark keeps the time of its first cancel. */
  function NoteCancelled(s: State, cookie: string, sender: string): State {
    if cookie == "" || !RoomForMark(s, cookie) then s
    else
      var mark := if cookie in s.cancelled
                  then s.cancelled[cookie].(senders := s.cancelled[cookie].senders + {sender})
                  else Mark({sender}, s.now);
      s.(cancelled := s.cancelled[cookie := mark])
  }

  predicate CancelHits(q: Request, cookie: string, sender: string) {
    && q.retained && q.decision.None?
    && q.filing.cookie != "" && q.filing.cookie == cookie && q.filing.filedBy == sender
  }

  function CancelOne(s: State, rid: nat, cookie: string, sender: string, audited: set<nat>): State
    requires rid < |s.reqs|
  {
    if CancelHits(s.reqs[rid], cookie, sender)
    then Settle(Log(s, AuditIf(rid in audited, DenyRow(s.reqs[rid].filing, rid, PolkitCancelSource))),
                rid, ByCancel(sender), false, false)
    else s
  }

  function CancelFrom(s: State, from: nat, cookie: string, sender: string, audited: set<nat>): State
    requires from <= |s.reqs|
    decreases |s.reqs| - from
  {
    if from == |s.reqs| then s
        else CancelFrom(CancelOne(s, from, cookie, sender, audited), from + 1, cookie, sender, audited)
  }

  predicate AnyHit(s: State, cookie: string, sender: string) {
    exists i :: 0 <= i < |s.reqs| && CancelHits(s.reqs[i], cookie, sender)
  }

  function Unbind(s: State, cookie: string, sender: string): State {
    if cookie in s.announced && s.announced[cookie].sender == sender
    then s.(announced := map k | k in s.announced && k != cookie :: s.announced[k])
    else s
  }

  /** `CancelPolkitAuth`.  A full mark table refuses the call after pruning. */
  function Cancel(s: State, cookie: string, sender: string, caller: Caller, audited: set<nat>, auditOk: bool): State {
    var s1 := if cookie == "" then s else Prune(s, s.now);
    if cookie != "" && !RoomForMark(s1, cookie) then s1
    else
      var s2 := NoteCancelled(s1, cookie, sender);
      var s3 := Unbind(s2, cookie, sender);
      var s4 := CancelFrom(s3, 0, cookie, sender, audited);
      if !AnyHit(s3, cookie, sender) && s3.announced != s2.announced
      then Log(s4, AuditIf(auditOk, AuditRow(caller.uid, caller.exe, "polkit.local_auth", false, None,
                                             PolkitCancelSource, None)))
      else s4
  }

  // ---------------------------------------------------------------- runs

  datatype Step =
    | DoEnqueue(ask: Ask, world: World)
    | DoRelay(ask: Ask, world: World, target: int, forwardOk: bool)
    | DoWait(rid: int, uid: int)
    | DoBegin(rid: int, allow: bool, scope: Scope, admin: int, startNow: int, auditOk: bool)
    | DoFinish(ticket: nat, auditOk: bool, storeOk: bool)
    | DoHook(hooked: nat, hook: HookAnswers)
    | DoReap(audited: set<nat>)
    | DoAnnounce(cookie: string, sender: string)
    | DoLocalAuth(cookie: string, hasIdentity: bool, sender: string, caller: Caller, auditOk: bool, callOk: bool)
    | DoCancel(cookie: string, sender: string, caller: Caller, audited: set<nat>, auditOk: bool)
    | DoCheck(ask: Ask, world: World)
    | DoRevokeId(id: nat)
    | DoRevokeUid(revoked: int)
    | DoCacheGc

  datatype Timed = Timed(at: real, step: Step)

  /** The clock never runs back, and the bus gives every connection a nonempty unique name. */
  predicate Possible(s: State, t: Timed) {
    && s.now <= t.at
    && (t.step.DoAnnounce? || t.step.DoLocalAuth? || t.step.DoCancel? ==> t.step.sender != "")
    && (t.step.DoEnqueue? && t.step.ask.kind.Polkit? ==> t.step.ask.kind.sender != "")
  }

  function Perform(c: Config, s: State, step: Step): State {
    match step
    case DoEnqueue(a, e) => Enqueue(c, s, a, e).0
    case DoRelay(a, e, target, forwardOk) => SendMessage(c, s, a, e, target, forwardOk)
    case DoWait(rid, uid) => WaitForDecision(s, rid, uid)
    case DoBegin(rid, allow, scope, admin, startNow, auditOk) => Begin(s, rid, allow, scope, admin, startNow, auditOk)
    case DoFinish(rid, auditOk, storeOk) => Finish(c, s, rid, auditOk, storeOk)
    case DoHook(rid, h) => ApplyHook(c, s, rid, h)
    case DoReap(audited) => Reap(c, s, audited)
    case DoAnnounce(cookie, sender) => Announce(s, cookie, sender)
    case DoLocalAuth(cookie, hasIdentity, sender, caller, auditOk, callOk) =>
      LocalAuth(c, s, cookie, hasIdentity, sender, caller, auditOk, callOk)
    case DoCancel(cookie, sender, caller, audited, auditOk) => Cancel(s, cookie, sender, caller, audited, auditOk)
    case DoCheck(a, e) => CheckPermission(c, s, a, e).0
    case DoRevokeId(id) => s.(cache := WithoutId(s.cache, id), trace := s.trace + [RevokedId(id)])
    case DoRevokeUid(uid) => s.(cache := WithoutUid(s.cache, uid), trace := s.trace + [RevokedUid(uid)])
    case DoCacheGc => s.(cache := LiveRows(s.cache, s.now.Floor))
  }

  function Next(c: Config, s: State, t: Timed): State { Perform(c, s.(now := t.at), t.step) }

  ghost predicate IsRun(c: Config, s: State, run: seq<Timed>)
    decreases |run|
  {
    run != [] ==> Possible(s, run[0]) && IsRun(c, Next(c, s, run[0]), run[1..])
  }

  function After(c: Config, s: State, run: seq<Timed>): State
    decreases |run|
  {
    if run == [] then s else After(c, Next(c, s, run[0]), run[1..])
  }
}
