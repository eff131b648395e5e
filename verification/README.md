# qdistro admin broker: decisions, approvals and their protocols

The admin broker takes permission requests from processes of other users, decides them by rule, cached approval,
hook, administrator or local polkit verification, calls parked callbacks back, remembers scoped approvals and audits
every decision.  This project models that engine and proves what it promises over every run.

- `BrokerModel` is the engine as a state machine.  Every D-Bus method and idle callback runs to completion on one main
  loop and is one step; `DecideRequest` is two, because other steps may come between recording a decision and
  committing it.  What the outside world answers (the clock, matching rules, audit and cache writes, `/proc`) is part
  of a step, so a theorem about every run holds for every such answer.  `trace` is the history of what the broker did.
- `BrokerInvariant`, `BrokerMoves` and `BrokerSteps` prove the invariant every step keeps.  `BrokerCauses` traces every
  event of a run back to the step, inputs and state that explain it.  `BrokerCalls` says what each call promises its
  caller, from the call's inputs alone; `BrokerTheorems`, `BrokerVerdicts`, `BrokerFrames`, `BrokerTimes` and
  `BrokerGate` state the promises over runs.
- `BrokerObjects` is the same engine in the source's form: mutable request objects shared between the pending map and
  the calls still at work on them, and methods with loops that update them in place.  Each method is proved to be
  exactly one step of `BrokerModel`, so every sequence of calls is a run and every theorem holds of it.
  `BrokerDenials` connects the reaper's and the cancel's two-pass loops with the model's one-by-one steps.
- `Cache`, `RateLimit`, `ArgvCodec` and `Audit` are the approval cache, the rate limiter, the argv encoding in request
  details and the audit table.
- `Dispatch` is a workflow thread calling into the main loop; `Bridge` and `Escalation` are the admin app's side:
  which broker instance a decision reaches, and the reminders for requests that wait.

A request's id is its position here; the source counts from 1.  An absent argv and an empty one behave alike in the
source and are both `[]`.  Times are reals; the cache table and the audit table see their integer part.

Where code and documentation disagree the model follows the code:

- A docstring says a map of `argv[NN]` keys without `argv[00]` may give a list; the code gives
  "no argv" (broker/qdistro_admin_broker.py:764-811).
- The limiter's notes speak of idle keys with empty queues; no queue is ever empty after a call
  (broker/qdistro_admin_ratelimit.py:15-18), see `RateLimit.RunBounds`.
- `RevokeApproval` promises an audit row on a no-op and writes none (broker/qdistro_admin_broker.py:5786-5806).
- `qdistro_root_exec.py` says delegated requests allow only the scope "once"; the broker also allows the three
  argv-pinned scopes (broker/qdistro_admin_broker.py:5587-5593).
- Filing skips argv-blind approvals for delegated requests and uses approvals of rules-only actions; the recheck when a
  hook answers does neither.  `BrokerGate.HookRecheckAgrees` gives the exact condition under which this changes a
  decision; `BrokerGate.BlindRowAllowsDelegated` and `BrokerGate.RulesOnlyIgnoresApproval` are runs in which it does.
- Cancel marks and bindings past their time still count until some announce or cancel prunes them, so an unrelated
  cancel can be noticed by others: `BrokerFrames.OverdueMarkExample`.

## Model

| member | source | states |
|---|---|---|
| `BrokerTheorems.CacheHitsHaveProvenance` | broker/qdistro_admin_broker.py:5573-5725 | over every run from an empty cache, a lookup hit is an allow stored after an administrator's decision on a non-one-shot request of the same uid and action, unrevoked, still within its scope's time counted from when it was stored, whose scope admits this exe and argv, and which pins the argv if blind rows are skipped |
| `BrokerTheorems.WaitersAreConserved` | broker/qdistro_admin_broker.py:5477-5501 | every callback handed in is at all times in exactly one of a request's list, a finisher's list or the answered ones, once; a durably decided request owes nobody an answer |
| `BrokerTheorems.AnswersAreFinal` | broker/qdistro_admin_broker.py:5657-5751 | no caller ever sees a provisional verdict: an answer about a request is its outcome in every later state |
| `BrokerTheorems.ApprovedIsForwardedOnce` | broker/qdistro_admin_broker.py:4833-4884 | a cross-silo message is forwarded exactly once if its waiter is told True and never otherwise, and only when its request is allowed for good |
| `BrokerTheorems.AuditComesFirst` | broker/qdistro_admin_broker.py:5671-5733 | with auditing required, every True answer about a request, cross-silo forward, allow signal, cached row and approved polkit response comes after the decision that allowed its own request and after that decision's own row, written by the decider's own path; a local-authentication response stands directly behind its own row; any other True, in every configuration, is the reply to a same-silo message directly behind its send, so no waiting caller gets one |
| `BrokerTheorems.RowsRecordOneDecision` | broker/qdistro_admin_broker.py:5671-5683 | no two requests share a row, and a row stands for one decision only |
| `BrokerTheorems.SameSiloGoesFirst` | broker/qdistro_admin_broker.py:4790-4816 | the exception: a message within one silo is forwarded before its row and also when the row is lost, makes no request and is answered True; one that cannot be forwarded is refused |
| `BrokerTheorems.HookAllowFollowsItsRow` | broker/qdistro_admin_broker.py:5414-5426 | a decision at hook time stands directly behind the row written for it, although that row may carry no request id |
| `BrokerTheorems.DecidedOnce` | broker/qdistro_admin_broker.py:5573-5662 | a request leaves "undecided" exactly once, and its durable outcome never changes in any continuation |
| `BrokerTheorems.SignalledOnce` | broker/qdistro_admin_broker.py:5391-5436 | a request left undecided by its filing is signalled exactly once, when its outcome is durable and with that outcome; one decided at filing never is |
| `BrokerTheorems.OneShotIsIsolated` | broker/qdistro_admin_broker.py:5594-5599 | a one-shot request is allowed only by an administrator's "once" or its filer's local authentication, and leaves no cached row |
| `BrokerTheorems.OneCookieOwner` | broker/qdistro_admin_broker.py:5252-5266 | all retained filings of a cookie and its announcement name one sender |
| `BrokerTheorems.LocalAuthDeliversForOwner` | broker/qdistro_admin_broker.py:3425-3444 | a local authentication that has any effect comes from the one sender that filed or announced the cookie and has not cancelled it |
| `BrokerTheorems.MarksStayBounded` | broker/qdistro_admin_broker.py:3290-3299 | both mark tables hold at most 512 entries in every reachable state |
| `BrokerTheorems.ReapedNotTooEarly` | broker/qdistro_admin_broker.py:1763-1788 | undecided requests are never dropped, a dropped one was decided at least the retention time ago, and only polkit filings past their time are denied by the reaper |
| `BrokerCauses.EventsHaveCauses` | broker/qdistro_admin_broker.py:5119-5751 | every event of every run is explained by one of its steps: each decision by who asked for what or by which rule, approval, hook or cancel said so, each row by the path that wrote it, each response by an uncancelled sender's approval or verification |
| `BrokerVerdicts.AdminDecisionsAreAsked` | broker/qdistro_admin_broker.py:5573-5662 | over every run, each decision in an administrator's name was asked for then: same request, verdict and scope |
| `BrokerVerdicts.DecisionIsCarriedOut` | broker/qdistro_admin_broker.py:5653-5751 | whatever happens between a decision and its finish, a kept row makes the outcome exactly the verdict given, stored as its scope says, and a lost one makes it a deny; everyone who waited then or came since is told it |
| `BrokerVerdicts.DeniedIsNeverRelayed` | broker/qdistro_admin_broker.py:3453-3456 | once a request has the outcome deny, no run delivers a polkit response about it |
| `BrokerVerdicts.PolkitHearsFirst` | broker/qdistro_admin_broker.py:5726-5733 | no answer about a request comes before the polkit response that relays its approval |
| `BrokerVerdicts.OpenIsPromptedOnce` | broker/qdistro_admin_broker.py:5324-5325 | every request is put to the administrator at most once, an open one exactly once unless its hook is still out |
| `BrokerCalls.WaitKeepsPromise` | broker/qdistro_admin_broker.py:5477-5501 | a wait on a request that is not pending is answered False, a stranger refused, a decision that is not provisional told, anything else parked |
| `BrokerCalls.WaitTellsOutcome` | broker/qdistro_admin_broker.py:5493-5501 | in every state the invariant allows, whoever may ask is told the durable outcome and is parked exactly while there is none |
| `BrokerCalls.BeginKeepsPromise` | broker/qdistro_admin_broker.py:5573-5662 | the request's decision, finisher and history take exactly the verdict and scope given; a changed start time denies it and tells everyone; in every other case nothing changes |
| `BrokerCalls.FinishKeepsPromise` | broker/qdistro_admin_broker.py:5671-5751 | everyone owed is told the verdict that was begun, or deny if a required row is lost; what is stored and relayed, and that it is relayed before anyone is told |
| `BrokerCalls.EnqueueKeepsPromise` | broker/qdistro_admin_broker.py:5180-5359 | what is stored is what was asked; a polkit filing is denied at once iff its filer cancelled it or a rule denies; a relay never is decided; a direct or delegated one by its first rule, else by the best approval, a lost required row making an allow a deny; who is refused, prompted and recorded |
| `BrokerCalls.RelayKeepsPromise` | broker/qdistro_admin_broker.py:4817-4884 | a cross-silo message within its rate waits undecided for the administrator with its forwarding callback parked; over its rate it is refused |
| `BrokerCalls.CheckKeepsPromise` | broker/qdistro_admin_broker.py:3614-3740 | the gate's answer is the first rule's, else the best approval's for an action that may use one, else unknown, a lost required row making an allow a deny |
| `BrokerCalls.HookKeepsPromise` | broker/qdistro_admin_broker.py:5386-5442 | a hook query without a verdict prompts, one with a verdict decides by the source that says so and tells everyone, and a request decided or dropped meanwhile is left alone |
| `BrokerCalls.RespondKeepsPromise` | broker/qdistro_admin_broker.py:3412-3499 | a local authentication for a cancelled, foreign or denied cookie, without identity or with a required row lost does nothing at all; otherwise it is relayed and, if taken, the open filing is allowed and its waiters told True |
| `BrokerCalls.DelegatedScopes` | broker/qdistro_admin_broker.py:5587-5593 | a delegated request is refused exactly the scopes that could leave an argv-blind row |
| `BrokerCalls.ArgvScopes` | broker/qdistro_admin_broker.py:5601-5608 | an argv is demanded by exactly the scopes that could store nothing without one |
| `BrokerTimes.ReapedInTime` | broker/qdistro_admin_broker.py:1763-1788 | with passes at most G apart a decided request is gone within retention + 2G, and no polkit filing stays undecided for its time to live plus G |
| `BrokerCauses.ReapIsPointwise` | broker/qdistro_admin_broker.py:1767-1788 | a pass moves every request by itself, from the state before the pass, and each of its events has its cause |
| `BrokerSteps.RunIsGood` | broker/qdistro_admin_broker.py:5119-5751 | every run keeps the invariant, only evolves requests and only extends the history |
| `BrokerFrames.OnlyTheFinisherDowngrades` | broker/qdistro_admin_broker.py:5684-5711 | the only change of a recorded decision is allow to deny, by its own finisher, when the audit row is lost and required |
| `BrokerFrames.LostRowDeniesEveryone` | broker/qdistro_admin_broker.py:5684-5711 | a lost row denies everyone waiting, whether or not the reaper has dropped the request; only a retained object's field is set back |
| `BrokerFrames.RowOutlivesRun` | broker/qdistro_admin_cache.py:368-419 | a cached row without expiry survives every run that does not revoke it |
| `BrokerFrames.BindingsLast` | broker/qdistro_admin_broker.py:3280-3288 | a cookie binding ends or changes hands only by age or by its own sender's cancel |
| `BrokerFrames.AnnounceBinds` | broker/qdistro_admin_broker.py:3381-3407 | an announcement binds the cookie iff nobody else owns it, its own cancel does not stand and there is room, or it is bound here already |
| `BrokerFrames.StrangersLearnNothing` | broker/qdistro_admin_broker.py:5485-5491 | what an unrelated caller is told by waiting does not depend on the verdict, and its wait changes no request |
| `BrokerFrames.StrangersCancelIsHarmless` | broker/qdistro_admin_broker.py:3514-3530 | a non-owner's cancel changes no request, callback, row or live binding and marks nobody else |
| `BrokerFrames.StrangersCancelKeepsFilings` | broker/qdistro_admin_broker.py:5180-5191 | after a non-owner's cancel another sender's filing is answered as before iff its own cancel did not stand by an overdue mark, and refused as before iff no overdue binding was all that refused it |
| `BrokerFrames.StrangersCancelKeepsApprovals` | broker/qdistro_admin_broker.py:3581-3590 | the approval of another sender's filing is delivered as before, with the same exact exception |
| `BrokerFrames.StrangersCancelKeepsRights` | broker/qdistro_admin_broker.py:3425-3452 | another sender may respond as before, except exactly when only an overdue mark forbade it or only an overdue binding allowed it |
| `BrokerFrames.SameRightsSameEffect` | broker/qdistro_admin_broker.py:3445-3499 | with the same right to respond, a local authentication changes the same requests and causes the same events |
| `BrokerFrames.OverdueMarkExample` | broker/qdistro_admin_broker.py:3280-3288 | an input where the exception happens: an overdue mark denies its owner's filing until a stranger's cancel prunes it |
| `BrokerFrames.OwnersCancel` | broker/qdistro_admin_broker.py:3514-3558 | an owner's cancel is recorded iff the mark table has room; then every open filing of the cookie is denied, signalled, written down if its row can be, its waiters told False, and the binding gone |
| `BrokerFrames.MarksLast` | broker/qdistro_admin_broker.py:5180-5191 | a cancel mark ends only by age or by a filing from outside it, and such a filing always ends it, even when refused |
| `BrokerFrames.MarkedIsDead` | broker/qdistro_admin_broker.py:3314-3320 | over every run in which a sender's mark is neither past its time nor retired, the mark stays and nothing is ever delivered for that sender under the cookie |
| `BrokerFrames.MarkedIsDenied` | broker/qdistro_admin_broker.py:3445-3452 | a marked sender's filing is denied or refused and its own response rejected |
| `BrokerFrames.MarkKeepsFirstTime` | broker/qdistro_admin_broker.py:3301-3320 | a mark carries the time of the first cancel it stands for: some sender in it cancelled then, every other then or later |
| `BrokerFrames.BindingIsAnAnnounce` | broker/qdistro_admin_broker.py:3381-3407 | every binding is an announcement by its own sender, dated when it was made |
| `BrokerFrames.AnnounceRenews` | broker/qdistro_admin_broker.py:3381-3407 | the owner's next announcement renews its live, uncancelled binding |
| `BrokerFrames.ReapDeniesStale` | broker/qdistro_admin_broker.py:1767-1797 | a polkit filing past its time is denied by the pass, signalled, recorded if the row can be written, and its waiters told False |
| `BrokerFrames.LoneCancelIsRecorded` | broker/qdistro_admin_broker.py:3534-3550 | a cancel that ends a binding and hits no filing writes one row if it can |
| `BrokerGate.GateAgreesWithQueue` | broker/qdistro_admin_broker.py:3660-3719 | the gate answers as the queue does, rate limit included, iff it is not a rules-only action answered by a cached approval alone |
| `BrokerGate.GateAllowsAreAudited` | broker/qdistro_admin_broker.py:3721-3740 | with auditing required the gate says allow only behind a written row allowing that caller, exe and action; without a verdict it writes nothing |
| `BrokerGate.RememberedCommandIsAllowed` | broker/qdistro_admin_broker.py:5600-5719 | after a stored forever_argv approval an identical request with no rule, within its rate and audited, is allowed at once until the row is revoked |
| `BrokerGate.RememberedArgvIsAllowed` | broker/qdistro_admin_broker.py:5198-5230 | the same from details map to details map, through sanitising and decoding, entries in any order |
| `BrokerGate.HookRecheckAgrees` | broker/qdistro_admin_broker.py:5386-5426 | any hooked request is decided as if filed now with the hook last, except exactly when no rule matches, the process is unchanged, the hook denies, the row is not lost, and either a rules-only action has an approval a filing would use or only argv-blind approvals match a delegated, unsandboxed request |
| `BrokerGate.BlindRowAllowsDelegated` | broker/qdistro_admin_broker.py:5402-5426 | a reachable state in which a blind approval allows a delegated request its hook denies |
| `BrokerGate.RulesOnlyIgnoresApproval` | broker/qdistro_admin_broker.py:3695-3701 | a reachable state in which a rules-only request is denied by its hook although a filing would use a pinned approval |
| `BrokerGate.PinnedRowsComeFirst` | broker/qdistro_admin_cache.py:270-299 | an argv-blind row answers only where no pinned row does |
| `BrokerModel.FirstRule` | broker/qdistro_admin_rules.py:353-370 | the first match decides; restricted to denies, the answer is a deny iff any matching rule denies, and never an allow |
| `BrokerDenials.ReapAsParts` | broker/qdistro_admin_broker.py:1767-1797 | the two passes of the reaper, fields first and events after, give the state of denying one by one |
| `BrokerDenials.CancelAsParts` | broker/qdistro_admin_broker.py:3528-3558 | the same for a cancel |
| `BrokerObjects.PendingRequest.constructor` | broker/qdistro_admin_broker.py:1229-1310 | a new request object is undecided or pre-decided, with no callbacks |
| `BrokerObjects.Broker.constructor` | broker/qdistro_admin_broker.py:1389-1409 | a new broker is the model's start state |
| `BrokerObjects.Broker.Enqueue` | broker/qdistro_admin_broker.py:5119-5359 | one filing step on the objects, which keeps what `BrokerCalls.EnqueueKeepsPromise` promises of the answer, the stored request and its decision |
| `BrokerObjects.Broker.EnqueueLimited` | broker/qdistro_admin_broker.py:5119-5146 | a filing behind the limiter object: let through iff fewer than `limit` accepted calls of its uid and action lie in the window ending now |
| `BrokerObjects.Broker.RelayMessage` | broker/qdistro_admin_broker.py:4786-4884 | one relay step: within a silo forwarded at once, across silos filed undecided with its forwarding callback parked |
| `BrokerObjects.Broker.SendWithin` | broker/qdistro_admin_broker.py:4790-4816 | the same-silo branch: forward, then a row if it can be written, then the reply |
| `BrokerObjects.Broker.WaitForDecision` | broker/qdistro_admin_broker.py:5477-5501 | one wait step: not pending is False, a stranger is refused, a standing decision is told, anything else parked |
| `BrokerObjects.Broker.BeginDecide` | broker/qdistro_admin_broker.py:5573-5662 | the begin step: exactly the administrator's verdict and scope are recorded and handed to a finisher, exactly when it started; a caller that is gone is denied |
| `BrokerObjects.Broker.FinishDecide` | broker/qdistro_admin_broker.py:5671-5751 | the finish step on the object the call still holds: who is told what, what is stored and relayed; exactly when it reports a lost row and exactly when an uncached grant |
| `BrokerObjects.Broker.CallBack` | broker/qdistro_admin_broker.py:5742-5746 | every callback of a list is called once, in order |
| `BrokerObjects.Broker.ApplyHook` | broker/qdistro_admin_broker.py:5386-5442 | one hook step: prompted without a verdict, else decided by the source that says so and everyone told |
| `BrokerObjects.Broker.DecideCheck` | broker/qdistro_admin_broker.py:3660-3719 | rules before the rules-only exclusion before the best cached approval |
| `BrokerObjects.Broker.CheckPermission` | broker/qdistro_admin_broker.py:3614-3658 | one gate step and its answer: limited, the first rule's, the best approval's, or unknown |
| `BrokerObjects.Broker.ReapPending` | broker/qdistro_admin_broker.py:1736-1805 | one reaper step by two loops over the objects, and the number of requests it removed |
| `BrokerObjects.Broker.DenyEach` | broker/qdistro_admin_broker.py:1789-1797 | rows, callbacks and signals of all denied requests, in order |
| `BrokerObjects.Broker.FindFiled` | broker/qdistro_admin_broker.py:3425-3427 | the oldest pending request with the cookie |
| `BrokerObjects.Broker.PruneMarks` | broker/qdistro_admin_broker.py:3280-3288 | exactly the marks past their time go, from both maps |
| `BrokerObjects.Broker.AnnouncePolkitAuth` | broker/qdistro_admin_broker.py:3365-3407 | one announce step and which of its replies it gets |
| `BrokerObjects.AnnounceReplies` | broker/qdistro_admin_broker.py:3381-3407 | refused iff another peer holds the cookie; accepted iff afterwards it is bound here or dead by the sender's own cancel; else the table is full |
| `BrokerObjects.Broker.RespondPolkitAuth` | broker/qdistro_admin_broker.py:3412-3499 | one local-authentication step: nothing for a cancelled, foreign or denied cookie, else the response is relayed and an open filing allowed; which reply each case gets |
| `BrokerObjects.LocalAuthReplies` | broker/qdistro_admin_broker.py:3437-3499 | each reply of a local authentication in terms of ownership, cancel, denial, identity, row and call |
| `BrokerObjects.Broker.RespondPolkit` | broker/qdistro_admin_broker.py:3581-3600 | an approval is delivered unless its filer cancelled or no identity fits |
| `BrokerObjects.Broker.CancelPolkitAuth` | broker/qdistro_admin_broker.py:3503-3558 | one cancel step; refused iff the mark table is full after pruning |
| `BrokerObjects.Broker.NoteCancel` | broker/qdistro_admin_broker.py:3301-3320 | the sender joins the mark, which keeps the time of its first cancel |
| `BrokerObjects.Broker.RevokeApproval` | broker/qdistro_admin_broker.py:5786-5806 | the row with that id goes; says whether there was one |
| `BrokerObjects.Broker.RevokeAllFor` | broker/qdistro_admin_broker.py:5808-5822 | exactly the user's rows go and are returned, each once, in table order |
| `BrokerObjects.Broker.CollectCache` | broker/qdistro_admin_broker.py:5824-5844 | the expired rows go; how many |
| `Cache.LookupOptimal` | broker/qdistro_admin_cache.py:270-299 | a lookup is the unique optimum by kind, then newest id, of the live matching rows |
| `Cache.LookupIgnoresRowOrder` | broker/qdistro_admin_cache.py:270-299 | the order in which rows come does not matter |
| `Cache.LookupSkipsBlindRows` | broker/qdistro_admin_cache.py:270-299 | a delegated or sandboxed lookup is the plain lookup on the table without its blind rows, and finds nothing without an argv |
| `Cache.RowMeansScope` | broker/qdistro_admin_cache.py:182-211 | a stored row matches exactly the requests its scope admits, where a basename scope admits the paths that end in the same name; and is blind iff the scope pins no argv |
| `Cache.BaseNameIsTheEnd` | broker/qdistro_admin_cache.py:159-167 | the basename is the one slash-free end of the path that is all of it or follows a slash |
| `Cache.BaseNameOfFile` | broker/qdistro_admin_cache.py:159-167 | the basename of any file in any directory is its name |
| `Cache.RowLastsAsScope` | broker/qdistro_admin_cache.py:114-128 | a row lives exactly as long as its scope says |
| `Cache.ScopeLattice` | broker/qdistro_admin_cache.py:114-128 | what each scope admits is contained in what the next wider one admits |
| `Cache.NarrowerGoesFirst` | broker/qdistro_admin_cache.py:130-138 | a lookup never passes over a matching row for one of a wider kind, nor for an older one of the same kind |
| `Cache.LaterIsNotNarrower` | broker/qdistro_admin_cache.py:130-138 | no kind later in the order of precedence is narrower than an earlier one |
| `Cache.StoreKeepsOrder` | broker/qdistro_admin_cache.py:340-350 | ids grow along the table through every store |
| `Cache.DeletesKeepTheRest` | broker/qdistro_admin_cache.py:368-419 | each delete removes exactly the rows it names |
| `Cache.DeletesKeepOrder` | broker/qdistro_admin_cache.py:368-419 | no delete disturbs the order of ids, although ids come back |
| `Cache.UidSplits` | broker/qdistro_admin_cache.py:392-410 | what a revoke removes and what it keeps make up the table |
| `Cache.CollectIsUnobservable` | broker/qdistro_admin_cache.py:412-419 | removing every garbage collection from a session changes no lookup's contents, decision or rank, although ids differ |
| `Cache.SessionsDifferingInCollects` | broker/qdistro_admin_cache.py:412-419 | two sessions that differ only in collections answer alike |
| `Cache.ApprovalCache.LookupDetail` | broker/qdistro_admin_cache.py:242-299 | the row loop returns the declarative optimum |
| `Cache.ApprovalCache.Decide` | broker/qdistro_admin_cache.py:233-240 | None iff no row matches, else the optimum's decision |
| `Cache.ApprovalCache.Remember` | broker/qdistro_admin_cache.py:301-351 | what is written for each scope and argv, and when nothing is |
| `Cache.ApprovalCache.DeleteById` | broker/qdistro_admin_cache.py:368-390 | the row goes and is returned |
| `Cache.ApprovalCache.DeleteByUid` | broker/qdistro_admin_cache.py:392-410 | exactly the user's rows go and are returned, each once, in table order |
| `Cache.ApprovalCache.Gc` | broker/qdistro_admin_cache.py:412-419 | the expired rows go, counted |
| `RateLimit.LimiterIsFullHistoryLimiter` | broker/qdistro_admin_ratelimit.py:55-84 | on every call sequence the trimmed queues reply as counting the full history in the closed window would |
| `RateLimit.NextReply` | broker/qdistro_admin_ratelimit.py:79-84 | after any run a call is accepted iff fewer than `limit` accepted calls of its key lie in the window ending now |
| `RateLimit.RunBounds` | broker/qdistro_admin_ratelimit.py:66-84 | never more than `max_keys` keys, no empty queue, and no closed interval one window long with more than `limit` accepted calls |
| `RateLimit.TrueHistoryIsBounded` | broker/qdistro_admin_ratelimit.py:66-84 | over the true history, evictions included: while every overflow finds some key quiet for more than a window, no closed interval one window long holds more than `limit` accepted calls of any key |
| `RateLimit.LiveKeyGoesLast` | broker/qdistro_admin_ratelimit.py:73-77 | a key called within the window is evicted only if every tracked key was |
| `RateLimit.BusyOverflowForgets` | broker/qdistro_admin_ratelimit.py:67-77 | without a quiet key the bound fails: two keys taking turns in a table of one |
| `RateLimit.RejectionIsInvisible` | broker/qdistro_admin_ratelimit.py:81-82 | erasing a rejected call from a run changes no other reply |
| `RateLimit.CheckRefines` | broker/qdistro_admin_ratelimit.py:65-84 | one call keeps queues and full history in step, eviction included |
| `RateLimit.RateLimiter.Make` | broker/qdistro_admin_ratelimit.py:38-53 | bad limits are refused, good ones give a fresh limiter |
| `RateLimit.RateLimiter.Victim` | broker/qdistro_admin_ratelimit.py:73-77 | the evicted key is one whose most recent call is oldest |
| `RateLimit.RateLimiter.DropOld` | broker/qdistro_admin_ratelimit.py:79-80 | the trimming loop drops exactly the leading calls before the cutoff |
| `RateLimit.RateLimiter.Check` | broker/qdistro_admin_ratelimit.py:55-84 | the reply is the full history's, for the history of all calls so far |
| `ArgvCodec.ArgvRoundTrip` | broker/qdistro_admin_broker.py:734-811 | an argv carried by clean details is decoded unchanged from them and from their sanitised copy |
| `ArgvCodec.DecodeReturnsCarried` | broker/qdistro_admin_broker.py:764-811 | decoding returns the carried argv in whatever order the map lists its entries |
| `ArgvCodec.ArgvKeyReadsBack` | qsu/qdistro_root_exec.py:330 | each key the sender writes names its own index to the broker |
| `ArgvCodec.EncodeCarries` | qsu/qdistro_root_exec.py:322-331 | the sender's map carries its argv |
| `ArgvCodec.CleanPassesUnchanged` | broker/qdistro_admin_broker.py:734-758 | clean details pass sanitising unchanged |
| `ArgvCodec.SanitizedIsClean` | broker/qdistro_admin_broker.py:734-758 | whatever comes in, the copy has few, short, printable, distinct entries |
| `ArgvCodec.SanitizeTwiceIsOnce` | broker/qdistro_admin_broker.py:734-758 | sanitising twice is sanitising once |
| `ArgvCodec.SanitizeDetails` | broker/qdistro_admin_broker.py:734-754 | the loop with its early break gives the clean copy |
| `ArgvCodec.ArgvFromDetails` | broker/qdistro_admin_broker.py:764-811 | the loop gives the argv sorted by index, and none without a nonempty element 0 |
| `Audit.RowsStay` | broker/qdistro_admin_audit.py:111-203 | over any later writes and collections a row is there unchanged iff no collection was asked to drop rows of its age |
| `Audit.AuditLog.Log` | broker/qdistro_admin_audit.py:111-137 | a row is appended under a new id |
| `Audit.AuditLog.Gc` | broker/qdistro_admin_audit.py:190-203 | exactly the older rows go; a negative age is refused |
| `Dispatch.RunsAtMostOnce` | broker/qdistro_admin_broker.py:1334-1362 | in every interleaving the call runs at most once, a returned value is that one run's, and "canceled" means it has not run |
| `Dispatch.CanceledNeverRuns` | broker/qdistro_admin_broker.py:1334-1362 | a call reported canceled never runs in any continuation |
| `Dispatch.UnconfirmedCompletes` | broker/qdistro_admin_broker.py:1356-1362 | a call reported as already running does run, exactly once |
| `Dispatch.FinishedIsReported` | broker/qdistro_admin_broker.py:1340-1357 | a worker still waiting or just timed out when the call is finished gets its outcome |
| `Bridge.DecisionsStayWithTheirInstance` | admin_app/qdistro_admin_app.py:1002-1123 | over every interleaving of restarts, refreshes, prompts and decides, a decision reaches only the instance that reported its row, about the request the row showed, at most once, with at most one prompt open |
| `Bridge.CurrentInstanceIsReached` | admin_app/qdistro_admin_app.py:1002-1123 | a decide on a row of the current instance, alive when it is sent, arrives at once with authority and opens the prompt without, whatever happens in between |
| `Bridge.GrantedIsReached` | admin_app/qdistro_admin_app.py:1002-1013 | after a granted prompt the decision arrives if the instance is still alive |
| `Bridge.AppliedRowsWereReached` | admin_app/qdistro_admin_app.py:3186-3205 | a row a bulk run counts as applied was decided at the instance that reported it, about the request it showed, by its own call |
| `Bridge.TagRows` | admin_app/qdistro_admin_app.py:1094-1103 | every row carries the instance that was asked |
| `Bridge.SummaryAddsUp` | admin_app/qdistro_admin_app.py:3170-3224 | every row asked about is reported once, as applied or failed |
| `Bridge.BulkRun.Take` | admin_app/qdistro_admin_app.py:3186-3222 | the counters and failure list after the answer of this row's own decide call; a refused password cancels |
| `Bridge.BulkRun.Finished` | admin_app/qdistro_admin_app.py:3178-3185 | when a bulk run stops |
| `Bridge.BulkRun.Run` | admin_app/qdistro_admin_app.py:3156-3224 | rows are decided in order, each by its own call, exactly up to the end, the cancel button or the first refused password |
| `Escalation.EachLevelOnce` | admin_app/qdistro_admin_app.py:2218-2275 | over every run a tracked request gets at most one reminder and one critical notice, never the reminder second |
| `Escalation.TickIsBounded` | admin_app/qdistro_admin_app.py:2237-2246 | a tick shows at most three notices, none while muted or focused |
| `Escalation.NoticedInTime` | admin_app/qdistro_admin_app.py:2218-2275 | a due request with i entries ahead is noticed within floor(2i/3)+1 unmuted, unfocused ticks, whatever else arrives or leaves |
| `Escalation.DuePersists` | admin_app/qdistro_admin_app.py:2206-2216 | what is due stays due until shown, even when its threshold changes |
| `Escalation.LevelByAge` | admin_app/qdistro_admin_app.py:2206-2265 | a critical notice is due from 300 s on, a reminder from 60 s, or 30 s for actions across users, until then; each exactly while nothing as strong was shown |
| `Escalation.NoticesFitAge` | admin_app/qdistro_admin_app.py:2218-2275 | every notice of every tick names a tracked request of an age that fits its level |
| `Escalation.NotificationManager.OnRequestPending` | admin_app/qdistro_admin_app.py:2105-2110 | one arrival: first time and first data kept |
| `Escalation.NotificationManager.OnRequestDecided` | admin_app/qdistro_admin_app.py:2112-2117 | everything about the request is forgotten |
| `Escalation.NotificationManager.SyncPending` | admin_app/qdistro_admin_app.py:2122-2158 | one refresh: gone ones forgotten, new ones last, missing data filled in |
| `Escalation.NotificationManager.CheckEscalation` | admin_app/qdistro_admin_app.py:2218-2275 | one tick by the budgeted loop |
| `Escalation.NotificationManager.Escalate` | admin_app/qdistro_admin_app.py:2247-2275 | the one notice an entry is due, critical before reminder |

## Left out

- Who may call: uid, pid, exe, start time, "same process", "sandboxed" and "trusted peer" are inputs; `/proc`, cgroups, SELinux and systemd checks are not modelled.
- The rules engine: a step carries the verdicts of the matching rules in order; selectors, lineage and rule files are not modelled.
- Details other than the argv keys, the audit row's context and rule path, and the scope label of a rule.
- SQLite, JSON text, schema migration and file modes; tables are sequences of rows.
- The hook executor and its slots: a step says whether a query starts and what it answers.
- Layered identity (hashes, labels, cgroup) shown beside a request, which decides nothing.
- The argument and silo-state checks of a relay message, and the clipboard, handoff and transfer gates, whose stores are separate.
- The audit rows and signals of a revocation, which move no authorization; `AuditLog.recent` and the other listings.
- `CheckPermissionForClient`, which is `CheckPermission` for another subject.
- Saving and deleting rules, Snapper and print bridges, workflow engine, `browser_ops.py`: plumbing or easy checks.
- The admin app's widgets, tray, dialogs and message texts; `Escalation` takes lower-casing and `ArgvCodec` printable characters and digits as parameters.
- `Bridge` shows an instance's requests whether or not they are still open, which only adds decisions to be safe about.
- Names never reused by the bus are an assumption, from the section "Message Bus Names" of the D-Bus Specification.
- BrokerTimes.ReapedInTime: counts from the decision as recorded; the source's own stamp is up to one pass later, hence two gaps.
- RateLimit.RunBounds: counts the calls of a key since it was last evicted; `RateLimit.TrueHistoryIsBounded` counts all of them.
- RateLimit.TrueHistoryIsBounded: its condition is sufficient; a busy overflow need not break the bound, `RateLimit.BusyOverflowForgets` shows one that does.
- The `auditOk` of a broker step says whether the row could be written; the table of `Audit` is not joined to it.
