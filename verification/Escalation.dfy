/** Reminders for requests that wait too long (admin_app/qdistro_admin_app.py, `NotificationManager`).

    A tracked request keeps its place in the arrival map until it is decided or a refresh no longer lists it.
    `serial` numbers the trackings: a request id that comes back later is tracked anew, at the end. */
module Escalation {
  import opened Options

  const ESCALATION_THRESHOLD := 60.0
  const CRITICAL_THRESHOLD := 300.0
  const CROSS_UID_THRESHOLD := 30.0
  const MAX_PER_TICK := 3

  datatype Entry = Entry(serial: nat, rid: nat, arrival: real)
  datatype Meta = Meta(action: string, uid: int)
  datatype Level = Reminder | Critical
  datatype Notice = Notice(serial: nat, rid: nat, level: Level)
  datatype Listed = Listed(rid: nat, action: string, uid: int)

  datatype State = State(muted: bool, entries: seq<Entry>, meta: map<nat, Meta>, escalated: set<nat>,
                         critical: set<nat>,
                         notices: seq<Notice>, nextSerial: nat)

  /** Lower-casing is Unicode's business and comes in as a parameter. */
  type Lower = string -> string

  predicate Contains(s: string, part: string) {
    part <= s || (s != [] && Contains(s[1..], part))
  }

  predicate IsCrossUid(lower: Lower, action: string) {
    || Contains(lower(action), "cross") || Contains(lower(action), "xuid")
    || "qdistro.clipboard.transfer:" <= action
    || "qdistro.clipboard.receive:" <= action
    || "qdistro.handoff.activate:" <= action
    || "app.send-to:" <= action
    || "qsu.exec:" <= action
  }

  function ActionOf(s: State, rid: nat): string { if rid in s.meta then s.meta[rid].action else "" }

  function Threshold(lower: Lower, s: State, rid: nat): real {
    if IsCrossUid(lower, ActionOf(s, rid)) then CROSS_UID_THRESHOLD else ESCALATION_THRESHOLD
  }

  // ---------------------------------------------------------------- a tick

  /** The notice an entry is due at time `now`, if any. */
  function Due(lower: Lower, s: State, e: Entry, now: real): Option<Level> {
    if now - e.arrival >= CRITICAL_THRESHOLD && e.rid !in s.critical then Some(Critical)
    else if now - e.arrival >= Threshold(lower, s, e.rid) && e.rid !in s.escalated then Some(Reminder)
    else None
  }

  function Show(s: State, e: Entry, level: Level): State {
    s.(critical := if level.Critical? then s.critical + {e.rid} else s.critical,
       escalated := s.escalated + {e.rid},
       notices := s.notices + [Notice(e.serial, e.rid, level)])
  }

  /** The walk over the entries from position `i` on, `emitted` notices having been shown already. */
  function Scan(lower: Lower, s: State, i: nat, emitted: nat, now: real): State
    requires i <= |s.entries|
    decreases |s.entries| - i
  {
    if i == |s.entries| || emitted >= MAX_PER_TICK then s
    else
      match Due(lower, s, s.entries[i], now)
      case None => Scan(lower, s, i + 1, emitted, now)
      case Some(level) => Scan(lower, Show(s, s.entries[i], level), i + 1, emitted + 1, now)
  }

  predicate Effective(s: State, active: bool) { !s.muted && !active }

  function Tick(lower: Lower, s: State, now: real, active: bool): State {
    if Effective(s, active) then Scan(lower, s, 0, 0, now) else s
  }

  // ---------------------------------------------------------------- tracking

  predicate Tracks(s: State, rid: nat) { exists i :: 0 <= i < |s.entries| && s.entries[i].rid == rid }

  function Track(s: State, now: real, rid: nat): State {
    if Tracks(s, rid) then s
    else s.(entries := s.entries + [Entry(s.nextSerial, rid, now)], nextSerial := s.nextSerial + 1)
  }

  function AddMeta(s: State, rid: nat, action: string, uid: int): State {
    if rid !in s.meta && (action != "" || uid != 0) then s.(meta := s.meta[rid := Meta(action, uid)]) else s
  }

  function Arrive(s: State, now: real, rid: nat, action: string, uid: int): State {
    AddMeta(Track(s, now, rid), rid, action, uid)
  }

  function Keep(entries: seq<Entry>, gone: set<nat>): seq<Entry> {
    if entries == [] then []
    else
      var e := entries[|entries| - 1];
      Keep(entries[..|entries| - 1], gone) + (if e.rid in gone then [] else [e])
  }

  function Forget(s: State, gone: set<nat>): State {
    s.(entries := Keep(s.entries, gone), meta := s.meta - gone,
       escalated := s.escalated - gone, critical := s.critical - gone)
  }

  function Rids(entries: seq<Entry>): set<nat> { set e | e in entries :: e.rid }

  function TrackAll(s: State, now: real, rids: seq<nat>): State {
    if rids == [] then s else Track(TrackAll(s, now, rids[..|rids| - 1]), now, rids[|rids| - 1])
  }

  function AddAllMeta(s: State, listed: seq<Listed>): State {
    if listed == [] then s
    else
      var l := listed[|listed| - 1];
      AddMeta(AddAllMeta(s, listed[..|listed| - 1]), l.rid, l.action, l.uid)
  }

  /** `sync_pending`; `rids` lists the pending set in the order new ones are taken. */
  function Refresh(s: State, now: real, rids: seq<nat>, listed: seq<Listed>): State {
    var stale := Rids(s.entries) - (set r | r in rids);
    AddAllMeta(TrackAll(Forget(s, stale), now, rids), listed)
  }

  datatype Event =
    | DoTick(now: real, active: bool)
    | DoArrive(now: real, rid: nat, action: string, uid: int)
    | DoDecided(rid: nat)
    | DoRefresh(now: real, rids: seq<nat>, listed: seq<Listed>)
    | DoMute(on: bool)

  function Next(lower: Lower, s: State, e: Event): State {
    match e
    case DoTick(now, active) => Tick(lower, s, now, active)
    case DoArrive(now, rid, action, uid) => Arrive(s, now, rid, action, uid)
    case DoDecided(rid) => Forget(s, {rid})
    case DoRefresh(now, rids, listed) => Refresh(s, now, rids, listed)
    case DoMute(on) => s.(muted := on)
  }

  function After(lower: Lower, s: State, run: seq<Event>): State
    decreases |run|
  {
    if run == [] then s else After(lower, Next(lower, s, run[0]), run[1..])
  }

  const START := State(false, [], map[], {}, {}, [], 0)

  // ---------------------------------------------------------------- each level once

  /** Two notices of one tracking are a reminder and then a critical one. */
  ghost predicate Tidy(notices: seq<Notice>) {
    forall i, j :: 0 <= i < j < |notices| && notices[i].serial == notices[j].serial ==>
      notices[i].level.Reminder? && notices[j].level.Critical?
  }

  ghost predicate Noticed(notices: seq<Notice>, serial: nat) {
    exists k :: 0 <= k < |notices| && notices[k].serial == serial
  }

  ghost predicate NoticedCritical(notices: seq<Notice>, serial: nat) {
    exists k :: 0 <= k < |notices| && notices[k].serial == serial && notices[k].level.Critical?
  }

  ghost predicate EntryOk(s: State, e: Entry) {
    && e.serial < s.nextSerial
    && (e.rid in s.escalated <==> Noticed(s.notices, e.serial))
    && (e.rid in s.critical <==> NoticedCritical(s.notices, e.serial))
  }

  ghost predicate Ordered(entries: seq<Entry>) {
    forall i, j :: 0 <= i < j < |entries| ==> entries[i].rid != entries[j].rid && entries[i].serial < entries[j].serial
  }

  ghost predicate Inv(s: State) {
    && Ordered(s.entries)
    && (forall i :: 0 <= i < |s.entries| ==> EntryOk(s, s.entries[i]))
    && Tidy(s.notices)
    && (forall k :: 0 <= k < |s.notices| ==> s.notices[k].serial < s.nextSerial)
    && s.escalated <= Rids(s.entries) && s.critical <= s.escalated
  }

  lemma StartInv()
    ensures Inv(START)
  {
  }

  lemma ShowNotices(notices: seq<Notice>, x: Notice, serial: nat)
    ensures Noticed(notices + [x], serial) <==> Noticed(notices, serial) || x.serial == serial
    ensures NoticedCritical(notices + [x], serial) <==>
              NoticedCritical(notices, serial) || (x.serial == serial && x.level.Critical?)
  {
    var all := notices + [x];
    assert all[|notices|] == x;
    if Noticed(notices, serial) {
      var k :| 0 <= k < |notices| && notices[k].serial == serial;
      assert all[k] == notices[k];
    }
    if NoticedCritical(notices, serial) {
      var k :| 0 <= k < |notices| && notices[k].serial == serial && notices[k].level.Critical?;
      assert all[k] == notices[k];
    }
  }

  lemma ShowKeepsInv(lower: Lower, s: State, i: nat, now: real)
    requires Inv(s) && i < |s.entries| && Due(lower, s, s.entries[i], now).Some?
    ensures Inv(Show(s, s.entries[i], Due(lower, s, s.entries[i], now).value))
  {
    var e, level := s.entries[i], Due(lower, s, s.entries[i], now).value;
    var s' := Show(s, e, level);
    var x := Notice(e.serial, e.rid, level);
    assert EntryOk(s, e);
    forall j | 0 <= j < |s'.entries| ensures EntryOk(s', s'.entries[j]) {
      assert EntryOk(s, s.entries[j]);
      ShowNotices(s.notices, x, s.entries[j].serial);
    }
    forall k, m | 0 <= k < m < |s'.notices| && s'.notices[k].serial == s'.notices[m].serial
      ensures s'.notices[k].level.Reminder? && s'.notices[m].level.Critical?
    {
      if m == |s.notices| {
        assert Noticed(s.notices, e.serial);
        assert level.Critical?;
      }
    }
    assert e.rid in Rids(s.entries);
  }

  lemma {:induction false} ScanKeepsInv(lower: Lower, s: State, i: nat, emitted: nat, now: real)
    requires Inv(s) && i <= |s.entries|
    ensures Inv(Scan(lower, s, i, emitted, now))
    decreases |s.entries| - i
  {
    if i < |s.entries| && emitted < MAX_PER_TICK {
      var due := Due(lower, s, s.entries[i], now);
      if due.None? {
        ScanKeepsInv(lower, s, i + 1, emitted, now);
      } else {
        ShowKeepsInv(lower, s, i, now);
        ScanKeepsInv(lower, Show(s, s.entries[i], due.value), i + 1, emitted + 1, now);
      }
    }
  }

  lemma TrackKeepsInv(s: State, now: real, rid: nat)
    requires Inv(s)
    ensures Inv(Track(s, now, rid))
  {
    if !Tracks(s, rid) {
      var s' := Track(s, now, rid);
      var e := Entry(s.nextSerial, rid, now);
      assert rid !in Rids(s.entries);
      forall x | x in Rids(s.entries) ensures x in Rids(s'.entries) {
        var y :| y in s.entries && y.rid == x;
        assert y in s'.entries;
      }
      forall i | 0 <= i < |s'.entries| ensures EntryOk(s', s'.entries[i]) {
        if i < |s.entries| {
          assert EntryOk(s, s.entries[i]);
        } else {
          assert s'.entries[i] == e;
        }
      }
    }
  }

  lemma {:induction false} KeepShape(entries: seq<Entry>, gone: set<nat>)
    requires Ordered(entries)
    ensures Ordered(Keep(entries, gone))
    ensures forall e :: e in Keep(entries, gone) <==> e in entries && e.rid !in gone
  {
    if entries != [] {
      var n := |entries| - 1;
      KeepShape(entries[..n], gone);
      assert entries == entries[..n] + [entries[n]];
      var r := Keep(entries[..n], gone);
      forall i | 0 <= i < |r| ensures r[i].rid != entries[n].rid && r[i].serial < entries[n].serial {
        assert r[i] in entries[..n];
      }
    }
  }

  lemma ForgetKeepsInv(s: State, gone: set<nat>)
    requires Inv(s)
    ensures Inv(Forget(s, gone))
  {
    KeepShape(s.entries, gone);
    var s' := Forget(s, gone);
    forall i | 0 <= i < |s'.entries| ensures EntryOk(s', s'.entries[i]) {
      assert s'.entries[i] in s'.entries;
      var j :| 0 <= j < |s.entries| && s.entries[j] == s'.entries[i];
      assert EntryOk(s, s.entries[j]);
    }
    forall x | x in s'.escalated ensures x in Rids(s'.entries) {
      assert x in Rids(s.entries);
      var e :| e in s.entries && e.rid == x;
      assert e in s'.entries;
    }
  }

  lemma {:induction false} TrackAllKeepsInv(s: State, now: real, rids: seq<nat>)
    requires Inv(s)
    ensures Inv(TrackAll(s, now, rids))
  {
    if rids != [] {
      TrackAllKeepsInv(s, now, rids[..|rids| - 1]);
      TrackKeepsInv(TrackAll(s, now, rids[..|rids| - 1]), now, rids[|rids| - 1]);
    }
  }

  /** Only the meta data changes. */
  lemma {:induction false} MetaOnly(s: State, listed: seq<Listed>)
    ensures AddAllMeta(s, listed) == s.(meta := AddAllMeta(s, listed).meta)
    ensures forall r :: r in s.meta ==> r in AddAllMeta(s, listed).meta && AddAllMeta(s, listed).meta[r] == s.meta[r]
  {
    if listed != [] {
      MetaOnly(s, listed[..|listed| - 1]);
    }
  }

  lemma MetaKeepsInv(s: State, meta: map<nat, Meta>)
    requires Inv(s)
    ensures Inv(s.(meta := meta))
  {
    var s' := s.(meta := meta);
    forall i | 0 <= i < |s'.entries| ensures EntryOk(s', s'.entries[i]) {
      assert EntryOk(s, s.entries[i]);
    }
  }

  lemma NextKeepsInv(lower: Lower, s: State, e: Event)
    requires Inv(s)
    ensures Inv(Next(lower, s, e))
  {
    match e
    case DoTick(now, active) => ScanKeepsInv(lower, s, 0, 0, now);
    case DoArrive(now, rid, action, uid) =>
      TrackKeepsInv(s, now, rid);
      MetaKeepsInv(Track(s, now, rid), Arrive(s, now, rid, action, uid).meta);
    case DoDecided(rid) => ForgetKeepsInv(s, {rid});
    case DoRefresh(now, rids, listed) =>
      var s1 := Forget(s, Rids(s.entries) - (set r | r in rids));
      ForgetKeepsInv(s, Rids(s.entries) - (set r | r in rids));
      TrackAllKeepsInv(s1, now, rids);
      MetaOnly(TrackAll(s1, now, rids), listed);
      MetaKeepsInv(TrackAll(s1, now, rids), Refresh(s, now, rids, listed).meta);
    case DoMute(on) =>
      forall i | 0 <= i < |s.entries| ensures EntryOk(s.(muted := on), s.entries[i]) {
        assert EntryOk(s, s.entries[i]);
      }
  }

  lemma {:induction false} RunKeepsInv(lower: Lower, s: State, run: seq<Event>)
    requires Inv(s)
    ensures Inv(After(lower, s, run))
    decreases |run|
  {
    if run != [] {
      NextKeepsInv(lower, s, run[0]);
      RunKeepsInv(lower, Next(lower, s, run[0]), run[1..]);
    }
  }

  /** Whatever happens, one tracking gets at most one reminder and one critical notice, and never the reminder after
      the critical one. */
  lemma EachLevelOnce(lower: Lower, run: seq<Event>, i: nat, j: nat)
    requires var n := After(lower, START, run).notices; i < j < |n| && n[i].serial == n[j].serial
    ensures var n := After(lower, START, run).notices; n[i].level == Reminder && n[j].level == Critical
  {
    StartInv();
    RunKeepsInv(lower, START, run);
  }

  // ---------------------------------------------------------------- a tick is bounded

  lemma {:induction false} ScanShape(lower: Lower, s: State, i: nat, emitted: nat, now: real)
    requires i <= |s.entries| && emitted <= MAX_PER_TICK
    ensures var s' := Scan(lower, s, i, emitted, now);
            && s' == s.(escalated := s'.escalated, critical := s'.critical, notices := s'.notices)
            && s.notices <= s'.notices && |s'.notices| - |s.notices| <= MAX_PER_TICK - emitted
            && s.escalated <= s'.escalated && s.critical <= s'.critical
    decreases |s.entries| - i
  {
    if i < |s.entries| && emitted < MAX_PER_TICK {
      var due := Due(lower, s, s.entries[i], now);
      if due.None? {
        ScanShape(lower, s, i + 1, emitted, now);
      } else {
        ScanShape(lower, Show(s, s.entries[i], due.value), i + 1, emitted + 1, now);
      }
    }
  }

  // ---------------------------------------------------------------- which level at which age

  /** A critical notice comes from five minutes on, a reminder before that: from one minute on, or from half a minute on
      for an action across users. */
  ghost predicate FitsAge(lower: Lower, s: State, e: Entry, now: real, level: Level) {
    var age := now - e.arrival;
    if level.Critical? then age >= 300.0
    else (if IsCrossUid(lower, ActionOf(s, e.rid)) then 30.0 else 60.0) <= age < 300.0
  }

  /** A level is due exactly when the age fits it and nothing as strong has been shown for this tracking. */
  lemma LevelByAge(lower: Lower, s: State, i: nat, now: real)
    requires Inv(s) && i < |s.entries|
    ensures var e := s.entries[i];
            && (Due(lower, s, e, now) == Some(Critical) <==>
                  FitsAge(lower, s, e, now, Critical) && !NoticedCritical(s.notices, e.serial))
            && (Due(lower, s, e, now) == Some(Reminder) <==>
                  FitsAge(lower, s, e, now, Reminder) && !Noticed(s.notices, e.serial))
  {
    assert EntryOk(s, s.entries[i]);
  }

  ghost predicate Names(x: Notice, e: Entry) { x.serial == e.serial && x.rid == e.rid }

  lemma {:induction false} ScanFitsAge(lower: Lower, s: State, i: nat, emitted: nat, now: real, k: nat) returns (j: nat)
    requires s.critical <= s.escalated && i <= |s.entries| && emitted <= MAX_PER_TICK
    requires |s.notices| <= k < |Scan(lower, s, i, emitted, now).notices|
    ensures j < |s.entries|
    ensures var x := Scan(lower, s, i, emitted, now).notices[k];
            Names(x, s.entries[j]) && FitsAge(lower, s, s.entries[j], now, x.level)
    decreases |s.entries| - i
  {
    var due := Due(lower, s, s.entries[i], now);
    if due.None? {
      j := ScanFitsAge(lower, s, i + 1, emitted, now, k);
    } else {
      var s1 := Show(s, s.entries[i], due.value);
      ScanShape(lower, s1, i + 1, emitted + 1, now);
      if k == |s.notices| {
        j := i;
        assert s1.notices[k] == Notice(s.entries[i].serial, s.entries[i].rid, due.value);
      } else {
        j := ScanFitsAge(lower, s1, i + 1, emitted + 1, now, k);
      }
    }
  }

  /** Every notice of every tick of every run is about a tracked request of an age that fits its level. */
  lemma {:induction false} NoticesFitAge(lower: Lower, run: seq<Event>, now: real, active: bool, k: nat)
      returns (j: nat)
    requires var s := After(lower, START, run); |s.notices| <= k < |Tick(lower, s, now, active).notices|
    ensures var s := After(lower, START, run);
            var x := Tick(lower, s, now, active).notices[k];
            j < |s.entries| && Names(x, s.entries[j]) && FitsAge(lower, s, s.entries[j], now, x.level)
  {
    StartInv();
    RunKeepsInv(lower, START, run);
    j := ScanFitsAge(lower, After(lower, START, run), 0, 0, now, k);
  }

  /** A tick shows at most three notices, and none while muted or while the window has the focus. */
  lemma TickIsBounded(lower: Lower, s: State, now: real, active: bool)
    ensures s.notices <= Tick(lower, s, now, active).notices
    ensures |Tick(lower, s, now, active).notices| - |s.notices| <= if Effective(s, active) then MAX_PER_TICK else 0
  {
    ScanShape(lower, s, 0, 0, now);
  }

  // ---------------------------------------------------------------- a tick is fair

  /** How many notices an entry can still cause. */
  function Left(s: State, e: Entry): nat {
    (if e.rid in s.escalated then 0 else 1) + (if e.rid in s.critical then 0 else 1)
  }

  /** The same for all entries tracked before `serial`. */
  function Load(s: State, entries: seq<Entry>, serial: nat): nat {
    if entries == [] then 0
    else
      var e := entries[|entries| - 1];
      Load(s, entries[..|entries| - 1], serial) + (if e.serial < serial then Left(s, e) else 0)
  }

  /** How many entries are tracked before `serial`. */
  function Ahead(entries: seq<Entry>, serial: nat): nat {
    if entries == [] then 0
    else Ahead(entries[..|entries| - 1], serial) + (if entries[|entries| - 1].serial < serial then 1 else 0)
  }

  function LoadBefore(s: State, serial: nat): nat { Load(s, s.entries, serial) }

  lemma {:induction false} LoadIsSmall(s: State, entries: seq<Entry>, serial: nat)
    ensures Load(s, entries, serial) <= 2 * Ahead(entries, serial)
  {
    if entries != [] {
      LoadIsSmall(s, entries[..|entries| - 1], serial);
    }
  }

  lemma {:induction false} ShowUsesUp(s: State, x: Entry, level: Level, entries: seq<Entry>, serial: nat)
    requires x.serial < serial && if level.Critical? then x.rid !in s.critical else x.rid !in s.escalated
    ensures x in entries ==> Load(Show(s, x, level), entries, serial) < Load(s, entries, serial)
    ensures Load(Show(s, x, level), entries, serial) <= Load(s, entries, serial)
  {
    if entries != [] {
      ShowUsesUp(s, x, level, entries[..|entries| - 1], serial);
    }
  }

  /** Forgetting some entries leaves the flags of the others. */
  lemma {:induction false} KeepLightens(s: State, gone: set<nat>, entries: seq<Entry>, serial: nat)
    ensures Load(Forget(s, gone), Keep(entries, gone), serial) <= Load(s, entries, serial)
  {
    if entries != [] {
      var n := |entries| - 1;
      KeepLightens(s, gone, entries[..n], serial);
      var kept := Keep(entries[..n], gone);
      if entries[n].rid !in gone {
        assert (kept + [entries[n]])[..|kept|] == kept;
      } else {
        assert kept + [] == kept;
      }
    }
  }

  lemma {:induction false} LoadIgnoresRest(s: State, s': State, entries: seq<Entry>, serial: nat)
    requires s'.escalated == s.escalated && s'.critical == s.critical
    ensures Load(s', entries, serial) == Load(s, entries, serial)
  {
    if entries != [] {
      LoadIgnoresRest(s, s', entries[..|entries| - 1], serial);
    }
  }

  /** New entries come after the old ones. */
  lemma {:induction false} TrackAllIsLater(s: State, now: real, rids: seq<nat>, serial: nat)
    requires serial <= s.nextSerial
    ensures var s' := TrackAll(s, now, rids);
            && s' == s.(entries := s'.entries, nextSerial := s'.nextSerial) && s.nextSerial <= s'.nextSerial
            && LoadBefore(s', serial) == LoadBefore(s, serial)
  {
    if rids != [] {
      var n := |rids| - 1;
      var s1 := TrackAll(s, now, rids[..n]);
      TrackAllIsLater(s, now, rids[..n], serial);
      TrackIsLater(s1, now, rids[n], serial);
    }
  }

  lemma TrackIsLater(s: State, now: real, rid: nat, serial: nat)
    requires serial <= s.nextSerial
    ensures LoadBefore(Track(s, now, rid), serial) == LoadBefore(s, serial)
  {
    var s' := Track(s, now, rid);
    if !Tracks(s, rid) {
      assert s'.entries[..|s.entries|] == s.entries;
      LoadIgnoresRest(s, s', s.entries, serial);
    }
  }

  ghost predicate NoticedSince(before: seq<Notice>, after: seq<Notice>, serial: nat) {
    exists k :: |before| <= k < |after| && after[k].serial == serial
  }

  lemma DueIsSeparate(lower: Lower, s: State, i: nat, p: nat, level: Level, now: real)
    requires Ordered(s.entries) && i < p < |s.entries|
    ensures Due(lower, Show(s, s.entries[i], level), s.entries[p], now) == Due(lower, s, s.entries[p], now)
  {
  }

  /** A due entry is either noticed by the walk or kept waiting by a full budget of earlier entries' notices. */
  lemma {:induction false} ScanServes(lower: Lower, s: State, i: nat, emitted: nat, now: real, p: nat)
    requires Ordered(s.entries) && i <= p < |s.entries| && emitted <= MAX_PER_TICK
    requires Due(lower, s, s.entries[p], now).Some?
    ensures var s', serial := Scan(lower, s, i, emitted, now), s.entries[p].serial;
            || NoticedSince(s.notices, s'.notices, serial)
            || LoadBefore(s', serial) + (MAX_PER_TICK - emitted) <= LoadBefore(s, serial)
    decreases p - i
  {
    var serial := s.entries[p].serial;
    var due := Due(lower, s, s.entries[i], now);
    if emitted < MAX_PER_TICK {
      if due.None? {
        ScanServes(lower, s, i + 1, emitted, now, p);
      } else {
        var s1 := Show(s, s.entries[i], due.value);
        if i == p {
          ScanShape(lower, s1, i + 1, emitted + 1, now);
          assert Scan(lower, s, i, emitted, now).notices[|s.notices|] == s1.notices[|s.notices|];
        } else {
          DueIsSeparate(lower, s, i, p, due.value, now);
          ScanServes(lower, s1, i + 1, emitted + 1, now, p);
          ShowUsesUp(s, s.entries[i], due.value, s.entries, serial);
          SinceGrows(s.notices, s1.notices, Scan(lower, s1, i + 1, emitted + 1, now).notices, serial);
        }
      }
    }
  }

  lemma SinceGrows(a: seq<Notice>, b: seq<Notice>, d: seq<Notice>, serial: nat)
    requires |a| <= |b|
    ensures NoticedSince(b, d, serial) ==> NoticedSince(a, d, serial)
  {
    if NoticedSince(b, d, serial) {
      var k :| |b| <= k < |d| && d[k].serial == serial;
    }
  }

  // ---------------------------------------------------------------- waiting is bounded

  /** Nothing about this entry has changed but, perhaps, the data that shortens its threshold. */
  ghost predicate Unchanged(s: State, s': State, e: Entry) {
    && (e.rid in s'.escalated <==> e.rid in s.escalated) && (e.rid in s'.critical <==> e.rid in s.critical)
    && (e.rid in s.meta ==> e.rid in s'.meta && s'.meta[e.rid] == s.meta[e.rid])
  }

  /** What is due stays due. */
  lemma DuePersists(lower: Lower, s: State, s': State, e: Entry, at: real, later: real)
    requires lower("") == "" && Due(lower, s, e, at).Some? && Unchanged(s, s', e) && at <= later
    ensures Due(lower, s', e, later).Some?
  {
    assert !IsCrossUid(lower, "");
    assert e.rid !in s.meta ==> Threshold(lower, s, e.rid) == ESCALATION_THRESHOLD;
  }

  predicate Counts(s: State, ev: Event) { ev.DoTick? && Effective(s, ev.active) }

  ghost predicate Waits(lower: Lower, s: State, s': State, e: Entry, at: real, ticked: bool) {
    && Due(lower, s', e, at).Some?
    && LoadBefore(s', e.serial) + (if ticked then MAX_PER_TICK else 0) <= LoadBefore(s, e.serial)
  }

  lemma TickServes(lower: Lower, s: State, now: real, active: bool, e: Entry, at: real)
    requires Inv(s) && e in s.entries && lower("") == "" && Due(lower, s, e, at).Some? && at <= now
    ensures var s' := Tick(lower, s, now, active);
            NoticedSince(s.notices, s'.notices, e.serial) || Waits(lower, s, s', e, at, Effective(s, active))
  {
    if Effective(s, active) {
      var s' := Tick(lower, s, now, active);
      DuePersists(lower, s, s, e, at, now);
      var p :| 0 <= p < |s.entries| && s.entries[p] == e;
      ScanServes(lower, s, 0, 0, now, p);
      ScanShape(lower, s, 0, 0, now);
      ScanKeepsInv(lower, s, 0, 0, now);
      if !NoticedSince(s.notices, s'.notices, e.serial) {
        assert s'.entries[p] == e && EntryOk(s', e) && EntryOk(s, e);
        NotSince(s.notices, s'.notices, e.serial);
        DuePersists(lower, s, s', e, at, at);
      }
    }
  }

  lemma NotSince(before: seq<Notice>, after: seq<Notice>, serial: nat)
    requires before <= after && !NoticedSince(before, after, serial)
    ensures Noticed(after, serial) <==> Noticed(before, serial)
    ensures NoticedCritical(after, serial) <==> NoticedCritical(before, serial)
  {
    if Noticed(before, serial) {
      var k :| 0 <= k < |before| && before[k].serial == serial;
      assert after[k] == before[k];
    }
    if NoticedCritical(before, serial) {
      var k :| 0 <= k < |before| && before[k].serial == serial && before[k].level.Critical?;
      assert after[k] == before[k];
    }
    if Noticed(after, serial) {
      var k :| 0 <= k < |after| && after[k].serial == serial;
      assert k < |before| && before[k] == after[k];
    }
    if NoticedCritical(after, serial) {
      var k :| 0 <= k < |after| && after[k].serial == serial && after[k].level.Critical?;
      assert k < |before| && before[k] == after[k];
    }
  }

  lemma ForgetWaits(lower: Lower, s: State, gone: set<nat>, e: Entry, at: real)
    requires Inv(s) && lower("") == "" && Due(lower, s, e, at).Some? && e.rid !in gone
    ensures Waits(lower, s, Forget(s, gone), e, at, false)
  {
    KeepLightens(s, gone, s.entries, e.serial);
    DuePersists(lower, s, Forget(s, gone), e, at, at);
  }

  lemma ArriveWaits(lower: Lower, s: State, now: real, rid: nat, action: string, uid: int, e: Entry, at: real)
    requires Inv(s) && e in s.entries && lower("") == "" && Due(lower, s, e, at).Some?
    ensures Waits(lower, s, Arrive(s, now, rid, action, uid), e, at, false)
  {
    var s1, s' := Track(s, now, rid), Arrive(s, now, rid, action, uid);
    var p :| 0 <= p < |s.entries| && s.entries[p] == e;
    assert EntryOk(s, s.entries[p]);
    TrackIsLater(s, now, rid, e.serial);
    LoadIgnoresRest(s1, s', s1.entries, e.serial);
    DuePersists(lower, s, s', e, at, at);
  }

  lemma RefreshWaits(lower: Lower, s: State, now: real, rids: seq<nat>, listed: seq<Listed>, e: Entry, at: real)
    requires Inv(s) && e in s.entries && lower("") == "" && Due(lower, s, e, at).Some? && e.rid in rids
    ensures Waits(lower, s, Refresh(s, now, rids, listed), e, at, false)
  {
    var stale := Rids(s.entries) - (set r | r in rids);
    var s1 := Forget(s, stale);
    var s2 := TrackAll(s1, now, rids);
    var s' := Refresh(s, now, rids, listed);
    var p :| 0 <= p < |s.entries| && s.entries[p] == e;
    assert EntryOk(s, s.entries[p]);
    KeepLightens(s, stale, s.entries, e.serial);
    TrackAllIsLater(s1, now, rids, e.serial);
    MetaOnly(s2, listed);
    LoadIgnoresRest(s2, s', s2.entries, e.serial);
    DuePersists(lower, s, s', e, at, at);
  }

  /** The entry is not taken off the list. */
  predicate Spares(ev: Event, e: Entry) {
    && (ev.DoDecided? ==> ev.rid != e.rid)
    && (ev.DoRefresh? ==> e.rid in ev.rids)
  }

  lemma StepServes(lower: Lower, s: State, ev: Event, e: Entry, at: real)
    requires Inv(s) && e in s.entries && lower("") == "" && Due(lower, s, e, at).Some?
    requires Spares(ev, e) && (ev.DoTick? ==> at <= ev.now)
    ensures var s' := Next(lower, s, ev);
            NoticedSince(s.notices, s'.notices, e.serial) || Waits(lower, s, s', e, at, Counts(s, ev))
  {
    match ev
    case DoTick(now, active) => TickServes(lower, s, now, active, e, at);
    case DoArrive(now, rid, action, uid) => ArriveWaits(lower, s, now, rid, action, uid, e, at);
    case DoDecided(rid) => ForgetWaits(lower, s, {rid}, e, at);
    case DoRefresh(now, rids, listed) => RefreshWaits(lower, s, now, rids, listed, e, at);
    case DoMute(on) =>
      LoadIgnoresRest(s, s.(muted := on), s.entries, e.serial);
      DuePersists(lower, s, s.(muted := on), e, at, at);
  }

  /** Unmuted, unfocused ticks of a run. */
  function Ticks(lower: Lower, s: State, run: seq<Event>): nat
    decreases |run|
  {
    if run == [] then 0
    else (if Counts(s, run[0]) then 1 else 0) + Ticks(lower, Next(lower, s, run[0]), run[1..])
  }

  lemma {:induction false} TrackAllStays(s: State, now: real, rids: seq<nat>, e: Entry)
    requires e in s.entries
    ensures e in TrackAll(s, now, rids).entries
  {
    if rids != [] {
      TrackAllStays(s, now, rids[..|rids| - 1], e);
    }
  }

  lemma SparedStays(lower: Lower, s: State, ev: Event, e: Entry)
    requires Inv(s) && e in s.entries && Spares(ev, e)
    ensures e in Next(lower, s, ev).entries && s.notices <= Next(lower, s, ev).notices
  {
    match ev
    case DoTick(now, active) => ScanShape(lower, s, 0, 0, now);
    case DoArrive(_, _, _, _) =>
    case DoDecided(rid) => KeepShape(s.entries, {rid});
    case DoRefresh(now, rids, listed) =>
      var stale := Rids(s.entries) - (set r | r in rids);
      KeepShape(s.entries, stale);
      TrackAllStays(Forget(s, stale), now, rids, e);
      TrackAllIsLater(Forget(s, stale), now, rids, 0);
      MetaOnly(TrackAll(Forget(s, stale), now, rids), listed);
    case DoMute(_) =>
  }

  lemma {:induction false} WaitIsPaidFor(lower: Lower, s: State, run: seq<Event>, e: Entry, at: real)
    requires Inv(s) && e in s.entries && lower("") == "" && Due(lower, s, e, at).Some?
    requires forall i :: 0 <= i < |run| ==> Spares(run[i], e) && (run[i].DoTick? ==> at <= run[i].now)
    ensures s.notices <= After(lower, s, run).notices
    ensures || NoticedSince(s.notices, After(lower, s, run).notices, e.serial)
            || MAX_PER_TICK * Ticks(lower, s, run) <= LoadBefore(s, e.serial)
    decreases |run|
  {
    if run != [] {
      var s1 := Next(lower, s, run[0]);
      NextKeepsInv(lower, s, run[0]);
      SparedStays(lower, s, run[0], e);
      StepServes(lower, s, run[0], e, at);
      NoticesGrow(lower, s1, run[1..]);
      var last := After(lower, s1, run[1..]).notices;
      assert After(lower, s, run).notices == last;
      if NoticedSince(s.notices, s1.notices, e.serial) {
        var k :| |s.notices| <= k < |s1.notices| && s1.notices[k].serial == e.serial;
        assert last[k] == s1.notices[k];
      } else {
        forall i | 0 <= i < |run[1..]| ensures Spares(run[1..][i], e)
            && (run[1..][i].DoTick? ==> at <= run[1..][i].now) {
          assert run[1..][i] == run[i + 1];
        }
        WaitIsPaidFor(lower, s1, run[1..], e, at);
        SinceGrows(s.notices, s1.notices, last, e.serial);
      }
    }
  }

  lemma {:induction false} NoticesGrow(lower: Lower, s: State, run: seq<Event>)
    ensures s.notices <= After(lower, s, run).notices
    decreases |run|
  {
    if run != [] {
      if run[0].DoTick? {
        TickIsBounded(lower, s, run[0].now, run[0].active);
      } else if run[0].DoRefresh? {
        var s1 := Forget(s, Rids(s.entries) - (set r | r in run[0].rids));
        TrackAllIsLater(s1, run[0].now, run[0].rids, 0);
        MetaOnly(TrackAll(s1, run[0].now, run[0].rids), run[0].listed);
      }
      NoticesGrow(lower, Next(lower, s, run[0]), run[1..]);
    }
  }

  /** A request due for a notice, with `i` entries ahead of it, gets one within 2i/3 + 1 unmuted, unfocused ticks,
      whatever else arrives, leaves or is refreshed meanwhile, as long as it stays pending itself. */
  lemma NoticedInTime(lower: Lower, before: seq<Event>, run: seq<Event>, e: Entry, at: real)
    requires lower("") == ""
    requires var s := After(lower, START, before); e in s.entries && Due(lower, s, e, at).Some?
    requires forall i :: 0 <= i < |run| ==> Spares(run[i], e) && (run[i].DoTick? ==> at <= run[i].now)
    requires var s := After(lower, START, before); Ticks(lower, s, run) >= 2 * Ahead(s.entries, e.serial) / 3 + 1
    ensures var s := After(lower, START, before);
            NoticedSince(s.notices, After(lower, s, run).notices, e.serial)
  {
    var s := After(lower, START, before);
    StartInv();
    RunKeepsInv(lower, START, before);
    WaitIsPaidFor(lower, s, run, e, at);
    LoadIsSmall(s, s.entries, e.serial);
  }

  // ---------------------------------------------------------------- the object

  class NotificationManager {
    const lower: Lower
    var muted: bool
    var arrivals: seq<Entry>
    var meta: map<nat, Meta>
    var escalated: set<nat>
    var critical: set<nat>
    /** The messages shown so far. */
    var shown: seq<Notice>
    var tracked: nat

    function View(): State
      reads this
    {
      State(muted, arrivals, meta, escalated, critical, shown, tracked)
    }

    constructor (lower: Lower)
      ensures View() == START && this.lower == lower
    {
      this.lower := lower;
      muted, arrivals, meta, escalated, critical, shown, tracked := false, [], map[], {}, {}, [], 0;
    }

    method SetMuted(on: bool)
      modifies this
      ensures View() == Next(lower, old(View()), DoMute(on))
    {
      muted := on;
    }

    method OnRequestPending(now: real, rid: nat, action: string, uid: int)
      modifies this
      ensures View() == Next(lower, old(View()), DoArrive(now, rid, action, uid))
    {
      if !Tracks(View(), rid) {
        arrivals := arrivals + [Entry(tracked, rid, now)];
        tracked := tracked + 1;
      }
      if rid !in meta && (action != "" || uid != 0) {
        meta := meta[rid := Meta(action, uid)];
      }
    }

    method Drop(gone: set<nat>)
      modifies this
      ensures View() == Forget(old(View()), gone)
    {
      arrivals := Keep(arrivals, gone);
      meta := meta - gone;
      escalated := escalated - gone;
      critical := critical - gone;
    }

    method OnRequestDecided(rid: nat)
      modifies this
      ensures View() == Next(lower, old(View()), DoDecided(rid))
    {
      Drop({rid});
    }

    method SyncPending(now: real, rids: seq<nat>, listed: seq<Listed>)
      modifies this
      ensures View() == Next(lower, old(View()), DoRefresh(now, rids, listed))
    {
      Drop(Rids(arrivals) - (set r | r in rids));
      ghost var s1 := View();
      for i := 0 to |rids|
        invariant View() == TrackAll(s1, now, rids[..i])
      {
        assert rids[..i + 1][..i] == rids[..i];
        if !Tracks(View(), rids[i]) {
          arrivals := arrivals + [Entry(tracked, rids[i], now)];
          tracked := tracked + 1;
        }
      }
      assert rids[..|rids|] == rids;
      ghost var s2 := View();
      for i := 0 to |listed|
        invariant View() == AddAllMeta(s2, listed[..i])
      {
        assert listed[..i + 1][..i] == listed[..i];
        var l := listed[i];
        if l.rid !in meta && (l.action != "" || l.uid != 0) {
          meta := meta[l.rid := Meta(l.action, l.uid)];
        }
      }
      assert listed[..|listed|] == listed;
    }

    /** The notice one entry is due, if any. */
    method Escalate(e: Entry, now: real) returns (sent: bool)
      modifies this
      ensures sent == Due(lower, old(View()), e, now).Some?
      ensures View() == if sent then Show(old(View()), e, Due(lower, old(View()), e, now).value) else old(View())
    {
      var elapsed := now - e.arrival;
      if elapsed >= CRITICAL_THRESHOLD && e.rid !in critical {
        critical := critical + {e.rid};
        escalated := escalated + {e.rid};
        shown := shown + [Notice(e.serial, e.rid, Critical)];
        return true;
      }
      if elapsed >= Threshold(lower, View(), e.rid) && e.rid !in escalated {
        escalated := escalated + {e.rid};
        shown := shown + [Notice(e.serial, e.rid, Reminder)];
        return true;
      }
      return false;
    }

    /** `_check_escalation`. */
    method CheckEscalation(now: real, windowActive: bool)
      modifies this
      ensures View() == Next(lower, old(View()), DoTick(now, windowActive))
    {
      if muted || windowActive {
        return;
      }
      var emitted := 0;
      var i := 0;
      while i < |arrivals|
        invariant 0 <= i <= |arrivals| && emitted <= MAX_PER_TICK
        invariant Scan(lower, View(), i, emitted, now) == Scan(lower, old(View()), 0, 0, now)
      {
        if emitted >= MAX_PER_TICK {
          break;
        }
        var sent := Escalate(arrivals[i], now);
        if sent {
          emitted := emitted + 1;
        }
        i := i + 1;
      }
    }
  }
}
