/** The persistent approval cache (broker/qdistro_admin_cache.py).

    A table is the sequence of its rows in insertion order.  SQLite gives a new row the id
    "largest id + 1", so ids grow along the sequence, and an id can come back after a delete.
    An absent argv and an empty argv behave alike everywhere in this file; both are `[]`. */
module Cache {
  import opened Options

  datatype MatchKind = ArgvExact | Prefix | Basename | ExeOnly | Always

  datatype Scope =
    | Once | Hour1 | Hour24 | Forever | ForeverExe
    | ForeverArgv | ForeverBasename | ForeverPrefix

  /** The `argv` text column: empty, an encoded argv, or a bare program name. */
  datatype Pattern = Blank | Tuple(args: seq<string>) | Program(name: string)

  datatype Row = Row(
    id: nat, uid: int, action: string, kind: MatchKind, value: string, pattern: Pattern,
    decision: bool, expires: Option<int>, created: int, approver: int, scope: Scope)

  /** `skipBlind` is the source's `delegated or sandboxed`. */
  datatype Query = Query(uid: int, action: string, exe: string, argv: seq<string>, skipBlind: bool)

  // ---------------------------------------------------------------- scopes

  function ScopeToRow(scope: Scope): Option<(MatchKind, Option<int>)> {
    match scope
    case Once => None
    case Hour1 => Some((ArgvExact, Some(3600)))
    case Hour24 => Some((ArgvExact, Some(86400)))
    case Forever => Some((Always, None))
    case ForeverExe => Some((ExeOnly, None))
    case ForeverArgv => Some((ArgvExact, None))
    case ForeverBasename => Some((Basename, None))
    case ForeverPrefix => Some((Prefix, None))
  }

  function Priority(kind: MatchKind): nat {
    match kind
    case ArgvExact => 0
    case Prefix => 1
    case Basename => 2
    case ExeOnly => 3
    case Always => 4
  }

  predicate ArgvBlind(kind: MatchKind) { kind.ExeOnly? || kind.Always? }

  /** The part of a path after its last slash. */
  function BaseName(path: string): string
    decreases |path|
  {
    if path == [] then []
    else if path[|path| - 1] == '/' then []
    else BaseName(path[..|path| - 1]) + [path[|path| - 1]]
  }

  /** `name` is the end of the path behind its last slash, or all of a path without one. */
  ghost predicate IsBaseName(path: string, name: string) {
    && '/' !in name && |name| <= |path| && path[|path| - |name|..] == name
    && (|name| == |path| || path[|path| - |name| - 1] == '/')
  }

  lemma EndGrows(path: string, last: char, name: string)
    requires IsBaseName(path, name) && last != '/'
    ensures IsBaseName(path + [last], name + [last])
  {
    var i := |path| - |name|;
    assert (path + [last])[i..] == path[i..] + [last];
  }

  lemma {:induction false} BaseNameEnds(path: string)
    ensures IsBaseName(path, BaseName(path))
  {
    if path != [] && path[|path| - 1] != '/' {
      var n := |path| - 1;
      BaseNameEnds(path[..n]);
      EndGrows(path[..n], path[n], BaseName(path[..n]));
      assert path == path[..n] + [path[n]];
    }
  }

  lemma OneBaseName(path: string, a: string, b: string)
    requires IsBaseName(path, a) && IsBaseName(path, b) && |a| <= |b|
    ensures a == b
  {
  }

  /** The basename is the one name that ends the path in this way. */
  lemma BaseNameIsTheEnd(path: string, name: string)
    ensures IsBaseName(path, name) <==> name == BaseName(path)
  {
    BaseNameEnds(path);
    if IsBaseName(path, name) {
      if |name| <= |BaseName(path)| {
        OneBaseName(path, name, BaseName(path));
      } else {
        OneBaseName(path, BaseName(path), name);
      }
    }
  }

  /** Whatever the directory, the basename of a file in it is the file's name. */
  lemma BaseNameOfFile(dir: string, name: string)
    requires '/' !in name
    ensures BaseName(dir + "/" + name) == name && BaseName(name) == name
  {
    var path := dir + "/" + name;
    assert path[|path| - |name|..] == name && path[|path| - |name| - 1] == '/';
    BaseNameIsTheEnd(path, name);
    BaseNameIsTheEnd(name, name);
  }

  function ArgvBasename(argv: seq<string>): string {
    if argv == [] then "" else BaseName(argv[0])
  }

  predicate MatchRow(row: Row, exe: string, argv: seq<string>) {
    if row.kind.Always? then true
    else if row.kind.ExeOnly? then row.value == exe
    else if argv == [] then false
    else if row.kind.ArgvExact? then row.value == exe && row.pattern == Tuple(argv)
    else if row.kind.Basename? then row.pattern == Program(ArgvBasename(argv))
    else row.pattern.Tuple? && row.pattern.args != [] && row.pattern.args <= argv
  }

  // ---------------------------------------------------------------- lookup

  predicate Live(row: Row, now: int) { row.expires.None? || row.expires.value > now }

  predicate Candidate(row: Row, q: Query, now: int) {
    && row.uid == q.uid && row.action == q.action
    && Live(row, now)
    && !(q.skipBlind && ArgvBlind(row.kind))
    && MatchRow(row, q.exe, q.argv)
  }

  /** `a` beats `b`: a more specific kind, or the same kind and a newer id. */
  predicate Beats(a: Row, b: Row) {
    Priority(a.kind) < Priority(b.kind) || (Priority(a.kind) == Priority(b.kind) && a.id > b.id)
  }

  function Choose(best: Option<Row>, row: Row, q: Query, now: int): Option<Row> {
    if Candidate(row, q, now) && (best.None? || Beats(row, best.value)) then Some(row) else best
  }

  /** The row the lookup loop ends with when it walks `rows` from the front. */
  function Lookup(rows: seq<Row>, q: Query, now: int): (r: Option<Row>)
    ensures r.Some? ==> r.value in rows && Candidate(r.value, q, now)
  {
    if rows == [] then None
    else Choose(Lookup(rows[..|rows| - 1], q, now), rows[|rows| - 1], q, now)
  }

  /** Ids grow along the table. */
  ghost predicate Ordered(rows: seq<Row>) {
    forall i, j :: 0 <= i < j < |rows| ==> rows[i].id < rows[j].id
  }

  ghost predicate DistinctIds(rows: seq<Row>) {
    forall i, j :: 0 <= i < j < |rows| ==> rows[i].id != rows[j].id
  }

  /** The declarative optimum: no candidate at all, or a candidate that beats every other one. */
  ghost predicate Optimal(rows: seq<Row>, q: Query, now: int, r: Option<Row>) {
    match r
    case None => forall x :: x in rows ==> !Candidate(x, q, now)
    case Some(b) =>
      && b in rows && Candidate(b, q, now)
      && forall x :: x in rows && Candidate(x, q, now) && x != b ==> Beats(b, x)
  }

  lemma LookupOptimal(rows: seq<Row>, q: Query, now: int)
    requires DistinctIds(rows)
    ensures Optimal(rows, q, now, Lookup(rows, q, now))
    ensures forall r :: Optimal(rows, q, now, r) ==> r == Lookup(rows, q, now)
  {
    LookupIsOptimal(rows, q, now);
    forall r | Optimal(rows, q, now, r) ensures r == Lookup(rows, q, now) {
      var l := Lookup(rows, q, now);
      if r.Some? && l.Some? && r != l {
        assert false;
      }
    }
  }

  lemma {:induction false} LookupIsOptimal(rows: seq<Row>, q: Query, now: int)
    requires DistinctIds(rows)
    ensures Optimal(rows, q, now, Lookup(rows, q, now))
  {
    if rows != [] {
      var n := |rows| - 1;
      var before, last := rows[..n], rows[n];
      LookupIsOptimal(before, q, now);
      assert forall x :: x in rows ==> x in before || x == last;
      assert forall x :: x in before ==> x in rows;
      forall x | x in before ensures x.id != last.id {
        var i :| 0 <= i < n && before[i] == x;
        assert rows[i] == x;
      }
    }
  }

  /** The optimum depends on which rows there are, not on the order a SELECT returns them in. */
  lemma LookupIgnoresRowOrder(a: seq<Row>, b: seq<Row>, q: Query, now: int)
    requires DistinctIds(a) && DistinctIds(b)
    requires forall x :: x in a <==> x in b
    ensures Lookup(a, q, now) == Lookup(b, q, now)
  {
    LookupOptimal(a, q, now);
    LookupOptimal(b, q, now);
    assert Optimal(a, q, now, Lookup(b, q, now));
  }

  function PinnedRows(rows: seq<Row>): seq<Row> {
    if rows == [] then []
    else
      var last := rows[|rows| - 1];
      PinnedRows(rows[..|rows| - 1]) + (if ArgvBlind(last.kind) then [] else [last])
  }

  lemma SkippingCandidates(row: Row, q: Query, now: int)
    requires q.skipBlind
    ensures Candidate(row, q, now) <==> !ArgvBlind(row.kind) && Candidate(row, q.(skipBlind := false), now)
    ensures q.argv == [] ==> !Candidate(row, q, now)
  {
  }

  /** A delegated or sandboxed lookup is the plain lookup on the table without its blind rows,
      and finds nothing at all when the caller shows no argv. */
  lemma {:induction false} LookupSkipsBlindRows(rows: seq<Row>, q: Query, now: int)
    requires q.skipBlind
    ensures Lookup(rows, q, now) == Lookup(PinnedRows(rows), q.(skipBlind := false), now)
    ensures q.argv == [] ==> Lookup(rows, q, now) == None
  {
    if rows != [] {
      var n := |rows| - 1;
      LookupSkipsBlindRows(rows[..n], q, now);
      SkippingCandidates(rows[n], q, now);
      var kept := PinnedRows(rows[..n]);
      if ArgvBlind(rows[n].kind) {
        assert PinnedRows(rows) == kept;
      } else {
        assert (kept + [rows[n]])[..|kept|] == kept;
      }
    }
  }

  // ---------------------------------------------------------------- store and deletes

  function NewId(rows: seq<Row>): nat {
    if rows == [] then 1 else rows[|rows| - 1].id + 1
  }

  /** What `store` is asked to remember. */
  datatype Grant = Grant(uid: int, action: string, exe: string, scope: Scope, decision: bool,
                         approver: int, argv: seq<string>)

  /** The match kind `store` settles on, or None when it writes nothing. */
  function StoredKind(scope: Scope, argv: seq<string>): Option<MatchKind> {
    match ScopeToRow(scope)
    case None => None
    case Some((kind, _)) =>
      if !ArgvBlind(kind) && argv == [] then
        if scope.Hour1? || scope.Hour24? then Some(ExeOnly) else None
      else Some(kind)
  }

  function RowFor(g: Grant, id: nat, now: int): (r: Row)
    requires StoredKind(g.scope, g.argv).Some?
    ensures r.id == id && r.uid == g.uid && r.action == g.action && r.decision == g.decision
    ensures r.created == now && r.approver == g.approver && r.scope == g.scope
  {
    var kind := StoredKind(g.scope, g.argv).value;
    var ttl := ScopeToRow(g.scope).value.1;
    Row(id, g.uid, g.action, kind,
        if kind.ArgvExact? || kind.ExeOnly? then g.exe else "",
        (match kind
         case ArgvExact => Tuple(g.argv)
         case Prefix => Tuple(g.argv)
         case Basename => Program(ArgvBasename(g.argv))
         case _ => Blank),
        g.decision,
        if ttl.Some? then Some(now + ttl.value) else None,
        now, g.approver, g.scope)
  }

  function Store(rows: seq<Row>, g: Grant, now: int): seq<Row> {
    if StoredKind(g.scope, g.argv).None? then rows else rows + [RowFor(g, NewId(rows), now)]
  }

  function WithoutId(rows: seq<Row>, id: nat): seq<Row> {
    if rows == [] then []
    else
      var last := rows[|rows| - 1];
      WithoutId(rows[..|rows| - 1], id) + (if last.id == id then [] else [last])
  }

  function WithoutUid(rows: seq<Row>, uid: int): seq<Row> {
    if rows == [] then []
    else
      var last := rows[|rows| - 1];
      WithoutUid(rows[..|rows| - 1], uid) + (if last.uid == uid then [] else [last])
  }

  function OfUid(rows: seq<Row>, uid: int): seq<Row> {
    if rows == [] then []
    else
      var last := rows[|rows| - 1];
      OfUid(rows[..|rows| - 1], uid) + (if last.uid == uid then [last] else [])
  }

  /** What a revoke removes and what it keeps are the whole table. */
  lemma {:induction false} UidSplits(rows: seq<Row>, uid: int)
    ensures |OfUid(rows, uid)| + |WithoutUid(rows, uid)| == |rows|
    ensures forall x :: x in OfUid(rows, uid) <==> x in rows && x.uid == uid
  {
    if rows != [] {
      var n := |rows| - 1;
      UidSplits(rows[..n], uid);
      assert forall x :: x in rows <==> x in rows[..n] || x == rows[n];
    }
  }

  /** The table after `gc` at time `now`. */
  function LiveRows(rows: seq<Row>, now: int): seq<Row> {
    if rows == [] then []
    else
      var last := rows[|rows| - 1];
      LiveRows(rows[..|rows| - 1], now) + (if Live(last, now) then [last] else [])
  }

  lemma {:induction false} DeletesKeepTheRest(rows: seq<Row>, id: nat, uid: int, now: int)
    ensures forall x :: x in WithoutId(rows, id) <==> x in rows && x.id != id
    ensures forall x :: x in WithoutUid(rows, uid) <==> x in rows && x.uid != uid
    ensures forall x :: x in LiveRows(rows, now) <==> x in rows && Live(x, now)
  {
    if rows != [] {
      var n := |rows| - 1;
      DeletesKeepTheRest(rows[..n], id, uid, now);
      assert forall x :: x in rows <==> x in rows[..n] || x == rows[n];
    }
  }

  lemma {:induction false} DeletesKeepOrder(rows: seq<Row>, id: nat, uid: int, now: int)
    requires Ordered(rows)
    ensures Ordered(WithoutId(rows, id)) && Ordered(WithoutUid(rows, uid))
    ensures Ordered(LiveRows(rows, now))
  {
    if rows != [] {
      var n := |rows| - 1;
      DeletesKeepOrder(rows[..n], id, uid, now);
      DeletesKeepTheRest(rows[..n], id, uid, now);
      assert forall x :: x in rows[..n] ==> x.id < rows[n].id;
      AppendKeepsOrder(WithoutId(rows[..n], id), rows[n]);
      AppendKeepsOrder(WithoutUid(rows[..n], uid), rows[n]);
      AppendKeepsOrder(LiveRows(rows[..n], now), rows[n]);
    }
  }

  lemma AppendKeepsOrder(rows: seq<Row>, row: Row)
    requires Ordered(rows) && forall x :: x in rows ==> x.id < row.id
    ensures Ordered(rows + [row])
  {
    var all := rows + [row];
    forall i, j | 0 <= i < j < |all| ensures all[i].id < all[j].id {
      assert all[i] in rows;
    }
  }

  lemma StoreKeepsOrder(rows: seq<Row>, g: Grant, now: int)
    requires Ordered(rows)
    ensures Ordered(Store(rows, g, now))
  {
    if StoredKind(g.scope, g.argv).Some? {
      AppendKeepsOrder(rows, RowFor(g, NewId(rows), now));
    }
  }

  // ---------------------------------------------------------------- what a grant means

  /** The approvals an administrator gives by choosing `scope` for a request that showed `exe0`
      and `argv0`, read off the scope's documentation and not off the stored row. */
  ghost predicate Admits(scope: Scope, exe0: string, argv0: seq<string>, exe: string, argv: seq<string>) {
    match scope
    case Once => false
    case Forever => true
    case ForeverExe => exe == exe0
    case ForeverArgv => argv0 != [] && exe == exe0 && argv == argv0
    case ForeverPrefix => argv0 != [] && |argv0| <= |argv| && argv[..|argv0|] == argv0
    case ForeverBasename =>
      argv0 != [] && argv != [] && exists name :: IsBaseName(argv0[0], name) && IsBaseName(argv[0], name)
    case _ => exe == exe0 && (argv0 == [] || argv == argv0)
  }

  /** The scope fixes something about the command line, given the argv that was captured. */
  ghost predicate PinsArgv(scope: Scope, argv0: seq<string>) {
    argv0 != [] && !scope.Once? && !scope.Forever? && !scope.ForeverExe?
  }

  /** How long a grant given at `given` holds. */
  ghost predicate Lasts(scope: Scope, given: int, at: int) {
    (scope.Hour1? ==> at - given < 3600) && (scope.Hour24? ==> at - given < 24 * 3600)
  }

  lemma RowLastsAsScope(g: Grant, id: nat, given: int, at: int)
    requires StoredKind(g.scope, g.argv).Some?
    ensures Live(RowFor(g, id, given), at) <==> Lasts(g.scope, given, at)
  {
  }

  /** A stored row matches exactly the requests its scope admits. */
  lemma RowMeansScope(g: Grant, id: nat, now: int, exe: string, argv: seq<string>)
    ensures StoredKind(g.scope, g.argv).Some? ==>
              (MatchRow(RowFor(g, id, now), exe, argv) <==> Admits(g.scope, g.exe, g.argv, exe, argv))
    ensures StoredKind(g.scope, g.argv).Some? ==>
              (ArgvBlind(RowFor(g, id, now).kind) <==> !PinsArgv(g.scope, g.argv))
    ensures StoredKind(g.scope, g.argv).None? ==> !Admits(g.scope, g.exe, g.argv, exe, argv)
  {
    if g.scope.ForeverPrefix? && g.argv != [] {
      assert g.argv <= argv <==> |g.argv| <= |argv| && argv[..|g.argv|] == g.argv;
    }
    if g.scope.ForeverBasename? && g.argv != [] && argv != [] {
      SameBaseName(g.argv[0], argv[0]);
    }
  }

  lemma SameBaseName(a: string, b: string)
    ensures BaseName(a) == BaseName(b) <==> exists name :: IsBaseName(a, name) && IsBaseName(b, name)
  {
    BaseNameEnds(a);
    BaseNameEnds(b);
    if exists name :: IsBaseName(a, name) && IsBaseName(b, name) {
      var name :| IsBaseName(a, name) && IsBaseName(b, name);
      BaseNameIsTheEnd(a, name);
      BaseNameIsTheEnd(b, name);
    }
  }

  /** Each kind in the lookup's order of precedence admits at most what the next one admits. */
  lemma ScopeLattice(exe0: string, argv0: seq<string>, exe: string, argv: seq<string>)
    ensures Admits(ForeverArgv, exe0, argv0, exe, argv) ==> Admits(ForeverPrefix, exe0, argv0, exe, argv)
    ensures Admits(ForeverPrefix, exe0, argv0, exe, argv) ==> Admits(ForeverBasename, exe0, argv0, exe, argv)
    ensures Admits(ForeverBasename, exe0, argv0, exe, argv) ==> Admits(Forever, exe0, argv0, exe, argv)
    ensures Admits(ForeverArgv, exe0, argv0, exe, argv) ==> Admits(ForeverExe, exe0, argv0, exe, argv)
    ensures Admits(ForeverExe, exe0, argv0, exe, argv) ==> Admits(Forever, exe0, argv0, exe, argv)
  {
    if Admits(ForeverPrefix, exe0, argv0, exe, argv) {
      assert argv[0] == argv[..|argv0|][0];
      BaseNameEnds(argv[0]);
    }
  }

  /** The scope that admits what rows of this kind match. */
  function ScopeOf(kind: MatchKind): Scope {
    match kind
    case ArgvExact => ForeverArgv
    case Prefix => ForeverPrefix
    case Basename => ForeverBasename
    case ExeOnly => ForeverExe
    case Always => Forever
  }

  /** Approvals of kind `a` admit only what approvals of kind `b` for the same request admit. */
  ghost predicate Narrower(a: MatchKind, b: MatchKind) {
    a != b && forall exe0, argv0, exe, argv ::
        Admits(ScopeOf(a), exe0, argv0, exe, argv) ==> Admits(ScopeOf(b), exe0, argv0, exe, argv)
  }

  lemma NarrowerKinds()
    ensures Narrower(ArgvExact, Prefix) && Narrower(Prefix, Basename) && Narrower(Basename, Always)
    ensures Narrower(ArgvExact, ExeOnly) && Narrower(ExeOnly, Always)
  {
    forall exe0, argv0, exe, argv ensures Admits(ForeverPrefix, exe0, argv0, exe, argv) ==>
          Admits(ForeverBasename, exe0, argv0, exe, argv)
    {
      ScopeLattice(exe0, argv0, exe, argv);
    }
  }

  lemma NotNarrower(a: MatchKind, b: MatchKind, argv0: seq<string>, exe: string, argv: seq<string>)
    requires Admits(ScopeOf(a), "", argv0, exe, argv) && !Admits(ScopeOf(b), "", argv0, exe, argv)
    ensures !Narrower(a, b)
  {
  }

  lemma BasenameIsWider(b: MatchKind, argv0: seq<string>, argv: seq<string>)
    requires (b.ArgvExact? || b.Prefix?) && 0 < |argv| < |argv0| && argv[0] == argv0[0]
    ensures !Narrower(Basename, b)
  {
    BaseNameEnds(argv[0]);
    NotNarrower(Basename, b, argv0, "", argv);
  }

  /** A kind that comes later in the lookup's order is not narrower; `x` and `y` are any two arguments. */
  lemma LaterIsNotNarrower(a: MatchKind, b: MatchKind, x: string, y: string)
    requires Priority(b) < Priority(a)
    ensures !Narrower(a, b)
  {
    if a.Prefix? {
      assert [x, y][..1] == [x];
      NotNarrower(a, b, [x], "", [x, y]);
    } else if a.Basename? {
      BasenameIsWider(b, [x, y], [x]);
    } else {
      NotNarrower(a, b, [x], if a.Always? then "/" else "", []);
    }
  }

  /** A lookup never passes over a matching row for one of a wider kind, nor for an older one of the same kind. */
  lemma NarrowerGoesFirst(rows: seq<Row>, q: Query, now: int, x: Row)
    requires DistinctIds(rows) && x in rows && Candidate(x, q, now)
    ensures var best := Lookup(rows, q, now);
            best.Some? && !Narrower(x.kind, best.value.kind) && (x.kind == best.value.kind ==> x.id <= best.value.id)
  {
    LookupIsOptimal(rows, q, now);
    var best := Lookup(rows, q, now).value;
    if x != best && Priority(best.kind) < Priority(x.kind) {
      LaterIsNotNarrower(x.kind, best.kind, "", "");
    }
  }

  // ---------------------------------------------------------------- garbage collection

  /** One operation of a cache session.  `Collect` is `gc`. */
  datatype Op =
    | Put(grant: Grant)
    | RevokeUid(uid: int)
    | Ask(query: Query)
    | Collect

  datatype TimedOp = TimedOp(at: int, op: Op)

  function ApplyOp(rows: seq<Row>, t: TimedOp): seq<Row> {
    match t.op
    case Put(g) => Store(rows, g, t.at)
    case RevokeUid(uid) => WithoutUid(rows, uid)
    case Ask(_) => rows
    case Collect => LiveRows(rows, t.at)
  }

  function Contents(rows: seq<Row>): (r: seq<Row>)
    ensures |r| == |rows|
  {
    seq(|rows|, i requires 0 <= i < |rows| => rows[i].(id := 0))
  }

  /** How many unexpired rows are older than this one: its name up to a renaming of the ids
      that keeps their order. */
  function Rank(rows: seq<Row>, row: Row): nat {
    if rows == [] then 0
    else Rank(rows[..|rows| - 1], row) + (if rows[|rows| - 1].id < row.id then 1 else 0)
  }

  datatype LookupAnswer = Miss | Hit(content: Row, rank: nat)

  function AnswerOf(rows: seq<Row>, q: Query, now: int): LookupAnswer {
    match Lookup(rows, q, now)
    case None => Miss
    case Some(r) => Hit(r.(id := 0), Rank(LiveRows(rows, now), r))
  }

  function Answers(rows: seq<Row>, ops: seq<TimedOp>): seq<LookupAnswer>
    decreases |ops|
  {
    if ops == [] then []
    else
      (if ops[0].op.Ask? then [AnswerOf(rows, ops[0].op.query, ops[0].at)] else [])
      + Answers(ApplyOp(rows, ops[0]), ops[1..])
  }

  function WithoutCollect(ops: seq<TimedOp>): seq<TimedOp> {
    if ops == [] then []
    else (if ops[0].op.Collect? then [] else [ops[0]]) + WithoutCollect(ops[1..])
  }

  ghost predicate ClockGrows(from: int, ops: seq<TimedOp>)
    decreases |ops|
  {
    ops != [] ==> from <= ops[0].at && ClockGrows(ops[0].at, ops[1..])
  }

  /** The simulation: both tables are ordered and hold the same unexpired contents. */
  ghost predicate Similar(a: seq<Row>, b: seq<Row>, now: int) {
    Ordered(a) && Ordered(b) && Contents(LiveRows(a, now)) == Contents(LiveRows(b, now))
  }

  lemma {:induction false} LiveTwice(rows: seq<Row>, t: int, u: int)
    requires t <= u
    ensures LiveRows(LiveRows(rows, t), u) == LiveRows(rows, u)
  {
    if rows != [] {
      var n := |rows| - 1;
      LiveTwice(rows[..n], t, u);
      var kept := LiveRows(rows[..n], t);
      if Live(rows[n], t) {
        assert (kept + [rows[n]])[..|kept|] == kept;
      } else {
        assert LiveRows(rows, t) == kept;
      }
    }
  }

  lemma {:induction false} LiveDependsOnContents(a: seq<Row>, b: seq<Row>, now: int)
    requires Contents(a) == Contents(b)
    ensures Contents(LiveRows(a, now)) == Contents(LiveRows(b, now))
  {
    if a != [] {
      var n := |a| - 1;
      assert |b| == n + 1;
      assert Contents(a[..n]) == Contents(a)[..n] == Contents(b)[..n] == Contents(b[..n]);
      LiveDependsOnContents(a[..n], b[..n], now);
      assert a[n].(id := 0) == Contents(a)[n] == Contents(b)[n] == b[n].(id := 0);
      ContentsOfAppend(LiveRows(a[..n], now), a[n]);
      ContentsOfAppend(LiveRows(b[..n], now), b[n]);
    }
  }

  lemma ContentsOfAppend(rows: seq<Row>, row: Row)
    ensures Contents(rows + [row]) == Contents(rows) + [row.(id := 0)]
    ensures rows + [] == rows
  {
  }

  lemma SimilarLater(a: seq<Row>, b: seq<Row>, t: int, u: int)
    requires Similar(a, b, t) && t <= u
    ensures Similar(a, b, u)
  {
    LiveTwice(a, t, u);
    LiveTwice(b, t, u);
    LiveDependsOnContents(LiveRows(a, t), LiveRows(b, t), u);
  }

  lemma SimilarAfterCollect(a: seq<Row>, b: seq<Row>, now: int)
    requires Similar(a, b, now)
    ensures Similar(LiveRows(a, now), b, now)
  {
    LiveTwice(a, now, now);
    DeletesKeepOrder(a, 0, 0, now);
  }

  lemma SimilarAfterPut(a: seq<Row>, b: seq<Row>, g: Grant, now: int)
    requires Similar(a, b, now)
    ensures Similar(Store(a, g, now), Store(b, g, now), now)
  {
    StoreKeepsOrder(a, g, now);
    StoreKeepsOrder(b, g, now);
    if StoredKind(g.scope, g.argv).Some? {
      var x, y := RowFor(g, NewId(a), now), RowFor(g, NewId(b), now);
      LiveRowsOfAppend(a, x, now);
      LiveRowsOfAppend(b, y, now);
      ContentsOfAppend(LiveRows(a, now), x);
      ContentsOfAppend(LiveRows(b, now), y);
    }
  }

  lemma LiveRowsOfAppend(rows: seq<Row>, row: Row, now: int)
    ensures LiveRows(rows + [row], now) == LiveRows(rows, now) + (if Live(row, now) then [row] else [])
  {
    assert (rows + [row])[..|rows|] == rows;
  }

  lemma WithoutUidOfAppend(rows: seq<Row>, row: Row, uid: int)
    ensures WithoutUid(rows + [row], uid) == WithoutUid(rows, uid) + (if row.uid == uid then [] else [row])
  {
    assert (rows + [row])[..|rows|] == rows;
  }

  lemma {:induction false} LiveWithoutUid(rows: seq<Row>, uid: int, now: int)
    ensures LiveRows(WithoutUid(rows, uid), now) == WithoutUid(LiveRows(rows, now), uid)
  {
    if rows != [] {
      var n := |rows| - 1;
      var before, last := rows[..n], rows[n];
      LiveWithoutUid(before, uid, now);
      LiveWithoutUidStep(WithoutUid(before, uid), LiveRows(before, now), last, uid, now);
    }
  }

  lemma LiveWithoutUidStep(kept: seq<Row>, live: seq<Row>, last: Row, uid: int, now: int)
    requires LiveRows(kept, now) == WithoutUid(live, uid)
    ensures LiveRows(kept + (if last.uid == uid then [] else [last]), now)
              == WithoutUid(live + (if Live(last, now) then [last] else []), uid)
  {
    LiveRowsOfAppend(kept, last, now);
    WithoutUidOfAppend(live, last, uid);
    assert kept + [] == kept && live + [] == live;
  }

  lemma {:induction false} WithoutUidDependsOnContents(a: seq<Row>, b: seq<Row>, uid: int)
    requires Contents(a) == Contents(b)
    ensures Contents(WithoutUid(a, uid)) == Contents(WithoutUid(b, uid))
  {
    if a != [] {
      var n := |a| - 1;
      assert |b| == n + 1;
      assert Contents(a[..n]) == Contents(a)[..n] == Contents(b)[..n] == Contents(b[..n]);
      WithoutUidDependsOnContents(a[..n], b[..n], uid);
      assert a[n].(id := 0) == Contents(a)[n] == Contents(b)[n] == b[n].(id := 0);
      ContentsOfAppend(WithoutUid(a[..n], uid), a[n]);
      ContentsOfAppend(WithoutUid(b[..n], uid), b[n]);
    }
  }

  lemma SimilarAfterRevoke(a: seq<Row>, b: seq<Row>, uid: int, now: int)
    requires Similar(a, b, now)
    ensures Similar(WithoutUid(a, uid), WithoutUid(b, uid), now)
  {
    LiveWithoutUid(a, uid, now);
    LiveWithoutUid(b, uid, now);
    DeletesKeepOrder(a, 0, uid, now);
    DeletesKeepOrder(b, 0, uid, now);
    WithoutUidDependsOnContents(LiveRows(a, now), LiveRows(b, now), uid);
  }

  lemma {:induction false} LookupSeesLiveRowsOnly(rows: seq<Row>, q: Query, now: int)
    ensures Lookup(rows, q, now) == Lookup(LiveRows(rows, now), q, now)
  {
    if rows != [] {
      var n := |rows| - 1;
      LookupSeesLiveRowsOnly(rows[..n], q, now);
      var live := LiveRows(rows[..n], now);
      if Live(rows[n], now) {
        assert (live + [rows[n]])[..|live|] == live;
      } else {
        assert LiveRows(rows, now) == live;
      }
    }
  }

  ghost predicate AtSamePosition(a: seq<Row>, b: seq<Row>, x: Option<Row>, y: Option<Row>, p: int) {
    if p < 0 then x.None? && y.None?
    else p < |a| && p < |b| && x == Some(a[p]) && y == Some(b[p])
  }

  /** Ordered tables with equal contents give the row at one and the same position. */
  lemma {:induction false} LookupDependsOnContents(a: seq<Row>, b: seq<Row>, q: Query, now: int) returns (p: int)
    requires Ordered(a) && Ordered(b) && Contents(a) == Contents(b)
    ensures AtSamePosition(a, b, Lookup(a, q, now), Lookup(b, q, now), p)
  {
    p := -1;
    if a != [] {
      var n := |a| - 1;
      assert |b| == n + 1;
      assert Contents(a[..n]) == Contents(a)[..n] == Contents(b)[..n] == Contents(b[..n]);
      p := LookupDependsOnContents(a[..n], b[..n], q, now);
      if p >= 0 {
        EqualAt(a, b, p);
      }
      EqualAt(a, b, n);
      CandidateIgnoresId(a[n], b[n], q, now);
      var x := Lookup(a[..n], q, now);
      if Candidate(a[n], q, now) && (x.None? || Beats(a[n], x.value)) {
        p := n;
      }
    }
  }

  lemma EqualAt(a: seq<Row>, b: seq<Row>, i: nat)
    requires Contents(a) == Contents(b) && i < |a|
    ensures i < |b| && a[i].(id := 0) == b[i].(id := 0)
    ensures a[i].kind == b[i].kind
  {
    assert Contents(a)[i] == a[i].(id := 0) && Contents(b)[i] == b[i].(id := 0);
    assert a[i].(id := 0).kind == b[i].(id := 0).kind;
  }

  lemma CandidateIgnoresId(x: Row, y: Row, q: Query, now: int)
    requires x.(id := 0) == y.(id := 0)
    ensures Candidate(x, q, now) == Candidate(y, q, now)
  {
    assert y == x.(id := y.id);
  }

  lemma {:induction false} RankIsPosition(rows: seq<Row>, p: nat)
    requires Ordered(rows) && p < |rows|
    ensures Rank(rows, rows[p]) == p
  {
    var n := |rows| - 1;
    if p < n {
      RankIsPosition(rows[..n], p);
    } else {
      RankOfNewest(rows[..n], rows[n]);
    }
  }

  lemma {:induction false} RankOfNewest(rows: seq<Row>, row: Row)
    requires forall x :: x in rows ==> x.id < row.id
    ensures Rank(rows, row) == |rows|
  {
    if rows != [] {
      RankOfNewest(rows[..|rows| - 1], row);
    }
  }

  lemma SimilarAnswers(a: seq<Row>, b: seq<Row>, q: Query, now: int)
    requires Similar(a, b, now)
    ensures AnswerOf(a, q, now) == AnswerOf(b, q, now)
  {
    var la, lb := LiveRows(a, now), LiveRows(b, now);
    DeletesKeepOrder(a, 0, 0, now);
    DeletesKeepOrder(b, 0, 0, now);
    LookupSeesLiveRowsOnly(a, q, now);
    LookupSeesLiveRowsOnly(b, q, now);
    var p := LookupDependsOnContents(la, lb, q, now);
    if p >= 0 {
      RankIsPosition(la, p);
      RankIsPosition(lb, p);
      EqualAt(la, lb, p);
    }
  }

  /** Garbage collection is unobservable: whatever collections a session contains, every lookup
      answers as it does in the session with all of them removed. */
  lemma {:induction false} CollectIsUnobservable(a: seq<Row>, b: seq<Row>, now: int, ops: seq<TimedOp>)
    requires Similar(a, b, now) && ClockGrows(now, ops)
    ensures Answers(a, ops) == Answers(b, WithoutCollect(ops))
    decreases |ops|
  {
    if ops != [] {
      var t, rest := ops[0], WithoutCollect(ops[1..]);
      SimilarLater(a, b, now, t.at);
      match t.op {
        case Put(g) => SimilarAfterPut(a, b, g, t.at);
        case RevokeUid(uid) => SimilarAfterRevoke(a, b, uid, t.at);
        case Ask(q) => SimilarAnswers(a, b, q, t.at);
        case Collect => SimilarAfterCollect(a, b, t.at);
      }
      if t.op.Collect? {
        assert [] + rest == rest;
        CollectIsUnobservable(ApplyOp(a, t), b, t.at, ops[1..]);
      } else {
        assert ([t] + rest)[0] == t && ([t] + rest)[1..] == rest;
        CollectIsUnobservable(ApplyOp(a, t), ApplyOp(b, t), t.at, ops[1..]);
      }
    }
  }

  /** Two sessions that differ only in their collections answer alike, from any ordered table. */
  lemma SessionsDifferingInCollects(rows: seq<Row>, now: int, ops1: seq<TimedOp>, ops2: seq<TimedOp>)
    requires Ordered(rows) && ClockGrows(now, ops1) && ClockGrows(now, ops2)
    requires WithoutCollect(ops1) == WithoutCollect(ops2)
    ensures Answers(rows, ops1) == Answers(rows, ops2)
  {
    CollectIsUnobservable(rows, rows, now, ops1);
    CollectIsUnobservable(rows, rows, now, ops2);
  }

  // ---------------------------------------------------------------- the object

  class ApprovalCache {
    var rows: seq<Row>

    ghost predicate Valid() reads this { Ordered(rows) }

    constructor ()
      ensures Valid() && rows == []
    {
      rows := [];
    }

    /** The row loop of `lookup_detail`. */
    method LookupDetail(q: Query, now: int) returns (best: Option<Row>)
      requires Valid()
      ensures best == Lookup(rows, q, now)
      ensures Optimal(rows, q, now, best)
    {
      best := None;
      var bestPriority := 6;
      for i := 0 to |rows|
        invariant best == Lookup(rows[..i], q, now)
        invariant bestPriority == if best.None? then 6 else Priority(best.value.kind)
      {
        var row := rows[i];
        assert rows[..i + 1][..i] == rows[..i];
        if !(row.uid == q.uid && row.action == q.action && Live(row, now)) {
          continue;
        }
        if q.skipBlind && ArgvBlind(row.kind) {
          continue;
        }
        if !MatchRow(row, q.exe, q.argv) {
          continue;
        }
        var p := Priority(row.kind);
        if p < bestPriority || (p == bestPriority && (best.None? || row.id > best.value.id)) {
          best := Some(row);
          bestPriority := p;
        }
      }
      assert rows[..|rows|] == rows;
      LookupOptimal(rows, q, now);
    }

    method Decide(q: Query, now: int) returns (answer: Option<bool>)
      requires Valid()
      ensures answer.None? <==> forall x :: x in rows ==> !Candidate(x, q, now)
      ensures answer.Some? ==> exists b :: Optimal(rows, q, now, Some(b)) && answer.value == b.decision
    {
      var hit := LookupDetail(q, now);
      answer := if hit.None? then None else Some(hit.value.decision);
    }

    method Remember(g: Grant, now: int) returns (wrote: bool)
      requires Valid()
      modifies this
      ensures Valid()
      ensures wrote == StoredKind(g.scope, g.argv).Some?
      ensures rows == Store(old(rows), g, now)
    {
      StoreKeepsOrder(rows, g, now);
      wrote := false;
      var mapped := ScopeToRow(g.scope);
      if mapped.None? {
        return;
      }
      var kind := mapped.value.0;
      if !ArgvBlind(kind) && g.argv == [] {
        if g.scope.Hour1? || g.scope.Hour24? {
          kind := ExeOnly;
        } else {
          return;
        }
      }
      var pattern, value;
      match kind {
        case ArgvExact => pattern, value := Tuple(g.argv), g.exe;
        case Basename => pattern, value := Program(ArgvBasename(g.argv)), "";
        case Prefix => pattern, value := Tuple(g.argv), "";
        case ExeOnly => pattern, value := Blank, g.exe;
        case Always => pattern, value := Blank, "";
      }
      var ttl := mapped.value.1;
      var expires := if ttl.Some? then Some(now + ttl.value) else None;
      rows := rows + [Row(NewId(rows), g.uid, g.action, kind, value, pattern, g.decision, expires, now,
                          g.approver, g.scope)];
      wrote := true;
    }

    method DeleteById(id: nat) returns (gone: Option<Row>)
      requires Valid()
      modifies this
      ensures Valid() && rows == WithoutId(old(rows), id)
      ensures gone.None? ==> forall x :: x in old(rows) ==> x.id != id
      ensures gone.Some? ==> gone.value in old(rows) && gone.value.id == id
    {
      DeletesKeepOrder(rows, id, 0, 0);
      gone := None;
      for i := 0 to |rows|
        invariant gone.None? ==> forall x :: x in rows[..i] ==> x.id != id
        invariant gone.Some? ==> gone.value in rows && gone.value.id == id
      {
        if rows[i].id == id {
          gone := Some(rows[i]);
        }
      }
      rows := WithoutId(rows, id);
    }

    method DeleteByUid(uid: int) returns (gone: seq<Row>)
      requires Valid()
      modifies this
      ensures Valid() && rows == WithoutUid(old(rows), uid)
      ensures gone == OfUid(old(rows), uid) && |gone| == |old(rows)| - |rows|
    {
      DeletesKeepOrder(rows, 0, uid, 0);
      UidSplits(rows, uid);
      gone := [];
      for i := 0 to |rows|
        invariant gone == OfUid(rows[..i], uid)
      {
        assert rows[..i + 1][..i] == rows[..i];
        if rows[i].uid == uid {
          gone := gone + [rows[i]];
        }
      }
      assert rows[..|rows|] == rows;
      rows := WithoutUid(rows, uid);
    }

    method Gc(now: int) returns (deleted: nat)
      requires Valid()
      modifies this
      ensures Valid() && rows == LiveRows(old(rows), now)
      ensures deleted == |old(rows)| - |rows|
    {
      DeletesKeepOrder(rows, 0, 0, now);
      LiveRowsShrinks(rows, now);
      var kept := LiveRows(rows, now);
      deleted := |rows| - |kept|;
      rows := kept;
    }
  }

  lemma {:induction false} LiveRowsShrinks(rows: seq<Row>, now: int)
    ensures |LiveRows(rows, now)| <= |rows|
  {
    if rows != [] {
      LiveRowsShrinks(rows[..|rows| - 1], now);
    }
  }
}
