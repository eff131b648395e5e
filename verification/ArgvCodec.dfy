/** How an argv travels in a request's details (broker/qdistro_admin_broker.py, qsu/qdistro_root_exec.py).

    A details map is the sequence of its entries in insertion order; its keys are distinct.  What counts as a
    printable character and as a decimal digit is Unicode's business and comes in as a parameter. */
module ArgvCodec {
  import opened Options

  const MAX_KEYS := 32
  const MAX_KEY := 64
  const MAX_VALUE := 1024
  const MAX_INDEX := 1024

  datatype Entry = Entry(key: string, value: string)

  datatype Unicode = Unicode(printable: char -> bool, digit: char -> Option<nat>) {
    /** Digits have values below ten, and the ASCII digits their usual ones. */
    ghost predicate Valid() {
      && (forall c :: digit(c).Some? ==> digit(c).value < 10)
      && (forall d :: 0 <= d < 10 ==> digit(DigitChar(d)) == Some(d))
    }
  }

  function DigitChar(d: nat): char
    requires d < 10
  {
    '0' + d as char
  }

  ghost predicate DistinctKeys(details: seq<Entry>) {
    forall i, j :: 0 <= i < j < |details| ==> details[i].key != details[j].key
  }

  // ---------------------------------------------------------------- sanitising

  predicate Shown(u: Unicode, c: char) { c == '\t' || c == ' ' || u.printable(c) }

  function Scrub(u: Unicode, s: string): string {
    if s == [] then [] else Scrub(u, s[..|s| - 1]) + (if Shown(u, s[|s| - 1]) then [s[|s| - 1]] else [])
  }

  function Cut(s: string, n: nat): string { if |s| <= n then s else s[..n] }

  /** Where a key is. */
  function Position(details: seq<Entry>, key: string): (r: Option<nat>)
    ensures r.Some? ==> r.value < |details| && details[r.value].key == key
    ensures r.None? ==> forall i :: 0 <= i < |details| ==> details[i].key != key
  {
    if details == [] then None
    else if details[|details| - 1].key == key then Some(|details| - 1)
    else Position(details[..|details| - 1], key)
  }

  /** Assignment to a key: an existing entry keeps its place. */
  function Put(details: seq<Entry>, key: string, value: string): seq<Entry> {
    match Position(details, key)
    case Some(i) => details[i := Entry(key, value)]
    case None => details + [Entry(key, value)]
  }

  function SanitizeEntry(u: Unicode, out: seq<Entry>, e: Entry): seq<Entry> {
    var key := Cut(Scrub(u, e.key), MAX_KEY);
    if |out| >= MAX_KEYS || key == [] then out else Put(out, key, Cut(Scrub(u, e.value), MAX_VALUE))
  }

  /** The sanitised copy; once it is full nothing more is taken. */
  function Sanitize(u: Unicode, raw: seq<Entry>): seq<Entry> {
    if raw == [] then [] else SanitizeEntry(u, Sanitize(u, raw[..|raw| - 1]), raw[|raw| - 1])
  }

  /** `_sanitize_details`. */
  method SanitizeDetails(u: Unicode, raw: seq<Entry>) returns (out: seq<Entry>)
    ensures out == Sanitize(u, raw)
    ensures CleanDetails(u, out)
  {
    out := [];
    var i := 0;
    while i < |raw|
      invariant 0 <= i <= |raw| && out == Sanitize(u, raw[..i])
    {
      if |out| >= MAX_KEYS {
        FullStaysFull(u, raw, i, |raw|);
        break;
      }
      assert raw[..i + 1][..i] == raw[..i];
      var key := Cut(Scrub(u, raw[i].key), MAX_KEY);
      var value := Cut(Scrub(u, raw[i].value), MAX_VALUE);
      if key != [] {
        out := Put(out, key, value);
      }
      i := i + 1;
    }
    assert raw[..|raw|] == raw;
    SanitizedIsClean(u, raw);
  }

  lemma {:induction false} FullStaysFull(u: Unicode, raw: seq<Entry>, i: nat, j: nat)
    requires i <= j <= |raw| && |Sanitize(u, raw[..i])| >= MAX_KEYS
    ensures Sanitize(u, raw[..j]) == Sanitize(u, raw[..i])
  {
    if i < j {
      FullStaysFull(u, raw, i, j - 1);
      assert raw[..j][..j - 1] == raw[..j - 1];
    }
  }

  ghost predicate Clean(u: Unicode, s: string, most: nat) {
    |s| <= most && forall i :: 0 <= i < |s| ==> Shown(u, s[i])
  }

  ghost predicate CleanEntry(u: Unicode, e: Entry) {
    Clean(u, e.key, MAX_KEY) && e.key != [] && Clean(u, e.value, MAX_VALUE)
  }

  /** What the broker stores and shows: few, short, printable, distinct entries. */
  ghost predicate CleanDetails(u: Unicode, details: seq<Entry>) {
    && |details| <= MAX_KEYS && DistinctKeys(details)
    && forall i :: 0 <= i < |details| ==> CleanEntry(u, details[i])
  }

  lemma {:induction false} ScrubLeavesShown(u: Unicode, s: string)
    ensures forall i :: 0 <= i < |Scrub(u, s)| ==> Shown(u, Scrub(u, s)[i])
    ensures (forall i :: 0 <= i < |s| ==> Shown(u, s[i])) ==> Scrub(u, s) == s
  {
    if s != [] {
      ScrubLeavesShown(u, s[..|s| - 1]);
    }
  }

  lemma PutKeepsKeys(details: seq<Entry>, key: string, value: string)
    requires DistinctKeys(details)
    ensures DistinctKeys(Put(details, key, value)) && |Put(details, key, value)| <= |details| + 1
    ensures forall i :: 0 <= i < |Put(details, key, value)| ==>
              Put(details, key, value)[i] == Entry(key, value) || Put(details, key, value)[i] in details
  {
  }

  lemma {:induction false} SanitizedIsClean(u: Unicode, raw: seq<Entry>)
    ensures CleanDetails(u, Sanitize(u, raw))
  {
    if raw != [] {
      var out, e := Sanitize(u, raw[..|raw| - 1]), raw[|raw| - 1];
      SanitizedIsClean(u, raw[..|raw| - 1]);
      var key, value := Cut(Scrub(u, e.key), MAX_KEY), Cut(Scrub(u, e.value), MAX_VALUE);
      if |out| < MAX_KEYS && key != [] {
        ScrubLeavesShown(u, e.key);
        ScrubLeavesShown(u, e.value);
        PutKeepsKeys(out, key, value);
        var r := Put(out, key, value);
        forall i | 0 <= i < |r| ensures CleanEntry(u, r[i]) {
          assert r[i] == Entry(key, value) || r[i] in out;
        }
      }
    }
  }

  lemma PrefixIsClean(u: Unicode, details: seq<Entry>, n: nat)
    requires CleanDetails(u, details) && n < |details|
    ensures CleanDetails(u, details[..n]) && details[..n + 1] == details[..n] + [details[n]]
    ensures CleanEntry(u, details[n]) && forall i :: 0 <= i < n ==> details[i].key != details[n].key
  {
  }

  lemma SanitizeStep(u: Unicode, before: seq<Entry>, e: Entry)
    requires Sanitize(u, before) == before && |before| < MAX_KEYS
    requires CleanEntry(u, e) && forall i :: 0 <= i < |before| ==> before[i].key != e.key
    ensures Sanitize(u, before + [e]) == before + [e]
  {
    assert (before + [e])[..|before|] == before;
    CleanEntryIsAppended(u, before, e);
  }

  lemma CleanEntryIsAppended(u: Unicode, out: seq<Entry>, e: Entry)
    requires CleanEntry(u, e) && |out| < MAX_KEYS && forall i :: 0 <= i < |out| ==> out[i].key != e.key
    ensures SanitizeEntry(u, out, e) == out + [e]
  {
    ScrubLeavesShown(u, e.key);
    ScrubLeavesShown(u, e.value);
  }

  /** Clean details pass unchanged. */
  lemma {:induction false} CleanPassesUnchanged(u: Unicode, details: seq<Entry>)
    requires CleanDetails(u, details)
    ensures Sanitize(u, details) == details
  {
    if details != [] {
      var n := |details| - 1;
      PrefixIsClean(u, details, n);
      CleanPassesUnchanged(u, details[..n]);
      SanitizeStep(u, details[..n], details[n]);
    }
  }

  lemma SanitizeTwiceIsOnce(u: Unicode, raw: seq<Entry>)
    ensures Sanitize(u, Sanitize(u, raw)) == Sanitize(u, raw)
  {
    SanitizedIsClean(u, raw);
    CleanPassesUnchanged(u, Sanitize(u, raw));
  }

  // ---------------------------------------------------------------- argv keys

  /** Decimal notation. */
  function Decimal(n: nat): string {
    if n < 10 then [DigitChar(n)] else Decimal(n / 10) + [DigitChar(n % 10)]
  }

  /** The key of argv element `i`: its index in at least two digits. */
  function ArgvKey(i: nat): string {
    "argv[" + (if i < 10 then "0" + Decimal(i) else Decimal(i)) + "]"
  }

  predicate AllDigits(u: Unicode, s: string) { forall i :: 0 <= i < |s| ==> u.digit(s[i]).Some? }

  function NumberOf(u: Unicode, s: string): nat
    requires AllDigits(u, s)
  {
    if s == [] then 0 else 10 * NumberOf(u, s[..|s| - 1]) + u.digit(s[|s| - 1]).value
  }

  /** The index an argv key names: two to four digits, at most 1024. */
  function KeyIndex(u: Unicode, key: string): Option<nat> {
    if 8 <= |key| <= 10 && key[..5] == "argv[" && key[|key| - 1] == ']' && AllDigits(u, key[5..|key| - 1]) then
      var i := NumberOf(u, key[5..|key| - 1]);
      if i > MAX_INDEX then None else Some(i)
    else None
  }

  lemma {:induction false} DecimalReadsBack(u: Unicode, n: nat)
    requires u.Valid()
    ensures AllDigits(u, Decimal(n)) && NumberOf(u, Decimal(n)) == n
    ensures n < 10 ==> |Decimal(n)| == 1
    ensures 10 <= n < 100 ==> |Decimal(n)| == 2
    ensures 100 <= n < 1000 ==> |Decimal(n)| == 3
    ensures 1000 <= n < 10000 ==> |Decimal(n)| == 4
  {
    if n < 10 {
      assert Decimal(n)[..0] == [];
    } else {
      DecimalReadsBack(u, n / 10);
      var s := Decimal(n);
      assert s[..|s| - 1] == Decimal(n / 10);
    }
  }

  /** Each argv key names its own index. */
  lemma ArgvKeyReadsBack(u: Unicode, i: nat)
    requires u.Valid() && i <= MAX_INDEX
    ensures KeyIndex(u, ArgvKey(i)) == Some(i)
  {
    DecimalReadsBack(u, i);
    var digits := if i < 10 then "0" + Decimal(i) else Decimal(i);
    var key := ArgvKey(i);
    assert key[5..|key| - 1] == digits && key[..5] == "argv[";
    if i < 10 {
      assert digits[..1] == ['0'] && digits == ['0', DigitChar(i)];
      assert digits[..1][..0] == [];
      assert DigitChar(0) == '0';
      assert NumberOf(u, digits) == 10 * NumberOf(u, digits[..1]) + i;
    }
  }

  // ---------------------------------------------------------------- decoding

  datatype Indexed = Indexed(index: nat, value: string)

  /** The argv entries of a details map, in map order. */
  function Elements(u: Unicode, details: seq<Entry>): seq<Indexed> {
    if details == [] then []
    else
      var e := details[|details| - 1];
      var rest := Elements(u, details[..|details| - 1]);
      match KeyIndex(u, e.key)
      case None => rest
      case Some(i) => rest + [Indexed(i, e.value)]
  }

  predicate HasProgram(elements: seq<Indexed>) {
    exists k :: 0 <= k < |elements| && elements[k].index == 0 && elements[k].value != ""
  }

  /** Stable insertion by index: after the last element that is not larger. */
  function Insert(sorted: seq<Indexed>, x: Indexed): seq<Indexed> {
    if sorted == [] || sorted[|sorted| - 1].index <= x.index then sorted + [x]
    else Insert(sorted[..|sorted| - 1], x) + [sorted[|sorted| - 1]]
  }

  function Sort(elements: seq<Indexed>): seq<Indexed> {
    if elements == [] then [] else Insert(Sort(elements[..|elements| - 1]), elements[|elements| - 1])
  }

  function Values(elements: seq<Indexed>): seq<string> { seq(|elements|, k requires 0 <= k < |elements| =>
                                                             elements[k].value) }

  /** The argv of a details map, None when there is no nonempty element 0. */
  function Argv(u: Unicode, details: seq<Entry>): Option<seq<string>> {
    var elements := Elements(u, details);
    if HasProgram(elements) then Some(Values(Sort(elements))) else None
  }

  /** `_argv_from_details`. */
  method ArgvFromDetails(u: Unicode, details: seq<Entry>) returns (argv: Option<seq<string>>)
    ensures argv == Argv(u, details)
  {
    var indexed: seq<Indexed> := [];
    var haveZero := false;
    var n := 0;
    while n < |details|
      invariant 0 <= n <= |details|
      invariant indexed == Elements(u, details[..n]) && haveZero == HasProgram(indexed)
    {
      assert details[..n + 1][..n] == details[..n];
      var index := KeyIndex(u, details[n].key);
      if index.Some? {
        if index.value == 0 && details[n].value != "" {
          haveZero := true;
          assert (indexed + [Indexed(index.value, details[n].value)])[|indexed|].index == 0;
        }
        ghost var before := indexed;
        indexed := indexed + [Indexed(index.value, details[n].value)];
        assert HasProgram(before) ==> HasProgram(indexed) by {
          if HasProgram(before) {
            var k :| 0 <= k < |before| && before[k].index == 0 && before[k].value != "";
            assert indexed[k] == before[k];
          }
        }
      }
      n := n + 1;
    }
    assert details[..|details|] == details;
    if indexed == [] || !haveZero {
      return None;
    }
    return Some(Values(Sort(indexed)));
  }

  // ---------------------------------------------------------------- round trip

  ghost predicate Sorted(s: seq<Indexed>) {
    forall i, j :: 0 <= i < j < |s| ==> s[i].index <= s[j].index
  }

  lemma {:induction false} InsertSorts(s: seq<Indexed>, x: Indexed)
    requires Sorted(s)
    ensures Sorted(Insert(s, x)) && |Insert(s, x)| == |s| + 1
    ensures forall y :: y in Insert(s, x) <==> y in s || y == x
  {
    if s != [] && s[|s| - 1].index > x.index {
      var n := |s| - 1;
      var r := Insert(s[..n], x);
      InsertSorts(s[..n], x);
      assert s == s[..n] + [s[n]];
      forall i | 0 <= i < |r| ensures r[i].index <= s[n].index {
        assert r[i] in r;
      }
    }
  }

  lemma {:induction false} SortSorts(s: seq<Indexed>)
    ensures Sorted(Sort(s)) && |Sort(s)| == |s|
    ensures forall y :: y in Sort(s) <==> y in s
  {
    if s != [] {
      var n := |s| - 1;
      SortSorts(s[..n]);
      InsertSorts(Sort(s[..n]), s[n]);
      assert s == s[..n] + [s[n]];
    }
  }

  /** Entry `i` of the argv is somewhere in the map under its own key, and no other key reads as an argv key. */
  ghost predicate Carries(u: Unicode, details: seq<Entry>, argv: seq<string>) {
    && (forall i :: 0 <= i < |argv| ==> Entry(ArgvKey(i), argv[i]) in details)
    && (forall e :: e in details && KeyIndex(u, e.key).Some? ==>
          exists i :: 0 <= i < |argv| && e == Entry(ArgvKey(i), argv[i]))
  }

  /** A map's argv entries, whatever the map's order. */
  lemma {:induction false} ElementsOf(u: Unicode, details: seq<Entry>)
    ensures forall x :: x in Elements(u, details) <==>
              exists e :: e in details && KeyIndex(u, e.key) == Some(x.index) && e.value == x.value
  {
    if details != [] {
      var n := |details| - 1;
      ElementsOf(u, details[..n]);
      assert forall e :: e in details <==> e in details[..n] || e == details[n];
    }
  }

  ghost predicate DistinctIndices(s: seq<Indexed>) {
    forall i, j :: 0 <= i < j < |s| ==> s[i].index != s[j].index
  }

  /** Keys that read as argv keys are written in the sender's form. */
  ghost predicate Canonical(u: Unicode, details: seq<Entry>) {
    forall e :: e in details && KeyIndex(u, e.key).Some? ==> e.key == ArgvKey(KeyIndex(u, e.key).value)
  }

  lemma NewIndexIsNew(u: Unicode, before: seq<Entry>, e: Entry, x: Indexed)
    requires Canonical(u, before) && KeyIndex(u, e.key).Some? && e.key == ArgvKey(KeyIndex(u, e.key).value)
    requires forall y :: y in before ==> y.key != e.key
    requires x in Elements(u, before)
    ensures x.index != KeyIndex(u, e.key).value
  {
    ElementsOf(u, before);
    var y :| y in before && KeyIndex(u, y.key) == Some(x.index) && y.value == x.value;
    assert y.key == ArgvKey(x.index);
  }

  lemma {:induction false} ElementsAreDistinct(u: Unicode, details: seq<Entry>)
    requires DistinctKeys(details) && Canonical(u, details)
    ensures DistinctIndices(Elements(u, details))
  {
    if details != [] {
      var n := |details| - 1;
      var before, e := details[..n], details[n];
      assert forall x :: x in before ==> x in details && x.key != e.key;
      ElementsAreDistinct(u, before);
      if KeyIndex(u, e.key).Some? {
        assert e in details;
        forall x | x in Elements(u, before) ensures x.index != KeyIndex(u, e.key).value {
          NewIndexIsNew(u, before, e, x);
        }
      }
    }
  }

  lemma {:induction false} InsertKeepsDistinct(s: seq<Indexed>, x: Indexed)
    requires DistinctIndices(s) && Sorted(s) && forall y :: y in s ==> y.index != x.index
    ensures DistinctIndices(Insert(s, x))
  {
    if s != [] && s[|s| - 1].index > x.index {
      var n := |s| - 1;
      assert forall y :: y in s[..n] ==> y in s;
      InsertKeepsDistinct(s[..n], x);
      InsertSorts(s[..n], x);
      var r := Insert(s[..n], x);
      forall i | 0 <= i < |r| ensures r[i].index != s[n].index {
        assert r[i] in r;
        if r[i] in s[..n] {
          var j :| 0 <= j < n && s[j] == r[i];
        }
      }
    }
  }

  lemma {:induction false} SortKeepsDistinct(s: seq<Indexed>)
    requires DistinctIndices(s)
    ensures DistinctIndices(Sort(s))
  {
    if s != [] {
      var n := |s| - 1;
      SortKeepsDistinct(s[..n]);
      SortSorts(s[..n]);
      forall y | y in Sort(s[..n]) ensures y.index != s[n].index {
        var j :| 0 <= j < n && s[..n][j] == y;
      }
      InsertKeepsDistinct(Sort(s[..n]), s[n]);
    }
  }

  ghost predicate HoldsExactly(s: seq<Indexed>, argv: seq<string>) {
    && (forall i :: 0 <= i < |argv| ==> Indexed(i, argv[i]) in s)
    && (forall x :: x in s ==> x.index < |argv| && x.value == argv[x.index])
  }

  ghost predicate Rising(s: seq<Indexed>) {
    forall i, j :: 0 <= i < j < |s| ==> s[i].index < s[j].index
  }

  lemma {:induction false} RisingIsFast(s: seq<Indexed>, k: nat)
    requires Rising(s) && k < |s|
    ensures s[k].index >= k
  {
    if k > 0 {
      RisingIsFast(s, k - 1);
    }
  }

  lemma {:induction false} RisingPosition(s: seq<Indexed>, argv: seq<string>, k: nat)
    requires Rising(s) && HoldsExactly(s, argv) && k < |argv|
    ensures k < |s| && forall j :: 0 <= j <= k ==> s[j].index == j
  {
    if k > 0 {
      RisingPosition(s, argv, k - 1);
    }
    var p :| 0 <= p < |s| && s[p] == Indexed(k, argv[k]);
    RisingIsFast(s, p);
    assert p >= k;
  }

  lemma RisingValues(s: seq<Indexed>, argv: seq<string>)
    requires Rising(s) && HoldsExactly(s, argv) && argv != []
    ensures Values(s) == argv
  {
    var n := |argv|;
    RisingPosition(s, argv, n - 1);
    RisingIsFast(s, |s| - 1);
    assert s[|s| - 1] in s;
    forall k | 0 <= k < n ensures Values(s)[k] == argv[k] {
      assert s[k] in s;
    }
  }

  lemma CarriedElements(u: Unicode, details: seq<Entry>, argv: seq<string>)
    requires u.Valid() && Carries(u, details, argv) && |argv| <= MAX_INDEX + 1
    ensures Canonical(u, details) && HoldsExactly(Elements(u, details), argv)
  {
    ElementsOf(u, details);
    var elements := Elements(u, details);
    forall i | 0 <= i < |argv| ensures Indexed(i, argv[i]) in elements {
      ArgvKeyReadsBack(u, i);
      assert Entry(ArgvKey(i), argv[i]) in details;
    }
    forall e | e in details && KeyIndex(u, e.key).Some?
      ensures KeyIndex(u, e.key).value < |argv|
               && e == Entry(ArgvKey(KeyIndex(u, e.key).value), argv[KeyIndex(u, e.key).value])
    {
      var i :| 0 <= i < |argv| && e == Entry(ArgvKey(i), argv[i]);
      ArgvKeyReadsBack(u, i);
    }
  }

  /** Decoding returns the argv a map carries, in whatever order the map lists its entries. */
  lemma DecodeReturnsCarried(u: Unicode, details: seq<Entry>, argv: seq<string>)
    requires u.Valid() && DistinctKeys(details) && Carries(u, details, argv)
    requires 0 < |argv| <= MAX_INDEX + 1 && argv[0] != ""
    ensures Argv(u, details) == Some(argv)
  {
    CarriedElements(u, details, argv);
    ElementsAreDistinct(u, details);
    var elements := Elements(u, details);
    assert Indexed(0, argv[0]) in elements;
    assert HasProgram(elements);
    SortSorts(elements);
    SortKeepsDistinct(elements);
    RisingValues(Sort(elements), argv);
  }

  /** The sender's map: its own entries, then one entry per argv element. */
  function Encode(others: seq<Entry>, argv: seq<string>): seq<Entry> {
    others + seq(|argv|, i requires 0 <= i < |argv| => Entry(ArgvKey(i), argv[i]))
  }

  lemma EncodeCarries(u: Unicode, others: seq<Entry>, argv: seq<string>)
    requires forall e :: e in others ==> KeyIndex(u, e.key).None?
    ensures Carries(u, Encode(others, argv), argv)
  {
    var d := Encode(others, argv);
    forall i | 0 <= i < |argv| ensures Entry(ArgvKey(i), argv[i]) in d {
      assert d[|others| + i] == Entry(ArgvKey(i), argv[i]);
    }
    forall e | e in d && KeyIndex(u, e.key).Some? ensures
          exists i :: 0 <= i < |argv| && e == Entry(ArgvKey(i), argv[i]) {
      var k :| 0 <= k < |d| && d[k] == e;
      assert k >= |others| by {
        assert k < |others| ==> e in others;
      }
      assert e == Entry(ArgvKey(k - |others|), argv[k - |others|]);
    }
  }

  /** Round trip: the argv survives encoding, sanitising and decoding when the map is clean. */
  lemma ArgvRoundTrip(u: Unicode, details: seq<Entry>, argv: seq<string>)
    requires u.Valid() && CleanDetails(u, details) && Carries(u, details, argv)
    requires argv != [] && argv[0] != "" && |argv| <= MAX_INDEX + 1
    ensures Argv(u, details) == Some(argv) && Argv(u, Sanitize(u, details)) == Some(argv)
  {
    CleanPassesUnchanged(u, details);
    DecodeReturnsCarried(u, details, argv);
  }

  /** The broker's view of a details map: no argv and an empty one are the same to it. */
  function ArgvOf(u: Unicode, details: seq<Entry>): seq<string> {
    match Argv(u, details)
    case None => []
    case Some(argv) => argv
  }
}
