/**
 * The Compose policy over parsed documents: it validates, injects default resource limits, and sorts mappings into a
 * canonical order. Keys are ordered by code unit; regular expressions and number parsing are parameters.
 */
module ComposePolicy {
  import opened Common

  datatype Json =
    | Null
    | Bool(b: bool)
    | Number(n: real)
    | Text(s: string)
    | List(items: seq<Json>)
    | Object(entries: seq<Entry>)
  datatype Entry = Entry(key: string, value: Json)

  /** Parsing refuses a mapping that repeats a key. */
  ghost predicate Unique(entries: seq<Entry>)
  {
    forall i, j :: 0 <= i < j < |entries| ==> entries[i].key != entries[j].key
  }

  ghost predicate Parsed(v: Json)
  {
    match v
    case List(items) => forall i :: 0 <= i < |items| ==> Parsed(items[i])
    case Object(entries) => Unique(entries) && forall i :: 0 <= i < |entries| ==> Parsed(entries[i].value)
    case _ => true
  }

  // ---------------------------------------------------------------- the canonical order

  predicate AtMost(a: string, b: string)
  {
    a == "" || (b != "" && (a[0] < b[0] || (a[0] == b[0] && AtMost(a[1..], b[1..]))))
  }

  lemma {:induction false} Total(a: string, b: string)
    ensures AtMost(a, b) || AtMost(b, a)
    ensures AtMost(a, b) && AtMost(b, a) ==> a == b
  {
    if a != "" && b != "" {
      Total(a[1..], b[1..]);
      assert a == [a[0]] + a[1..] && b == [b[0]] + b[1..];
    }
  }

  lemma {:induction false} Transitive(a: string, b: string, c: string)
    requires AtMost(a, b) && AtMost(b, c)
    ensures AtMost(a, c)
  {
    if a != "" && a[0] == b[0] == c[0] { Transitive(a[1..], b[1..], c[1..]); }
  }

  function Insert(e: Entry, sorted: seq<Entry>): seq<Entry>
  {
    if sorted == [] || AtMost(e.key, sorted[0].key) then [e] + sorted else [sorted[0]] + Insert(e, sorted[1..])
  }

  function Sort(entries: seq<Entry>): seq<Entry>
  {
    if entries == [] then [] else Insert(entries[0], Sort(entries[1..]))
  }

  function SortObject(v: Json): Json
  {
    match v
    case List(items) => List(seq(|items|, i requires 0 <= i < |items| => SortObject(items[i])))
    case Object(entries) =>
      Object(Sort(seq(|entries|, i requires 0 <= i < |entries| => Entry(entries[i].key, SortObject(entries[i].value)))))
    case _ => v
  }

  /** The same content, whatever the order of keys. */
  ghost predicate SameContent(a: Json, b: Json)
    decreases a, 1
  {
    match a
    case List(items) =>
      b.List? && |items| == |b.items| && forall i :: 0 <= i < |items| ==> SameContent(items[i], b.items[i])
    case Object(entries) =>
      b.Object?
      && (forall i :: 0 <= i < |entries| ==> HasTwin(entries[i], b.entries))
      && (forall j :: 0 <= j < |b.entries| ==> IsTwin(a, b.entries[j]))
    case _ => a == b
  }

  ghost predicate SameEntry(a: Entry, b: Entry)
    decreases a, 1
  {
    a.key == b.key && SameContent(a.value, b.value)
  }

  ghost predicate HasTwin(e: Entry, entries: seq<Entry>)
    decreases e, 2
  {
    exists j :: 0 <= j < |entries| && SameEntry(e, entries[j])
  }

  ghost predicate IsTwin(a: Json, e: Entry)
    requires a.Object?
    decreases a, 0
  {
    exists i :: 0 <= i < |a.entries| && SameEntry(a.entries[i], e)
  }

  ghost predicate Ordered(entries: seq<Entry>)
  {
    forall i, j :: 0 <= i < j < |entries| ==> AtMost(entries[i].key, entries[j].key)
  }

  lemma {:induction false} InsertKeeps(e: Entry, sorted: seq<Entry>)
    requires Ordered(sorted)
    ensures Ordered(Insert(e, sorted)) && multiset(Insert(e, sorted)) == multiset{e} + multiset(sorted)
  {
    var r := Insert(e, sorted);
    if sorted == [] || AtMost(e.key, sorted[0].key) {
      forall i, j | 0 <= i < j < |r| ensures AtMost(r[i].key, r[j].key) {
        if i == 0 && j > 1 { Transitive(e.key, sorted[0].key, sorted[j - 1].key); }
      }
    } else {
      InsertKeeps(e, sorted[1..]);
      var rest := Insert(e, sorted[1..]);
      Total(e.key, sorted[0].key);
      assert sorted == [sorted[0]] + sorted[1..];
      forall j | 0 <= j < |rest| ensures AtMost(sorted[0].key, rest[j].key) {
        assert rest[j] in multiset(rest);
        if rest[j] != e {
          assert rest[j] in multiset(sorted[1..]);
          var k :| 0 <= k < |sorted[1..]| && sorted[1..][k] == rest[j];
          assert sorted[k + 1] == rest[j];
        }
      }
    }
  }

  lemma {:induction false} SortKeeps(entries: seq<Entry>)
    ensures Ordered(Sort(entries)) && multiset(Sort(entries)) == multiset(entries)
  {
    if entries != [] {
      SortKeeps(entries[1..]);
      InsertKeeps(entries[0], Sort(entries[1..]));
      assert entries == [entries[0]] + entries[1..];
    }
  }

  /** Sorting keeps exactly the entries, and distinct keys stay distinct. */
  lemma SortMembers(entries: seq<Entry>)
    ensures forall e :: e in Sort(entries) <==> e in entries
    ensures |Sort(entries)| == |entries|
    ensures Unique(entries) ==> Unique(Sort(entries))
  {
    SortKeeps(entries);
    var s := Sort(entries);
    forall e ensures e in s <==> e in entries {
      assert e in multiset(s) <==> e in multiset(entries);
    }
    assert |multiset(s)| == |multiset(entries)|;
    if Unique(entries) { UniqueByCount(entries, s); }
  }

  lemma UniqueByCount(entries: seq<Entry>, s: seq<Entry>)
    requires Unique(entries) && multiset(s) == multiset(entries)
    ensures Unique(s)
  {
    forall i, j | 0 <= i < j < |s| ensures s[i].key != s[j].key {
      assert s[i] in multiset(s) && s[j] in multiset(s);
      assert s[i] in multiset(entries) && s[j] in multiset(entries);
      var k :| 0 <= k < |entries| && entries[k] == s[i];
      var l :| 0 <= l < |entries| && entries[l] == s[j];
      if k == l {
        CountTwo(s, i, j);
        CountOne(entries, k);
        assert false;
      }
    }
  }

  lemma CountTwo(s: seq<Entry>, i: nat, j: nat)
    requires i < j < |s| && s[i] == s[j]
    ensures multiset(s)[s[i]] >= 2
  {
    assert s == s[..i] + [s[i]] + s[i + 1..j] + [s[j]] + s[j + 1..];
  }

  lemma CountOne(s: seq<Entry>, k: nat)
    requires Unique(s) && k < |s|
    ensures multiset(s)[s[k]] == 1
  {
    assert s == s[..k] + [s[k]] + s[k + 1..];
    assert s[k] !in s[..k] && s[k] !in s[k + 1..];
  }

  lemma {:induction false} OrderedUnique(a: seq<Entry>, b: seq<Entry>)
    requires Ordered(a) && Ordered(b) && Unique(a) && Unique(b) && forall e :: e in a <==> e in b
    ensures a == b
  {
    if b != [] { assert b[0] in a; }
    if a != [] {
      assert a[0] in b && b != [] && b[0] in a;
      var i :| 0 <= i < |b| && b[i] == a[0];
      var j :| 0 <= j < |a| && a[j] == b[0];
      Total(a[0].key, b[0].key);
      assert a[0] == b[0];
      forall e ensures e in a[1..] <==> e in b[1..] {
        if e in a[1..] { assert e in b && e != b[0]; }
        if e in b[1..] { assert e in a && e != a[0]; }
      }
      OrderedUnique(a[1..], b[1..]);
    }
  }

  function SortedValues(entries: seq<Entry>): seq<Entry>
  {
    seq(|entries|, i requires 0 <= i < |entries| => Entry(entries[i].key, SortObject(entries[i].value)))
  }

  lemma SortEqualIff(a: seq<Entry>, b: seq<Entry>)
    requires Unique(a) && Unique(b)
    ensures Sort(a) == Sort(b) <==> forall e :: e in a <==> e in b
  {
    SortKeeps(a);
    SortKeeps(b);
    SortMembers(a);
    SortMembers(b);
    if forall e :: e in a <==> e in b { OrderedUnique(Sort(a), Sort(b)); }
    if Sort(a) == Sort(b) {
      forall e ensures e in a <==> e in b {
        assert e in Sort(a) <==> e in a;
      }
    }
  }

  /** Two documents have one canonical form exactly when they have the same content. */
  lemma {:induction false} CanonicalIff(a: Json, b: Json)
    requires Parsed(a) && Parsed(b)
    ensures SortObject(a) == SortObject(b) <==> SameContent(a, b)
    decreases a
  {
    match a {
      case List(items) => if b.List? { ListsIff(items, b.items); }
      case Object(entries) => if b.Object? { ObjectsIff(entries, b.entries); }
      case _ =>
    }
  }

  lemma {:induction false} ListsIff(a: seq<Json>, b: seq<Json>)
    requires Parsed(List(a)) && Parsed(List(b))
    ensures SortObject(List(a)) == SortObject(List(b)) <==> SameContent(List(a), List(b))
    decreases List(a), 0
  {
    var x, y := SortObject(List(a)).items, SortObject(List(b)).items;
    if |a| == |b| {
      forall i | 0 <= i < |a| ensures x[i] == y[i] <==> SameContent(a[i], b[i]) {
        CanonicalIff(a[i], b[i]);
      }
      assert x == y <==> forall i :: 0 <= i < |a| ==> x[i] == y[i];
    }
  }

  lemma {:induction false} ObjectsIff(a: seq<Entry>, b: seq<Entry>)
    requires Parsed(Object(a)) && Parsed(Object(b))
    ensures SortObject(Object(a)) == SortObject(Object(b)) <==> SameContent(Object(a), Object(b))
    decreases Object(a), 0
  {
    var x, y := SortedValues(a), SortedValues(b);
    assert SortObject(Object(a)) == Object(Sort(x)) && SortObject(Object(b)) == Object(Sort(y));
    SortEqualIff(x, y);
    forall i, j | 0 <= i < |a| && 0 <= j < |b| ensures x[i] == y[j] <==> SameEntry(a[i], b[j]) {
      CanonicalIff(a[i].value, b[j].value);
    }
    forall i | 0 <= i < |a| ensures x[i] in y <==> HasTwin(a[i], b) {
      TwinnedIff(a[i], x[i], b, y);
    }
    forall j | 0 <= j < |b| ensures y[j] in x <==> IsTwin(Object(a), b[j]) {
      TwinIff(a, x, b[j], y[j]);
    }
    SameMembers(x, y);
  }

  lemma TwinnedIff(e: Entry, f: Entry, b: seq<Entry>, y: seq<Entry>)
    requires |y| == |b| && forall j :: 0 <= j < |b| ==> (f == y[j] <==> SameEntry(e, b[j]))
    ensures f in y <==> HasTwin(e, b)
  {
    if f in y {
      var j :| 0 <= j < |b| && y[j] == f;
      assert SameEntry(e, b[j]);
    }
    if HasTwin(e, b) {
      var j :| 0 <= j < |b| && SameEntry(e, b[j]);
      assert y[j] == f;
    }
  }

  lemma TwinIff(a: seq<Entry>, x: seq<Entry>, e: Entry, f: Entry)
    requires |x| == |a| && forall i :: 0 <= i < |a| ==> (x[i] == f <==> SameEntry(a[i], e))
    ensures f in x <==> IsTwin(Object(a), e)
  {
    if f in x {
      var i :| 0 <= i < |a| && x[i] == f;
      assert SameEntry(Object(a).entries[i], e);
    }
    if IsTwin(Object(a), e) {
      var i :| 0 <= i < |a| && SameEntry(Object(a).entries[i], e);
      assert x[i] == f;
    }
  }

  lemma SameMembers(x: seq<Entry>, y: seq<Entry>)
    ensures (forall e :: e in x <==> e in y)
      <==> (forall i :: 0 <= i < |x| ==> x[i] in y) && forall j :: 0 <= j < |y| ==> y[j] in x
  {
    if forall e :: e in x <==> e in y {
      forall i | 0 <= i < |x| ensures x[i] in y { assert x[i] in x; }
      forall j | 0 <= j < |y| ensures y[j] in x { assert y[j] in y; }
    }
  }

  // ---------------------------------------------------------------- looking things up

  function Get(entries: seq<Entry>, key: string): Option<Json>
  {
    if entries == [] then None
    else if entries[0].key == key then Some(entries[0].value)
    else Get(entries[1..], key)
  }

  lemma {:induction false} GetIs(entries: seq<Entry>, key: string)
    ensures Get(entries, key).Some? <==> exists i :: 0 <= i < |entries| && entries[i].key == key
    ensures Get(entries, key).Some? ==>
      exists i :: 0 <= i < |entries| && entries[i] == Entry(key, Get(entries, key).value)
    ensures Unique(entries) ==> forall i :: 0 <= i < |entries| && entries[i].key == key ==>
      Get(entries, key) == Some(entries[i].value)
  {
    if entries != [] {
      GetIs(entries[1..], key);
      assert forall i :: 1 <= i < |entries| ==> entries[i] == entries[1..][i - 1];
    }
  }

  /** The same mappings give the same answers. */
  lemma SameGet(a: seq<Entry>, b: seq<Entry>, key: string)
    requires Unique(a) && Unique(b) && SameContent(Object(a), Object(b))
    ensures Get(a, key).Some? <==> Get(b, key).Some?
    ensures Get(a, key).Some? ==> SameContent(Get(a, key).value, Get(b, key).value)
  {
    GetIs(a, key);
    GetIs(b, key);
    if Get(a, key).Some? {
      var i :| 0 <= i < |a| && a[i] == Entry(key, Get(a, key).value);
      assert HasTwin(a[i], b);
      var j :| 0 <= j < |b| && SameEntry(a[i], b[j]);
    }
    if Get(b, key).Some? {
      var j :| 0 <= j < |b| && b[j] == Entry(key, Get(b, key).value);
      assert IsTwin(Object(a), b[j]);
      var i :| 0 <= i < |a| && SameEntry(Object(a).entries[i], b[j]);
    }
  }

  /** A test that twins pass together holds of all entries of both mappings, or of neither's. */
  lemma SameForAll(a: seq<Entry>, b: seq<Entry>, test: Entry -> bool)
    requires SameContent(Object(a), Object(b))
    requires forall i, j :: 0 <= i < |a| && 0 <= j < |b| && SameEntry(a[i], b[j]) ==> (test(a[i]) <==> test(b[j]))
    ensures (forall i :: 0 <= i < |a| ==> test(a[i])) <==> (forall j :: 0 <= j < |b| ==> test(b[j]))
  {
    if forall j :: 0 <= j < |b| ==> test(b[j]) {
      forall i | 0 <= i < |a| ensures test(a[i]) {
        assert HasTwin(a[i], b);
        var j :| 0 <= j < |b| && SameEntry(a[i], b[j]);
        assert test(b[j]);
      }
    }
    if forall i :: 0 <= i < |a| ==> test(a[i]) {
      forall j | 0 <= j < |b| ensures test(b[j]) {
        assert IsTwin(Object(a), b[j]);
        var i :| 0 <= i < |a| && SameEntry(Object(a).entries[i], b[j]);
        assert test(a[i]);
      }
    }
  }

  // ---------------------------------------------------------------- the policy

  /** Regular expressions and number syntax. */
  datatype Patterns = Patterns(
    serviceName: string -> bool, image: string -> bool, latest: string -> bool, environmentKey: string -> bool,
    secretKey: string -> bool, isolationOff: string -> bool,
    numberText: real -> string, numberOf: string -> Option<real>, memoryOf: string -> Option<nat>)

  const DEFAULT_LIMITS := Object([Entry("limits", Object([Entry("cpus", Text("1.0")), Entry("memory", Text("512M"))]))])

  predicate ReadsDefaults(p: Patterns)
  {
    p.numberOf("1.0") == Some(1.0) && p.memoryOf("512M") == Some(512 * 1024 * 1024)
  }

  /** String(value). */
  function TextOf(p: Patterns, v: Json): string
  {
    match v
    case Null => "null"
    case Bool(b) => if b then "true" else "false"
    case Number(n) => p.numberText(n)
    case Text(s) => s
    case List(items) =>
      Join(seq(|items|, i requires 0 <= i < |items| => if items[i].Null? then "" else TextOf(p, items[i])), ",")
    case Object(_) => "[object Object]"
  }

  /** `Object.keys` lists array indices before all other keys. */
  predicate IsIndex(key: string)
  {
    key == "0" || (key != "" && key[0] != '0' && (forall c :: c in key ==> '0' <= c <= '9')
                   && Decimal(key) < 0xFFFF_FFFF)
  }

  function Decimal(digits: string): int
  {
    if digits == "" then 0 else 10 * Decimal(digits[..|digits| - 1]) + (digits[|digits| - 1] as int - '0' as int)
  }

  /** The first unsupported key among the indices, or among the other keys. */
  function FirstUnknown(entries: seq<Entry>, indices: bool, allowed: seq<string>): Option<string>
  {
    if entries == [] then None
    else if IsIndex(entries[0].key) == indices && entries[0].key !in allowed then Some(entries[0].key)
    else FirstUnknown(entries[1..], indices, allowed)
  }

  /** rejectUnknownKeys: the first unsupported key is refused, unless it is the empty string, which counts as none. */
  predicate KeysPass(entries: seq<Entry>, allowed: seq<string>)
  {
    var index := FirstUnknown(entries, true, allowed);
    var key := if index.Some? then index else FirstUnknown(entries, false, allowed);
    key.None? || key.value == ""
  }

  /**
   * What the checks of keys let pass: what they do, or what they would do if unsupported keys were refused wherever
   * they stand - all of them, all but the empty one, or none but indices beside an empty one.
   */
  datatype Reading = AsWritten | Intended | Strictly | Leniently

  predicate KeysWithin(r: Reading, entries: seq<Entry>, allowed: seq<string>)
  {
    match r
    case AsWritten => KeysPass(entries, allowed)
    case Intended => AllKnown(entries, allowed)
    case Strictly => AllTolerated(entries, allowed)
    case Leniently => AllOverlooked(entries, allowed) && (Has(entries, "") || AllKnown(entries, allowed))
  }

  predicate Tolerated(e: Entry, allowed: seq<string>) { e.key == "" || e.key in allowed }

  predicate AllKnown(entries: seq<Entry>, allowed: seq<string>)
  {
    forall i :: 0 <= i < |entries| ==> entries[i].key in allowed
  }

  predicate AllTolerated(entries: seq<Entry>, allowed: seq<string>)
  {
    forall i :: 0 <= i < |entries| ==> Tolerated(entries[i], allowed)
  }

  predicate AllOverlooked(entries: seq<Entry>, allowed: seq<string>)
  {
    forall i :: 0 <= i < |entries| ==> Overlooked(entries[i], allowed)
  }

  predicate Overlooked(e: Entry, allowed: seq<string>) { IsIndex(e.key) ==> e.key in allowed }

  predicate Has(entries: seq<Entry>, key: string) { Get(entries, key).Some? }

  predicate ResourceAllowed(p: Patterns, r: Reading, e: Entry, allowed: seq<string>)
  {
    p.serviceName(e.key) && e.value.Object? && Get(e.value.entries, "external") != Some(Bool(true))
    && !Has(e.value.entries, "name") && KeysWithin(r, e.value.entries, allowed)
  }

  predicate ResourcesAllowed(p: Patterns, r: Reading, value: Option<Json>, allowed: seq<string>)
  {
    value.None?
    || (value.value.Object?
        && forall i :: 0 <= i < |value.value.entries| ==> ResourceAllowed(p, r, value.value.entries[i], allowed))
  }

  predicate Contains(s: string, t: string) { t <= s || (s != "" && Contains(s[1..], t)) }

  function Leaf(image: string): string
  {
    if image == "" then "" else if '/' in image[1..] then Leaf(image[1..]) else if image[0] == '/' then image[1..]
      else image
  }

  predicate ImageAllowed(p: Patterns, value: Option<Json>)
  {
    value.Some? && value.value.Text? && p.image(value.value.s)
      && (Contains(value.value.s, "@sha256:") || ':' in Leaf(value.value.s))
    && !p.latest(value.value.s)
  }

  predicate RestartAllowed(p: Patterns, value: Option<Json>)
  {
    value.Some? && !value.value.Null? && TextOf(p, value.value) in ["always", "unless-stopped", "on-failure"]
  }

  predicate VariableAllowed(p: Patterns, key: string, value: Json)
  {
    p.environmentKey(key) && !p.secretKey(key) && (value.Text? || value.Number? || value.Bool?)
      && |TextOf(p, value)| <= 2048
  }

  /** `KEY=value`; without a `=` there is no value, and the entry is refused. */
  predicate AssignmentAllowed(p: Patterns, text: string)
  {
    var key := SplitOn(text, '=')[0];
    |key| < |text| && VariableAllowed(p, key, Text(text[|key| + 1..]))
  }

  predicate EnvironmentAllowed(p: Patterns, value: Option<Json>)
  {
    value.None?
    || (value.value.List? && 1 <= |value.value.items| <= 100
        && forall i :: 0 <= i < |value.value.items| ==> AssignmentAllowed(p, TextOf(p, value.value.items[i])))
    || (value.value.Object? && 1 <= |value.value.entries| <= 100
        && forall i :: 0 <= i < |value.value.entries| ==>
          VariableAllowed(p, value.value.entries[i].key, value.value.entries[i].value))
  }

  predicate MountAllowed(p: Patterns, mount: Json)
  {
    if mount.Text? then
      var source := SplitOn(mount.s, ':')[0];
      p.serviceName(source) && source != "." && '/' !in source && '\\' !in source
    else
      && mount.Object? && Get(mount.entries, "type") == Some(Text("volume"))
      && SourceAllowed(p, Get(mount.entries, "source")) && TargetAllowed(Get(mount.entries, "target"))
  }

  predicate SourceAllowed(p: Patterns, source: Option<Json>)
  {
    match source case Some(Text(s)) => p.serviceName(s) case _ => false
  }

  predicate TargetAllowed(target: Option<Json>) { match target case Some(Text(t)) => "/" <= t case _ => false }

  predicate VolumesAllowed(p: Patterns, value: Option<Json>)
  {
    value.None?
    || (value.value.List? && |value.value.items| <= 50
        && forall i :: 0 <= i < |value.value.items| ==> MountAllowed(p, value.value.items[i]))
  }

  predicate SecurityAllowed(p: Patterns, value: Option<Json>)
  {
    value.None?
    || (value.value.List?
        && forall i :: 0 <= i < |value.value.items| ==>
          value.value.items[i].Text? && !p.isolationOff(value.value.items[i].s))
  }

  /** Number(value); None stands for NaN. */
  function NumberOf(p: Patterns, v: Json): Option<real>
  {
    match v
    case Null => Some(0.0)
    case Bool(b) => Some(if b then 1.0 else 0.0)
    case Number(n) => Some(n)
    case Text(s) => p.numberOf(s)
    case List(_) => p.numberOf(TextOf(p, v))
    case Object(_) => None
  }

  predicate CpusAllowed(p: Patterns, value: Option<Json>)
  {
    value.Some? && NumberOf(p, value.value).Some? && 0.1 <= NumberOf(p, value.value).value <= 8.0
  }

  predicate MemoryAllowed(p: Patterns, value: Option<Json>)
  {
    value.Some? && value.value.Text? && p.memoryOf(value.value.s).Some?
    && 32 * 1024 * 1024 <= p.memoryOf(value.value.s).value <= 16 * 1024 * 1024 * 1024
  }

  predicate LimitsAllowed(p: Patterns, r: Reading, resources: Json)
  {
    && resources.Object? && KeysWithin(r, resources.entries, RESOURCE_KEYS)
    && (match Get(resources.entries, "reservations") case Some(Object(r)) => !Has(r, "devices") case _ => true)
    && BoundsAllowed(p, Get(resources.entries, "limits"))
  }

  predicate DeployAllowed(p: Patterns, r: Reading, value: Option<Json>)
  {
    value.None?
    || (value.value.Object? && KeysWithin(r, value.value.entries, DEPLOY_KEYS)
        && !Has(value.value.entries, "placement")
        && (Has(value.value.entries, "resources") ==> LimitsAllowed(p, r, Get(value.value.entries, "resources").value)))
  }

  const SERVICE_KEYS := [
    "image", "restart", "healthcheck", "environment", "ports", "expose", "network_mode", "depends_on", "volumes",
    "networks", "labels", "logging", "deploy", "user", "working_dir", "read_only", "tmpfs", "stop_grace_period",
    "init", "pull_policy", "security_opt"]

  /** Refused by name, after the check of keys. */
  const FORBIDDEN := [
    "build", "privileged", "use_api_socket", "network_mode", "ports", "expose", "pid", "ipc", "devices", "cap_add",
    "command", "entrypoint", "extends"]

  predicate NoneOf(entries: seq<Entry>, forbidden: seq<string>)
  {
    forall i :: 0 <= i < |forbidden| ==> !Has(entries, forbidden[i])
  }

  predicate ServiceAllowed(p: Patterns, r: Reading, e: Entry)
  {
    && p.serviceName(e.key) && e.value.Object? && KeysWithin(r, e.value.entries, SERVICE_KEYS)
    && NoneOf(e.value.entries, FORBIDDEN)
    && ImageAllowed(p, Get(e.value.entries, "image")) && RestartAllowed(p, Get(e.value.entries, "restart"))
    && EnvironmentAllowed(p, Get(e.value.entries, "environment")) && VolumesAllowed(p, Get(e.value.entries, "volumes"))
    && SecurityAllowed(p, Get(e.value.entries, "security_opt")) && DeployAllowed(p, r, Get(e.value.entries, "deploy"))
  }

  predicate ServicesAllowed(p: Patterns, r: Reading, value: Option<Json>)
  {
    value.Some? && value.value.Object? && 1 <= |value.value.entries| <= 50
    && forall i :: 0 <= i < |value.value.entries| ==> ServiceAllowed(p, r, value.value.entries[i])
  }

  const TOP_KEYS := ["services", "volumes", "networks"]
  const DEPLOY_KEYS := ["resources", "restart_policy"]
  const RESOURCE_KEYS := ["limits", "reservations"]
  const VOLUME_KEYS := ["driver", "driver_opts", "labels"]
  const NETWORK_KEYS := ["driver", "driver_opts", "internal", "labels"]

  predicate Allowed(p: Patterns, r: Reading, v: Json)
  {
    && v.Object? && KeysWithin(r, v.entries, TOP_KEYS)
    && ServicesAllowed(p, r, Get(v.entries, "services"))
    && ResourcesAllowed(p, r, Get(v.entries, "volumes"), VOLUME_KEYS)
    && ResourcesAllowed(p, r, Get(v.entries, "networks"), NETWORK_KEYS)
  }

  // ---------------------------------------------------------------- the policy depends on content only

  lemma {:induction false} SameText(p: Patterns, a: Json, b: Json)
    requires SameContent(a, b)
    ensures TextOf(p, a) == TextOf(p, b)
  {
    if a.List? {
      var x := seq(|a.items|, i requires 0 <= i < |a.items| => if a.items[i].Null? then "" else TextOf(p, a.items[i]));
      var y := seq(|b.items|, i requires 0 <= i < |b.items| => if b.items[i].Null? then "" else TextOf(p, b.items[i]));
      forall i | 0 <= i < |x| ensures x[i] == y[i] {
        assert SameContent(a.items[i], b.items[i]);
        SameText(p, a.items[i], b.items[i]);
      }
      assert x == y;
    }
  }

  lemma SameKeys(r: Reading, a: seq<Entry>, b: seq<Entry>, allowed: seq<string>)
    requires r != AsWritten && Unique(a) && Unique(b) && SameContent(Object(a), Object(b))
    ensures KeysWithin(r, a, allowed) <==> KeysWithin(r, b, allowed)
  {
    if r == Strictly {
      SameTolerated(a, b, allowed);
    } else {
      SameKnown(a, b, allowed);
      SameOverlooked(a, b, allowed);
      SameGet(a, b, "");
    }
  }

  lemma SameTolerated(a: seq<Entry>, b: seq<Entry>, allowed: seq<string>)
    requires SameContent(Object(a), Object(b))
    ensures AllTolerated(a, allowed) <==> AllTolerated(b, allowed)
  {
    SameForAll(a, b, (e: Entry) => Tolerated(e, allowed));
  }

  lemma SameKnown(a: seq<Entry>, b: seq<Entry>, allowed: seq<string>)
    requires SameContent(Object(a), Object(b))
    ensures AllKnown(a, allowed) <==> AllKnown(b, allowed)
  {
    SameForAll(a, b, (e: Entry) => e.key in allowed);
  }

  lemma SameOverlooked(a: seq<Entry>, b: seq<Entry>, allowed: seq<string>)
    requires SameContent(Object(a), Object(b))
    ensures AllOverlooked(a, allowed) <==> AllOverlooked(b, allowed)
  {
    SameForAll(a, b, (e: Entry) => Overlooked(e, allowed));
  }

  /** Absent in both, or present with the same content. */
  ghost predicate SameOption(a: Option<Json>, b: Option<Json>)
  {
    (a.Some? <==> b.Some?) && (a.Some? ==> Parsed(a.value) && Parsed(b.value) && SameContent(a.value, b.value))
  }

  lemma SameLookup(a: Json, b: Json, key: string)
    requires a.Object? && Parsed(a) && Parsed(b) && SameContent(a, b)
    ensures SameOption(Get(a.entries, key), Get(b.entries, key))
  {
    SameGet(a.entries, b.entries, key);
    GetIs(a.entries, key);
    GetIs(b.entries, key);
  }

  lemma SameResource(p: Patterns, r: Reading, a: Entry, b: Entry, allowed: seq<string>)
    requires r != AsWritten
    requires SameEntry(a, b) && Parsed(a.value) && Parsed(b.value)
    ensures ResourceAllowed(p, r, a, allowed) <==> ResourceAllowed(p, r, b, allowed)
  {
    if a.value.Object? {
      SameLookup(a.value, b.value, "external");
      SameLookup(a.value, b.value, "name");
      SameKeys(r, a.value.entries, b.value.entries, allowed);
    }
  }

  lemma SameResources(p: Patterns, r: Reading, a: Option<Json>, b: Option<Json>, allowed: seq<string>)
    requires r != AsWritten
    requires SameOption(a, b)
    ensures ResourcesAllowed(p, r, a, allowed) <==> ResourcesAllowed(p, r, b, allowed)
  {
    if a.Some? && a.value.Object? {
      var x, y := a.value.entries, b.value.entries;
      forall i, j | 0 <= i < |x| && 0 <= j < |y| && SameEntry(x[i], y[j])
        ensures ResourceAllowed(p, r, x[i], allowed) <==> ResourceAllowed(p, r, y[j], allowed)
      {
        SameResource(p, r, x[i], y[j], allowed);
      }
      SameForAll(x, y, (e: Entry) => ResourceAllowed(p, r, e, allowed));
    }
  }

  lemma SameCount(a: seq<Entry>, b: seq<Entry>)
    requires Parsed(Object(a)) && Parsed(Object(b)) && SameContent(Object(a), Object(b))
    ensures |a| == |b|
  {
    CanonicalIff(Object(a), Object(b));
    SortMembers(SortedValues(a));
    SortMembers(SortedValues(b));
  }

  lemma SameRestart(p: Patterns, a: Option<Json>, b: Option<Json>)
    requires SameOption(a, b)
    ensures RestartAllowed(p, a) <==> RestartAllowed(p, b)
  {
    if a.Some? { SameText(p, a.value, b.value); }
  }

  lemma SameEnvironment(p: Patterns, a: Option<Json>, b: Option<Json>)
    requires SameOption(a, b)
    ensures EnvironmentAllowed(p, a) <==> EnvironmentAllowed(p, b)
  {
    if a.Some? && a.value.List? {
      forall i | 0 <= i < |a.value.items| ensures TextOf(p, a.value.items[i]) == TextOf(p, b.value.items[i]) {
        SameText(p, a.value.items[i], b.value.items[i]);
      }
    } else if a.Some? && a.value.Object? {
      var x, y := a.value.entries, b.value.entries;
      SameCount(x, y);
      forall i, j | 0 <= i < |x| && 0 <= j < |y| && SameEntry(x[i], y[j])
        ensures VariableAllowed(p, x[i].key, x[i].value) <==> VariableAllowed(p, y[j].key, y[j].value)
      {
        SameText(p, x[i].value, y[j].value);
      }
      SameForAll(x, y, (e: Entry) => VariableAllowed(p, e.key, e.value));
    }
  }

  lemma SameMount(p: Patterns, a: Json, b: Json)
    requires Parsed(a) && Parsed(b) && SameContent(a, b)
    ensures MountAllowed(p, a) <==> MountAllowed(p, b)
  {
    if a.Object? {
      SameLookup(a, b, "type");
      SameLookup(a, b, "source");
      SameLookup(a, b, "target");
      SameScalars(p, Get(a.entries, "type"), Get(b.entries, "type"));
      SameScalars(p, Get(a.entries, "source"), Get(b.entries, "source"));
      SameScalars(p, Get(a.entries, "target"), Get(b.entries, "target"));
    }
  }

  lemma SameScalars(p: Patterns, a: Option<Json>, b: Option<Json>)
    requires SameOption(a, b)
    ensures SourceAllowed(p, a) <==> SourceAllowed(p, b)
    ensures TargetAllowed(a) <==> TargetAllowed(b)
    ensures a == Some(Text("volume")) <==> b == Some(Text("volume"))
  {
  }

  lemma SameVolumes(p: Patterns, a: Option<Json>, b: Option<Json>)
    requires SameOption(a, b)
    ensures VolumesAllowed(p, a) <==> VolumesAllowed(p, b)
  {
    if a.Some? && a.value.List? {
      forall i | 0 <= i < |a.value.items|
        ensures MountAllowed(p, a.value.items[i]) <==> MountAllowed(p, b.value.items[i])
      {
        SameMount(p, a.value.items[i], b.value.items[i]);
      }
    }
  }

  lemma SameSecurity(p: Patterns, a: Option<Json>, b: Option<Json>)
    requires SameOption(a, b)
    ensures SecurityAllowed(p, a) <==> SecurityAllowed(p, b)
  {
    if a.Some? && a.value.List? {
      forall i | 0 <= i < |a.value.items|
        ensures a.value.items[i].Text? <==> b.value.items[i].Text?
        ensures a.value.items[i].Text? ==> a.value.items[i] == b.value.items[i]
      {
        assert SameContent(a.value.items[i], b.value.items[i]);
      }
    }
  }

  lemma SameNumber(p: Patterns, a: Json, b: Json)
    requires SameContent(a, b)
    ensures NumberOf(p, a) == NumberOf(p, b)
  {
    SameText(p, a, b);
  }

  lemma SameReservations(a: Option<Json>, b: Option<Json>)
    requires SameOption(a, b)
    ensures (match a case Some(Object(r)) => !Has(r, "devices") case _ => true)
      <==> (match b case Some(Object(r)) => !Has(r, "devices") case _ => true)
  {
    if a.Some? && a.value.Object? { SameLookup(a.value, b.value, "devices"); }
  }

  predicate BoundsAllowed(p: Patterns, limits: Option<Json>)
  {
    match limits
    case Some(Object(l)) => CpusAllowed(p, Get(l, "cpus")) && MemoryAllowed(p, Get(l, "memory"))
    case _ => false
  }

  lemma SameBounds(p: Patterns, a: Option<Json>, b: Option<Json>)
    requires SameOption(a, b)
    ensures BoundsAllowed(p, a) <==> BoundsAllowed(p, b)
  {
    if a.Some? && a.value.Object? {
      var l, l' := a.value, b.value;
      SameLookup(l, l', "cpus");
      SameLookup(l, l', "memory");
      if Has(l.entries, "cpus") { SameNumber(p, Get(l.entries, "cpus").value, Get(l'.entries, "cpus").value); }
    }
  }

  lemma SameLimits(p: Patterns, r: Reading, a: Json, b: Json)
    requires r != AsWritten
    requires Parsed(a) && Parsed(b) && SameContent(a, b)
    ensures LimitsAllowed(p, r, a) <==> LimitsAllowed(p, r, b)
  {
    if a.Object? {
      SameKeys(r, a.entries, b.entries, RESOURCE_KEYS);
      SameLookup(a, b, "reservations");
      SameLookup(a, b, "limits");
      SameReservations(Get(a.entries, "reservations"), Get(b.entries, "reservations"));
      SameBounds(p, Get(a.entries, "limits"), Get(b.entries, "limits"));
    }
  }

  lemma SameDeploy(p: Patterns, r: Reading, a: Option<Json>, b: Option<Json>)
    requires r != AsWritten
    requires SameOption(a, b)
    ensures DeployAllowed(p, r, a) <==> DeployAllowed(p, r, b)
  {
    if a.Some? && a.value.Object? {
      SameKeys(r, a.value.entries, b.value.entries, DEPLOY_KEYS);
      SameLookup(a.value, b.value, "placement");
      SameLookup(a.value, b.value, "resources");
      if Has(a.value.entries, "resources") {
        SameLimits(p, r, Get(a.value.entries, "resources").value, Get(b.value.entries, "resources").value);
      }
    }
  }

  lemma SameNone(a: Json, b: Json, forbidden: seq<string>)
    requires a.Object? && Parsed(a) && Parsed(b) && SameContent(a, b)
    ensures NoneOf(a.entries, forbidden) <==> NoneOf(b.entries, forbidden)
  {
    forall i | 0 <= i < |forbidden| ensures Has(a.entries, forbidden[i]) <==> Has(b.entries, forbidden[i]) {
      SameLookup(a, b, forbidden[i]);
    }
  }

  lemma SameService(p: Patterns, r: Reading, a: Entry, b: Entry)
    requires r != AsWritten
    requires SameEntry(a, b) && Parsed(a.value) && Parsed(b.value)
    ensures ServiceAllowed(p, r, a) <==> ServiceAllowed(p, r, b)
  {
    if a.value.Object? {
      var x, y := a.value, b.value;
      SameKeys(r, x.entries, y.entries, SERVICE_KEYS);
      SameNone(x, y, FORBIDDEN);
      SameLookup(x, y, "image");
      SameLookup(x, y, "restart");
      SameLookup(x, y, "environment");
      SameLookup(x, y, "volumes");
      SameLookup(x, y, "security_opt");
      SameLookup(x, y, "deploy");
      SameRestart(p, Get(x.entries, "restart"), Get(y.entries, "restart"));
      SameEnvironment(p, Get(x.entries, "environment"), Get(y.entries, "environment"));
      SameVolumes(p, Get(x.entries, "volumes"), Get(y.entries, "volumes"));
      SameSecurity(p, Get(x.entries, "security_opt"), Get(y.entries, "security_opt"));
      SameDeploy(p, r, Get(x.entries, "deploy"), Get(y.entries, "deploy"));
    }
  }

  lemma SameServices(p: Patterns, r: Reading, a: Option<Json>, b: Option<Json>)
    requires r != AsWritten
    requires SameOption(a, b)
    ensures ServicesAllowed(p, r, a) <==> ServicesAllowed(p, r, b)
  {
    if a.Some? && a.value.Object? {
      var x, y := a.value.entries, b.value.entries;
      SameCount(x, y);
      forall i, j | 0 <= i < |x| && 0 <= j < |y| && SameEntry(x[i], y[j])
        ensures ServiceAllowed(p, r, x[i]) <==> ServiceAllowed(p, r, y[j])
      {
        SameService(p, r, x[i], y[j]);
      }
      SameForAll(x, y, (e: Entry) => ServiceAllowed(p, r, e));
    }
  }

  lemma SameAllowed(p: Patterns, r: Reading, a: Json, b: Json)
    requires r != AsWritten
    requires Parsed(a) && Parsed(b) && SameContent(a, b)
    ensures Allowed(p, r, a) <==> Allowed(p, r, b)
  {
    if a.Object? {
      SameKeys(r, a.entries, b.entries, TOP_KEYS);
      SameLookup(a, b, "services");
      SameLookup(a, b, "volumes");
      SameLookup(a, b, "networks");
      SameServices(p, r, Get(a.entries, "services"), Get(b.entries, "services"));
      SameResources(p, r, Get(a.entries, "volumes"), Get(b.entries, "volumes"), VOLUME_KEYS);
      SameResources(p, r, Get(a.entries, "networks"), Get(b.entries, "networks"), NETWORK_KEYS);
    }
  }

  // ---------------------------------------------------------------- default limits

  /** Assigning a property: in place if it is there, at the end if it is not. */
  function Put(entries: seq<Entry>, key: string, value: Json): seq<Entry>
  {
    if entries == [] then [Entry(key, value)]
    else if entries[0].key == key then [Entry(key, value)] + entries[1..]
    else [entries[0]] + Put(entries[1..], key, value)
  }

  function WithDefaults(deploy: Option<Json>): Json
  {
    match deploy
    case None => Object([Entry("resources", DEFAULT_LIMITS)])
    case Some(Object(d)) => if Has(d, "resources") then Object(d) else Object(Put(d, "resources", DEFAULT_LIMITS))
    case Some(other) => other
  }

  function InjectService(service: Json): Json
  {
    if service.Object? then Object(Put(service.entries, "deploy", WithDefaults(Get(service.entries, "deploy"))))
      else service
  }

  function InjectAll(services: seq<Entry>): seq<Entry>
  {
    if services == [] then [] else [Entry(services[0].key, InjectService(services[0].value))] + InjectAll(services[1..])
  }

  /** The document with default limits for every service that names none. */
  function Injected(v: Json): Json
  {
    if !v.Object? then v
    else match Get(v.entries, "services")
      case Some(Object(services)) => Object(Put(v.entries, "services", Object(InjectAll(services))))
      case _ => v
  }

  function Normal(v: Json): Json { SortObject(Injected(v)) }

  lemma {:induction false} PutGet(entries: seq<Entry>, key: string, value: Json, other: string)
    ensures Get(Put(entries, key, value), other) == if other == key then Some(value) else Get(entries, other)
  {
    if entries != [] {
      PutGet(entries[1..], key, value, other);
      if entries[0].key == key {
        assert Put(entries, key, value)[1..] == entries[1..];
      } else {
        assert Put(entries, key, value)[1..] == Put(entries[1..], key, value);
      }
    }
  }

  lemma {:induction false} PutSame(entries: seq<Entry>, key: string)
    requires Has(entries, key)
    ensures Put(entries, key, Get(entries, key).value) == entries
  {
    if entries[0].key == key {
      assert entries == [entries[0]] + entries[1..];
    } else {
      PutSame(entries[1..], key);
    }
  }

  ghost predicate AllParsed(entries: seq<Entry>) { forall i :: 0 <= i < |entries| ==> Parsed(entries[i].value) }

  lemma {:induction false} PutParsed(entries: seq<Entry>, key: string, value: Json)
    requires Unique(entries) && AllParsed(entries) && Parsed(value)
    ensures var r := Put(entries, key, value);
      && Unique(r) && AllParsed(r)
      && forall i :: 0 <= i < |r| ==> r[i].key == key || exists j :: 0 <= j < |entries| && entries[j].key == r[i].key
  {
    if entries != [] && entries[0].key != key {
      PutParsed(entries[1..], key, value);
      var rest := Put(entries[1..], key, value);
      forall i | 0 <= i < |rest|
        ensures rest[i].key == key || exists j :: 0 <= j < |entries| && entries[j].key == rest[i].key
      {
        if rest[i].key != key {
          var j :| 0 <= j < |entries[1..]| && entries[1..][j].key == rest[i].key;
          assert entries[j + 1].key == rest[i].key;
        }
      }
      forall i | 0 <= i < |rest| ensures rest[i].key != entries[0].key {
        if rest[i].key != key {
          var j :| 0 <= j < |entries[1..]| && entries[1..][j].key == rest[i].key;
        }
      }
    }
  }

  /** Mappings that answer every lookup alike have the same content. */
  lemma SameByKeys(a: seq<Entry>, b: seq<Entry>)
    requires Unique(a) && Unique(b)
    requires forall key :: SameOption(Get(a, key), Get(b, key))
    ensures SameContent(Object(a), Object(b))
  {
    forall i | 0 <= i < |a| ensures HasTwin(a[i], b) {
      GetIs(a, a[i].key);
      GetIs(b, a[i].key);
      assert SameOption(Get(a, a[i].key), Get(b, a[i].key));
      var j :| 0 <= j < |b| && b[j] == Entry(a[i].key, Get(b, a[i].key).value);
      assert SameEntry(a[i], b[j]);
    }
    forall j | 0 <= j < |b| ensures IsTwin(Object(a), b[j]) {
      GetIs(a, b[j].key);
      GetIs(b, b[j].key);
      assert SameOption(Get(a, b[j].key), Get(b, b[j].key));
      var i :| 0 <= i < |a| && a[i] == Entry(b[j].key, Get(a, b[j].key).value);
      assert SameEntry(Object(a).entries[i], b[j]);
    }
  }

  lemma SamePut(a: seq<Entry>, b: seq<Entry>, key: string, u: Json, v: Json)
    requires Parsed(Object(a)) && Parsed(Object(b)) && SameContent(Object(a), Object(b))
    requires Parsed(u) && Parsed(v) && SameContent(u, v)
    ensures Parsed(Object(Put(a, key, u))) && Parsed(Object(Put(b, key, v)))
    ensures SameContent(Object(Put(a, key, u)), Object(Put(b, key, v)))
  {
    PutParsed(a, key, u);
    PutParsed(b, key, v);
    forall k ensures SameOption(Get(Put(a, key, u), k), Get(Put(b, key, v), k)) {
      PutGet(a, key, u, k);
      PutGet(b, key, v, k);
      SameLookup(Object(a), Object(b), k);
    }
    SameByKeys(Put(a, key, u), Put(b, key, v));
  }

  lemma SameSelf(v: Json)
    requires Parsed(v)
    ensures SameContent(v, v)
  {
    CanonicalIff(v, v);
  }

  lemma SameDefaults(a: Option<Json>, b: Option<Json>)
    requires SameOption(a, b)
    ensures Parsed(WithDefaults(a)) && Parsed(WithDefaults(b)) && SameContent(WithDefaults(a), WithDefaults(b))
  {
    DefaultsParsed();
    SameSelf(DEFAULT_LIMITS);
    SameSelf(Object([Entry("resources", DEFAULT_LIMITS)]));
    if a.Some? && a.value.Object? {
      SameLookup(a.value, b.value, "resources");
      SamePut(a.value.entries, b.value.entries, "resources", DEFAULT_LIMITS, DEFAULT_LIMITS);
    }
  }

  lemma DefaultsParsed()
    ensures Parsed(DEFAULT_LIMITS) && Parsed(Object([Entry("resources", DEFAULT_LIMITS)]))
  {
    var inner := Object([Entry("cpus", Text("1.0")), Entry("memory", Text("512M"))]);
    assert "cpus" != "memory" by { assert "cpus"[0] != "memory"[0]; }
    assert Parsed(inner);
  }

  lemma SameInjectService(a: Json, b: Json)
    requires Parsed(a) && Parsed(b) && SameContent(a, b)
    ensures Parsed(InjectService(a)) && Parsed(InjectService(b)) && SameContent(InjectService(a), InjectService(b))
  {
    if a.Object? {
      SameLookup(a, b, "deploy");
      SameDefaults(Get(a.entries, "deploy"), Get(b.entries, "deploy"));
      SamePut(a.entries, b.entries, "deploy", WithDefaults(Get(a.entries, "deploy")),
              WithDefaults(Get(b.entries, "deploy")));
    }
  }

  lemma {:induction false} InjectAllAre(services: seq<Entry>)
    ensures |InjectAll(services)| == |services|
    ensures forall i :: 0 <= i < |services| ==>
      InjectAll(services)[i] == Entry(services[i].key, InjectService(services[i].value))
  {
    if services != [] { InjectAllAre(services[1..]); }
  }

  lemma SameInjectAll(a: seq<Entry>, b: seq<Entry>)
    requires Parsed(Object(a)) && Parsed(Object(b)) && SameContent(Object(a), Object(b))
    ensures Parsed(Object(InjectAll(a))) && Parsed(Object(InjectAll(b)))
      && SameContent(Object(InjectAll(a)), Object(InjectAll(b)))
  {
    InjectAllParsed(a);
    InjectAllParsed(b);
    InjectAllAre(a);
    InjectAllAre(b);
    var x, y := InjectAll(a), InjectAll(b);
    forall i | 0 <= i < |x| ensures HasTwin(x[i], y) {
      assert HasTwin(a[i], b);
      var j :| 0 <= j < |b| && SameEntry(a[i], b[j]);
      SameInjectService(a[i].value, b[j].value);
      assert SameEntry(x[i], y[j]);
    }
    forall j | 0 <= j < |y| ensures IsTwin(Object(x), y[j]) {
      assert IsTwin(Object(a), b[j]);
      var i :| 0 <= i < |a| && SameEntry(Object(a).entries[i], b[j]);
      SameInjectService(a[i].value, b[j].value);
      assert SameEntry(Object(x).entries[i], y[j]);
    }
  }

  lemma InjectAllParsed(services: seq<Entry>)
    requires Parsed(Object(services))
    ensures Parsed(Object(InjectAll(services)))
  {
    InjectAllAre(services);
    forall i | 0 <= i < |services| ensures Parsed(InjectAll(services)[i].value) {
      SameSelf(services[i].value);
      SameInjectService(services[i].value, services[i].value);
    }
  }

  lemma SameInjected(a: Json, b: Json)
    requires Parsed(a) && Parsed(b) && SameContent(a, b)
    ensures Parsed(Injected(a)) && Parsed(Injected(b)) && SameContent(Injected(a), Injected(b))
  {
    if a.Object? {
      SameLookup(a, b, "services");
      var x, y := Get(a.entries, "services"), Get(b.entries, "services");
      if x.Some? && x.value.Object? {
        SameInjectAll(x.value.entries, y.value.entries);
        SamePut(a.entries, b.entries, "services", Object(InjectAll(x.value.entries)),
                Object(InjectAll(y.value.entries)));
      }
    }
  }

  /** The normal form of a document does not depend on the order of its keys. */
  lemma OrderDoesNotMatter(a: Json, b: Json)
    requires Parsed(a) && Parsed(b) && SameContent(a, b)
    ensures Normal(a) == Normal(b)
  {
    SameInjected(a, b);
    CanonicalIff(Injected(a), Injected(b));
  }

  // ---------------------------------------------------------------- the normal form

  lemma {:induction false} SortSame(v: Json)
    requires Parsed(v)
    ensures Parsed(SortObject(v)) && SameContent(v, SortObject(v))
    decreases v
  {
    match v {
      case List(items) =>
        forall i | 0 <= i < |items|
          ensures Parsed(SortObject(v).items[i]) && SameContent(items[i], SortObject(v).items[i])
        {
          SortSame(items[i]);
        }
      case Object(entries) =>
        forall i | 0 <= i < |entries|
          ensures Parsed(SortObject(entries[i].value)) && SameContent(entries[i].value, SortObject(entries[i].value))
        {
          SortSame(entries[i].value);
        }
        SortedEntriesSame(entries);
      case _ =>
    }
  }

  lemma SortedEntriesSame(entries: seq<Entry>)
    requires Unique(entries)
    requires forall i :: 0 <= i < |entries| ==>
      Parsed(SortObject(entries[i].value)) && SameContent(entries[i].value, SortObject(entries[i].value))
    ensures var y := Sort(SortedValues(entries));
      Parsed(Object(y)) && SameContent(Object(entries), Object(y))
  {
    SortMembers(SortedValues(entries));
    ArrangedSame(entries, SortedValues(entries), Sort(SortedValues(entries)));
  }

  /** Entries whose values keep their content, in any order. */
  lemma ArrangedSame(entries: seq<Entry>, x: seq<Entry>, y: seq<Entry>)
    requires |x| == |entries| && Unique(y) && forall e :: e in x <==> e in y
    requires forall i :: 0 <= i < |x| ==> SameEntry(entries[i], x[i]) && Parsed(x[i].value)
    ensures Parsed(Object(y)) && SameContent(Object(entries), Object(y))
  {
    forall j | 0 <= j < |y| ensures Parsed(y[j].value) && IsTwin(Object(entries), y[j]) {
      assert y[j] in y;
      var i :| 0 <= i < |x| && x[i] == y[j];
      assert SameEntry(Object(entries).entries[i], y[j]);
    }
    forall i | 0 <= i < |entries| ensures HasTwin(entries[i], y) {
      assert x[i] in y;
      var j :| 0 <= j < |y| && y[j] == x[i];
      assert SameEntry(entries[i], y[j]);
    }
  }

  predicate NamesLimits(service: Json)
  {
    service.Object? && match Get(service.entries, "deploy") case Some(Object(d)) => Has(d, "resources") case _ => false
  }

  /** Every service names its resources. */
  predicate Complete(v: Json)
  {
    v.Object? && match Get(v.entries, "services")
      case Some(Object(services)) => forall i :: 0 <= i < |services| ==> NamesLimits(services[i].value)
      case _ => false
  }

  lemma CompleteUnchanged(v: Json)
    requires Complete(v)
    ensures Injected(v) == v
  {
    var services := Get(v.entries, "services").value.entries;
    InjectAllAre(services);
    forall i | 0 <= i < |services| ensures InjectAll(services)[i] == services[i] {
      PutSame(services[i].value.entries, "deploy");
    }
    assert InjectAll(services) == services;
    PutSame(v.entries, "services");
  }

  lemma InjectedService(p: Patterns, r: Reading, e: Entry)
    requires ServiceAllowed(p, r, e) && ReadsDefaults(p) && Parsed(e.value)
    ensures NamesLimits(InjectService(e.value)) && ServiceAllowed(p, r, Entry(e.key, InjectService(e.value)))
  {
    var deploy := Get(e.value.entries, "deploy");
    DefaultsAllowed(p, r, deploy);
    DeployKeyAllowed();
    PutWithin(r, e.value.entries, "deploy", WithDefaults(deploy), SERVICE_KEYS);
    OtherKeysKept(e.value.entries, WithDefaults(deploy));
    StillNone(e.value.entries, WithDefaults(deploy));
  }

  lemma StillNone(entries: seq<Entry>, deploy: Json)
    requires NoneOf(entries, FORBIDDEN)
    ensures NoneOf(Put(entries, "deploy", deploy), FORBIDDEN)
  {
    forall i | 0 <= i < |FORBIDDEN| ensures !Has(Put(entries, "deploy", deploy), FORBIDDEN[i]) {
      assert |FORBIDDEN[i]| == 6 ==> FORBIDDEN[i][0] == 'e';
      PutGet(entries, "deploy", deploy, FORBIDDEN[i]);
    }
  }

  lemma DeployKeyAllowed()
    ensures "deploy" in SERVICE_KEYS
  {
    assert SERVICE_KEYS[12] == "deploy";
  }

  lemma OtherKeysKept(entries: seq<Entry>, deploy: Json)
    ensures Get(Put(entries, "deploy", deploy), "deploy") == Some(deploy)
    ensures Get(Put(entries, "deploy", deploy), "image") == Get(entries, "image")
    ensures Get(Put(entries, "deploy", deploy), "restart") == Get(entries, "restart")
    ensures Get(Put(entries, "deploy", deploy), "environment") == Get(entries, "environment")
    ensures Get(Put(entries, "deploy", deploy), "volumes") == Get(entries, "volumes")
    ensures Get(Put(entries, "deploy", deploy), "security_opt") == Get(entries, "security_opt")
  {
    Differ();
    forall k ensures Get(Put(entries, "deploy", deploy), k) == if k == "deploy" then Some(deploy) else Get(entries, k) {
      PutGet(entries, "deploy", deploy, k);
    }
  }

  /** The property names that are looked up are not `deploy`. */
  lemma Differ()
    ensures "image" != "deploy" && "restart" != "deploy" && "environment" != "deploy" && "volumes" != "deploy"
      && "security_opt" != "deploy"
    ensures "services" != "volumes" && "services" != "networks" && "limits" != "reservations" && "memory" != "cpus"
  {
    assert "image"[0] != "deploy"[0] && "restart"[0] != "deploy"[0] && "environment"[0] != "deploy"[0];
    assert "volumes"[0] != "deploy"[0] && "security_opt"[0] != "deploy"[0];
    assert "services"[0] != "volumes"[0] && "services"[0] != "networks"[0] && "limits"[0] != "reservations"[0]
      && "memory"[0] != "cpus"[0];
  }

  lemma {:induction false} PutUnknown(entries: seq<Entry>, key: string, value: Json, indices: bool,
                                      allowed: seq<string>)
    requires key in allowed
    ensures FirstUnknown(Put(entries, key, value), indices, allowed) == FirstUnknown(entries, indices, allowed)
  {
    if entries != [] {
      PutUnknown(entries[1..], key, value, indices, allowed);
      if entries[0].key == key {
        assert Put(entries, key, value)[1..] == entries[1..];
      } else {
        assert Put(entries, key, value)[1..] == Put(entries[1..], key, value);
      }
    } else {
      assert Put(entries, key, value)[1..] == [];
    }
  }

  ghost predicate HasKey(entries: seq<Entry>, key: string) { exists j :: 0 <= j < |entries| && entries[j].key == key }

  lemma {:induction false} PutKeys(entries: seq<Entry>, key: string, value: Json)
    ensures forall i :: 0 <= i < |Put(entries, key, value)| ==>
      Put(entries, key, value)[i].key == key || HasKey(entries, Put(entries, key, value)[i].key)
  {
    if entries != [] {
      PutKeys(entries[1..], key, value);
      forall k | HasKey(entries[1..], k) ensures HasKey(entries, k) {
        var j :| 0 <= j < |entries[1..]| && entries[1..][j].key == k;
        assert entries[j + 1].key == k;
      }
      forall j | 0 <= j < |entries| ensures HasKey(entries, entries[j].key) {}
    }
  }

  /** A supported key that is assigned does not change what the check of keys makes of a mapping. */
  lemma PutWithin(r: Reading, entries: seq<Entry>, key: string, value: Json, allowed: seq<string>)
    requires KeysWithin(r, entries, allowed) && key in allowed
    ensures KeysWithin(r, Put(entries, key, value), allowed)
  {
    PutUnknown(entries, key, value, true, allowed);
    PutUnknown(entries, key, value, false, allowed);
    PutKeys(entries, key, value);
    PutGet(entries, key, value, "");
  }

  lemma LimitsOfDefaults(p: Patterns, r: Reading)
    requires ReadsDefaults(p)
    ensures LimitsAllowed(p, r, DEFAULT_LIMITS)
  {
    var l := [Entry("cpus", Text("1.0")), Entry("memory", Text("512M"))];
    Differ();
    assert Get(l[1..], "memory") == Some(Text("512M"));
    assert Get(DEFAULT_LIMITS.entries, "limits") == Some(Object(l));
    assert Get(DEFAULT_LIMITS.entries[1..], "reservations") == None;
    assert "limits" in RESOURCE_KEYS;
  }

  lemma DefaultsAllowed(p: Patterns, r: Reading, deploy: Option<Json>)
    requires DeployAllowed(p, r, deploy) && ReadsDefaults(p)
    ensures WithDefaults(deploy).Object? && Has(WithDefaults(deploy).entries, "resources")
    ensures DeployAllowed(p, r, Some(WithDefaults(deploy)))
  {
    LimitsOfDefaults(p, r);
    var allowed := DEPLOY_KEYS;
    assert allowed[0] == "resources";
    assert "placement"[0] != "resources"[0];
    PutWithin(r, [], "resources", DEFAULT_LIMITS, allowed);
    PutGet([], "resources", DEFAULT_LIMITS, "placement");
    PutGet([], "resources", DEFAULT_LIMITS, "resources");
    if deploy.Some? && !Has(deploy.value.entries, "resources") {
      PutGet(deploy.value.entries, "resources", DEFAULT_LIMITS, "placement");
      PutGet(deploy.value.entries, "resources", DEFAULT_LIMITS, "resources");
      PutWithin(r, deploy.value.entries, "resources", DEFAULT_LIMITS, allowed);
    }
  }

  /** An accepted document is still accepted with its default limits, and then every service names its resources. */
  lemma InjectedIsAllowed(p: Patterns, r: Reading, v: Json)
    requires Parsed(v) && Allowed(p, r, v) && ReadsDefaults(p)
    ensures Allowed(p, r, Injected(v)) && Complete(Injected(v))
  {
    var services := Get(v.entries, "services").value.entries;
    GetIs(v.entries, "services");
    InjectAllAre(services);
    forall i | 0 <= i < |services|
      ensures ServiceAllowed(p, r, InjectAll(services)[i]) && NamesLimits(InjectAll(services)[i].value)
    {
      InjectedService(p, r, services[i]);
    }
    Differ();
    PutGet(v.entries, "services", Object(InjectAll(services)), "services");
    PutGet(v.entries, "services", Object(InjectAll(services)), "volumes");
    PutGet(v.entries, "services", Object(InjectAll(services)), "networks");
    var top := TOP_KEYS;
    assert top[0] == "services";
    PutWithin(r, v.entries, "services", Object(InjectAll(services)), top);
  }

  lemma SameNamesLimits(a: Json, b: Json)
    requires Parsed(a) && Parsed(b) && SameContent(a, b)
    ensures NamesLimits(a) <==> NamesLimits(b)
  {
    if a.Object? {
      SameLookup(a, b, "deploy");
      var d, d' := Get(a.entries, "deploy"), Get(b.entries, "deploy");
      if d.Some? && d.value.Object? { SameLookup(d.value, d'.value, "resources"); }
    }
  }

  lemma SameComplete(a: Json, b: Json)
    requires Parsed(a) && Parsed(b) && SameContent(a, b)
    ensures Complete(a) <==> Complete(b)
  {
    if a.Object? {
      SameLookup(a, b, "services");
      var s, s' := Get(a.entries, "services"), Get(b.entries, "services");
      if s.Some? && s.value.Object? {
        var x, y := s.value.entries, s'.value.entries;
        forall i, j | 0 <= i < |x| && 0 <= j < |y| && SameEntry(x[i], y[j])
          ensures NamesLimits(x[i].value) <==> NamesLimits(y[j].value)
        {
          SameNamesLimits(x[i].value, y[j].value);
        }
        SameForAll(x, y, (e: Entry) => NamesLimits(e.value));
      }
    }
  }

  /** A document with a canonical normal form: allowed if unsupported keys beside an empty one are overlooked. */
  lemma NormalIsComplete(p: Patterns, r: Reading, v: Json)
    requires Parsed(v) && Allowed(p, r, v) && ReadsDefaults(p) && r != AsWritten
    ensures Parsed(Normal(v)) && Allowed(p, r, Normal(v)) && Complete(Normal(v)) && Normal(Normal(v)) == Normal(v)
  {
    var w := Injected(v);
    SameSelf(v);
    SameInjected(v, v);
    InjectedIsAllowed(p, r, v);
    SortSame(w);
    SameAllowed(p, r, w, SortObject(w));
    SameComplete(w, SortObject(w));
    CompleteUnchanged(SortObject(w));
    CanonicalIff(w, SortObject(w));
  }

  /**
   * The normal form of an accepted document is accepted, satisfies the whole policy, needs no further defaults, and is
   * its own normal form.
   */
  lemma NormalIsFixed(p: Patterns, v: Json)
    requires Parsed(v) && Allowed(p, AsWritten, v) && ReadsDefaults(p)
    ensures Parsed(Normal(v)) && Allowed(p, AsWritten, Normal(v)) && Complete(Normal(v))
    ensures Normal(Normal(v)) == Normal(v)
  {
    ReadingsNest(p, v);
    NormalIsComplete(p, Leniently, v);
    SameSelf(v);
    SameInjected(v, v);
    SortedIff(p, Injected(v));
    SortSame(Injected(v));
    SameAllowed(p, Leniently, Injected(v), Normal(v));
  }

  function DeploySetting(service: Json, key: string): Option<Json>
    requires service.Object?
  {
    match Get(service.entries, "deploy") case Some(Object(d)) => Get(d, key) case _ => None
  }

  function ServicesOf(v: Json): seq<Entry>
  {
    if !v.Object? then [] else match Get(v.entries, "services") case Some(Object(services)) => services case _ => []
  }

  /** Beside its services a document is untouched. */
  lemma InjectedParts(p: Patterns, r: Reading, v: Json, key: string)
    requires Allowed(p, r, v)
    ensures Injected(v).Object? && ServicesOf(Injected(v)) == InjectAll(ServicesOf(v))
    ensures key != "services" ==> Get(Injected(v).entries, key) == Get(v.entries, key)
  {
    PutGet(v.entries, "services", Object(InjectAll(ServicesOf(v))), key);
    PutGet(v.entries, "services", Object(InjectAll(ServicesOf(v))), "services");
  }

  /** Below `services` nothing but `deploy.resources` is added, and only where it was missing. */
  lemma OnlyResourcesAdded(p: Patterns, r: Reading, v: Json, name: string, key: string)
    requires Parsed(v) && Allowed(p, r, v)
    ensures Has(ServicesOf(Injected(v)), name) <==> Has(ServicesOf(v), name)
    ensures Has(ServicesOf(v), name) ==>
      var s, t := Get(ServicesOf(v), name).value, Get(ServicesOf(Injected(v)), name).value;
      s.Object? && OnlyLimitsAdded(s, t, key)
  {
    InjectedParts(p, r, v, key);
    var services := ServicesOf(v);
    InjectedGet(services, name);
    GetIs(services, name);
    if Has(services, name) {
      var i :| 0 <= i < |services| && services[i] == Entry(name, Get(services, name).value);
      assert ServiceAllowed(p, r, services[i]);
      ServiceDifference(p, r, services[i], key);
    }
  }

  predicate OnlyLimitsAdded(s: Json, t: Json, key: string)
    requires s.Object?
  {
    && t.Object? && (key != "deploy" ==> Get(t.entries, key) == Get(s.entries, key)) && (NamesLimits(s) ==> t == s)
    && NamesLimits(t) && (key != "resources" ==> DeploySetting(t, key) == DeploySetting(s, key))
  }

  lemma {:induction false} InjectedGet(services: seq<Entry>, name: string)
    ensures Get(InjectAll(services), name) == if Has(services, name)
      then Some(InjectService(Get(services, name).value)) else None
  {
    if services != [] {
      InjectedGet(services[1..], name);
      assert InjectAll(services)[1..] == InjectAll(services[1..]);
    }
  }

  lemma ServiceDifference(p: Patterns, r: Reading, e: Entry, key: string)
    requires ServiceAllowed(p, r, e)
    ensures OnlyLimitsAdded(e.value, InjectService(e.value), key)
  {
    var entries, deploy := e.value.entries, Get(e.value.entries, "deploy");
    PutGet(entries, "deploy", WithDefaults(deploy), key);
    PutGet(entries, "deploy", WithDefaults(deploy), "deploy");
    if NamesLimits(e.value) { PutSame(entries, "deploy"); }
    if deploy.Some? {
      PutGet(deploy.value.entries, "resources", DEFAULT_LIMITS, key);
      PutGet(deploy.value.entries, "resources", DEFAULT_LIMITS, "resources");
    } else if key != "resources" {
      assert Get([Entry("resources", DEFAULT_LIMITS)][1..], key) == None;
    }
  }

  // ---------------------------------------------------------------- where the order of keys matters

  /** An unsupported key passes if it is the empty one, or if it is no index and comes after the empty one. */
  ghost predicate PassesAt(entries: seq<Entry>, j: nat, allowed: seq<string>)
    requires j < |entries|
  {
    Tolerated(entries[j], allowed)
    || (!IsIndex(entries[j].key) && exists i :: 0 <= i < j && entries[i].key == "")
  }

  lemma {:induction false} NoUnknownIff(entries: seq<Entry>, indices: bool, allowed: seq<string>)
    ensures FirstUnknown(entries, indices, allowed).None?
      <==> forall j :: 0 <= j < |entries| && IsIndex(entries[j].key) == indices ==> entries[j].key in allowed
  {
    if entries != [] {
      NoUnknownIff(entries[1..], indices, allowed);
      assert forall j :: 1 <= j < |entries| ==> entries[j] == entries[1..][j - 1];
    }
  }

  lemma {:induction false} EmptyFirstUnknownIff(entries: seq<Entry>, allowed: seq<string>)
    requires "" !in allowed
    ensures var key := FirstUnknown(entries, false, allowed);
      key.None? || key.value == ""
      <==> forall j :: 0 <= j < |entries| && !IsIndex(entries[j].key) ==> PassesAt(entries, j, allowed)
  {
    if entries != [] {
      var rest := entries[1..];
      EmptyFirstUnknownIff(rest, allowed);
      if entries[0].key == "" {
        forall j | 0 <= j < |entries| && !IsIndex(entries[j].key) ensures PassesAt(entries, j, allowed) {
          if j > 0 { assert entries[0].key == ""; }
        }
      } else {
        forall j | 0 <= j < |rest| ensures PassesAt(rest, j, allowed) <==> PassesAt(entries, j + 1, allowed) {
          PassesLater(entries, j, allowed);
        }
        assert forall j :: 1 <= j < |entries| ==> entries[j] == rest[j - 1];
        ShiftedIff(entries, allowed);
      }
    }
  }

  lemma PassesLater(entries: seq<Entry>, j: nat, allowed: seq<string>)
    requires j + 1 < |entries| && entries[0].key != ""
    ensures PassesAt(entries[1..], j, allowed) <==> PassesAt(entries, j + 1, allowed)
  {
    var rest := entries[1..];
    if i :| 0 <= i < j + 1 && entries[i].key == "" { assert rest[i - 1].key == ""; }
    if i :| 0 <= i < j && rest[i].key == "" { assert entries[i + 1].key == ""; }
  }

  lemma ShiftedIff(entries: seq<Entry>, allowed: seq<string>)
    requires entries != [] && entries[0].key != ""
    requires forall j :: 0 <= j < |entries[1..]| ==>
      (PassesAt(entries[1..], j, allowed) <==> PassesAt(entries, j + 1, allowed))
    ensures (forall j :: 0 <= j < |entries| && !IsIndex(entries[j].key) ==> PassesAt(entries, j, allowed))
      <==> (IsIndex(entries[0].key) || entries[0].key in allowed)
           && forall j :: 0 <= j < |entries[1..]| && !IsIndex(entries[1..][j].key) ==>
             PassesAt(entries[1..], j, allowed)
  {
    var rest := entries[1..];
    if forall j :: 0 <= j < |entries| && !IsIndex(entries[j].key) ==> PassesAt(entries, j, allowed) {
      assert !IsIndex(entries[0].key) ==> PassesAt(entries, 0, allowed);
      forall j | 0 <= j < |rest| && !IsIndex(rest[j].key) ensures PassesAt(rest, j, allowed) {
        assert rest[j] == entries[j + 1];
        assert PassesAt(entries, j + 1, allowed);
      }
    } else {
      var j :| 0 <= j < |entries| && !IsIndex(entries[j].key) && !PassesAt(entries, j, allowed);
      if j > 0 {
        assert rest[j - 1] == entries[j];
        assert !PassesAt(rest, j - 1, allowed);
      }
    }
  }

  /** What the check of keys lets pass: every unsupported key is the empty one, or no index and after the empty one. */
  lemma KeysPassIff(entries: seq<Entry>, allowed: seq<string>)
    requires "" !in allowed
    ensures KeysPass(entries, allowed) <==> forall j :: 0 <= j < |entries| ==> PassesAt(entries, j, allowed)
  {
    NoUnknownIff(entries, true, allowed);
    EmptyFirstUnknownIff(entries, allowed);
    assert !IsIndex("");
    IndexRefused(entries, allowed);
    if forall j :: 0 <= j < |entries| ==> PassesAt(entries, j, allowed) {
      forall j | 0 <= j < |entries| && IsIndex(entries[j].key) ensures entries[j].key in allowed {
        assert PassesAt(entries, j, allowed);
      }
    }
    if KeysPass(entries, allowed) {
      forall j | 0 <= j < |entries| ensures PassesAt(entries, j, allowed) {
        if IsIndex(entries[j].key) { assert entries[j].key in allowed; }
      }
    }
  }

  lemma {:induction false} IndexRefused(entries: seq<Entry>, allowed: seq<string>)
    ensures var key := FirstUnknown(entries, true, allowed);
      key.Some? ==> key.value != ""
  {
    if entries != [] { IndexRefused(entries[1..], allowed); }
  }

  /** One mapping: supported keys only, then the empty key too, then what passes, then anything beside an empty key. */
  lemma KeysNest(entries: seq<Entry>, allowed: seq<string>)
    requires "" !in allowed
    ensures KeysWithin(Intended, entries, allowed) ==> KeysWithin(Strictly, entries, allowed)
    ensures KeysWithin(Strictly, entries, allowed) ==> KeysWithin(AsWritten, entries, allowed)
    ensures KeysWithin(AsWritten, entries, allowed) ==> KeysWithin(Leniently, entries, allowed)
  {
    KeysPassIff(entries, allowed);
    GetIs(entries, "");
    if KeysWithin(Strictly, entries, allowed) {
      forall j | 0 <= j < |entries| ensures PassesAt(entries, j, allowed) {
        assert Tolerated(entries[j], allowed);
      }
    }
    if KeysPass(entries, allowed) {
      assert !IsIndex("");
      forall j | 0 <= j < |entries|
        ensures Overlooked(entries[j], allowed) && (Has(entries, "") || entries[j].key in allowed)
      {
        assert PassesAt(entries, j, allowed);
      }
    }
  }

  /** The empty key, if there is one, stands first. */
  ghost predicate EmptyFirst(entries: seq<Entry>) { forall i :: 0 <= i < |entries| && entries[i].key == "" ==> i == 0 }

  /** The empty key, if there is one, stands last. */
  ghost predicate EmptyLast(entries: seq<Entry>)
  {
    forall i :: 0 <= i < |entries| && entries[i].key == "" ==> i == |entries| - 1
  }

  lemma EmptyFirstHides(entries: seq<Entry>, allowed: seq<string>)
    requires "" !in allowed && EmptyFirst(entries) && KeysWithin(Leniently, entries, allowed)
    ensures KeysWithin(AsWritten, entries, allowed)
  {
    KeysPassIff(entries, allowed);
    GetIs(entries, "");
    forall j | 0 <= j < |entries| ensures PassesAt(entries, j, allowed) {
      assert Overlooked(entries[j], allowed);
      if entries[j].key !in allowed { assert entries[0].key == ""; }
    }
  }

  lemma EmptyLastHidesNone(entries: seq<Entry>, allowed: seq<string>)
    requires "" !in allowed && EmptyLast(entries) && KeysWithin(AsWritten, entries, allowed)
    ensures KeysWithin(Strictly, entries, allowed)
  {
    KeysPassIff(entries, allowed);
    forall j | 0 <= j < |entries| ensures Tolerated(entries[j], allowed) {
      assert PassesAt(entries, j, allowed);
    }
  }

  // The mappings whose keys are checked, each with its supported keys.

  ghost predicate Checked(v: Json, entries: seq<Entry>, allowed: seq<string>)
  {
    v.Object?
    && ((entries == v.entries && allowed == TOP_KEYS)
        || CheckedInServices(ServicesOf(v), entries, allowed)
        || CheckedResource(Get(v.entries, "volumes"), VOLUME_KEYS, entries, allowed)
        || CheckedResource(Get(v.entries, "networks"), NETWORK_KEYS, entries, allowed))
  }

  ghost predicate CheckedInServices(services: seq<Entry>, entries: seq<Entry>, allowed: seq<string>)
  {
    exists i :: 0 <= i < |services| && CheckedInService(services[i].value, entries, allowed)
  }

  ghost predicate CheckedInService(service: Json, entries: seq<Entry>, allowed: seq<string>)
  {
    service.Object?
    && ((entries == service.entries && allowed == SERVICE_KEYS)
        || CheckedInDeploy(Get(service.entries, "deploy"), entries, allowed))
  }

  ghost predicate CheckedInDeploy(deploy: Option<Json>, entries: seq<Entry>, allowed: seq<string>)
  {
    deploy.Some? && deploy.value.Object?
    && ((entries == deploy.value.entries && allowed == DEPLOY_KEYS)
        || (Get(deploy.value.entries, "resources") == Some(Object(entries)) && allowed == RESOURCE_KEYS))
  }

  ghost predicate CheckedResource(value: Option<Json>, keys: seq<string>, entries: seq<Entry>, allowed: seq<string>)
  {
    value.Some? && value.value.Object? && allowed == keys
    && exists i :: 0 <= i < |value.value.entries| && value.value.entries[i].value == Object(entries)
  }

  lemma NoEmptyName(v: Json, entries: seq<Entry>, allowed: seq<string>)
    requires Checked(v, entries, allowed)
    ensures "" !in allowed
  {
  }

  /** An allowed document passes every check of keys. */
  lemma AllowedChecks(p: Patterns, r: Reading, v: Json, entries: seq<Entry>, allowed: seq<string>)
    requires Allowed(p, r, v) && Checked(v, entries, allowed)
    ensures KeysWithin(r, entries, allowed)
  {
    if CheckedInServices(ServicesOf(v), entries, allowed) {
      var i :| 0 <= i < |ServicesOf(v)| && CheckedInService(ServicesOf(v)[i].value, entries, allowed);
      assert ServiceAllowed(p, r, ServicesOf(v)[i]);
    } else if CheckedResource(Get(v.entries, "volumes"), VOLUME_KEYS, entries, allowed) {
      ResourceChecks(p, r, Get(v.entries, "volumes"), VOLUME_KEYS, entries);
    } else if CheckedResource(Get(v.entries, "networks"), NETWORK_KEYS, entries, allowed) {
      ResourceChecks(p, r, Get(v.entries, "networks"), NETWORK_KEYS, entries);
    }
  }

  lemma ResourceChecks(p: Patterns, r: Reading, value: Option<Json>, allowed: seq<string>, entries: seq<Entry>)
    requires ResourcesAllowed(p, r, value, allowed) && CheckedResource(value, allowed, entries, allowed)
    ensures KeysWithin(r, entries, allowed)
  {
    var i :| 0 <= i < |value.value.entries| && value.value.entries[i].value == Object(entries);
    assert ResourceAllowed(p, r, value.value.entries[i], allowed);
  }

  /** Every mapping of the document that passes under one reading passes under the other. */
  ghost predicate Weaker(v: Json, r: Reading, s: Reading)
  {
    forall entries, allowed :: Checked(v, entries, allowed) && KeysWithin(r, entries, allowed) ==>
      KeysWithin(s, entries, allowed)
  }

  /** Beside the checks of keys the readings do not differ. */
  lemma AllowedWeakens(p: Patterns, r: Reading, s: Reading, v: Json)
    requires Allowed(p, r, v) && Weaker(v, r, s)
    ensures Allowed(p, s, v)
  {
    assert Checked(v, v.entries, TOP_KEYS);
    var services := ServicesOf(v);
    forall i | 0 <= i < |services| ensures ServiceAllowed(p, s, services[i]) {
      ServiceWeakens(p, r, s, v, i);
    }
    var volumes, networks := Get(v.entries, "volumes"), Get(v.entries, "networks");
    if volumes.Some? {
      forall i | 0 <= i < |volumes.value.entries| ensures ResourceAllowed(p, s, volumes.value.entries[i], VOLUME_KEYS) {
        ResourceWeakens(p, r, s, v, volumes.value.entries, i, VOLUME_KEYS);
      }
    }
    if networks.Some? {
      forall i | 0 <= i < |networks.value.entries|
        ensures ResourceAllowed(p, s, networks.value.entries[i], NETWORK_KEYS)
      {
        ResourceWeakens(p, r, s, v, networks.value.entries, i, NETWORK_KEYS);
      }
    }
  }

  lemma ServiceWeakens(p: Patterns, r: Reading, s: Reading, v: Json, i: nat)
    requires v.Object? && i < |ServicesOf(v)| && ServiceAllowed(p, r, ServicesOf(v)[i]) && Weaker(v, r, s)
    ensures ServiceAllowed(p, s, ServicesOf(v)[i])
  {
    var service := ServicesOf(v)[i].value;
    assert forall e, a :: CheckedInService(service, e, a) ==> CheckedInServices(ServicesOf(v), e, a);
    assert CheckedInService(service, service.entries, SERVICE_KEYS);
    assert Checked(v, service.entries, SERVICE_KEYS);
    var deploy := Get(service.entries, "deploy");
    if deploy.Some? {
      assert CheckedInService(service, deploy.value.entries, DEPLOY_KEYS);
      assert Checked(v, deploy.value.entries, DEPLOY_KEYS);
      var resources := Get(deploy.value.entries, "resources");
      if resources.Some? {
        assert CheckedInDeploy(deploy, resources.value.entries, RESOURCE_KEYS);
        assert CheckedInService(service, resources.value.entries, RESOURCE_KEYS);
        assert Checked(v, resources.value.entries, RESOURCE_KEYS);
      }
    }
  }

  lemma ResourceWeakens(p: Patterns, r: Reading, s: Reading, v: Json, entries: seq<Entry>, i: nat, allowed: seq<string>)
    requires v.Object? && i < |entries| && ResourceAllowed(p, r, entries[i], allowed) && Weaker(v, r, s)
    requires (Get(v.entries, "volumes") == Some(Object(entries)) && allowed == VOLUME_KEYS)
             || (Get(v.entries, "networks") == Some(Object(entries)) && allowed == NETWORK_KEYS)
    ensures ResourceAllowed(p, s, entries[i], allowed)
  {
    assert entries[i].value == Object(entries[i].value.entries);
    assert CheckedResource(Some(Object(entries)), allowed, entries[i].value.entries, allowed);
    assert Checked(v, entries[i].value.entries, allowed);
  }

  /** The readings from the strictest to the most lenient. */
  lemma ReadingsNest(p: Patterns, v: Json)
    ensures Allowed(p, Intended, v) ==> Allowed(p, Strictly, v)
    ensures Allowed(p, Strictly, v) ==> Allowed(p, AsWritten, v)
    ensures Allowed(p, AsWritten, v) ==> Allowed(p, Leniently, v)
  {
    forall entries, allowed | Checked(v, entries, allowed)
      ensures KeysWithin(Intended, entries, allowed) ==> KeysWithin(Strictly, entries, allowed)
      ensures KeysWithin(Strictly, entries, allowed) ==> KeysWithin(AsWritten, entries, allowed)
      ensures KeysWithin(AsWritten, entries, allowed) ==> KeysWithin(Leniently, entries, allowed)
    {
      NoEmptyName(v, entries, allowed);
      KeysNest(entries, allowed);
    }
    if Allowed(p, Intended, v) { AllowedWeakens(p, Intended, Strictly, v); }
    if Allowed(p, Strictly, v) { AllowedWeakens(p, Strictly, AsWritten, v); }
    if Allowed(p, AsWritten, v) { AllowedWeakens(p, AsWritten, Leniently, v); }
  }

  /** Some mapping whose keys are checked holds the empty key. */
  ghost predicate HoldsEmptyKey(v: Json)
  {
    exists entries, allowed :: Checked(v, entries, allowed) && Has(entries, "")
  }

  /** Only documents with an empty key are accepted against the lists of supported keys. */
  lemma IntendedIff(p: Patterns, v: Json)
    ensures Allowed(p, Intended, v) <==> Allowed(p, AsWritten, v) && !HoldsEmptyKey(v)
  {
    ReadingsNest(p, v);
    if Allowed(p, Intended, v) {
      forall entries, allowed | Checked(v, entries, allowed) ensures !Has(entries, "") {
        NoEmptyName(v, entries, allowed);
        AllowedChecks(p, Intended, v, entries, allowed);
        GetIs(entries, "");
      }
    }
    if Allowed(p, AsWritten, v) && !HoldsEmptyKey(v) {
      forall entries, allowed | Checked(v, entries, allowed) ensures KeysWithin(Intended, entries, allowed) {
        NoEmptyName(v, entries, allowed);
        AllowedChecks(p, Leniently, v, entries, allowed);
      }
      AllowedWeakens(p, AsWritten, Intended, v);
    }
  }

  /** An empty key beside another unsupported key. */
  ghost predicate Mixed(entries: seq<Entry>, allowed: seq<string>)
  {
    Has(entries, "") && exists i :: 0 <= i < |entries| && !Tolerated(entries[i], allowed)
  }

  ghost predicate HoldsMixed(v: Json)
  {
    exists entries, allowed :: Checked(v, entries, allowed) && Mixed(entries, allowed)
  }

  lemma StrictIff(p: Patterns, v: Json)
    ensures Allowed(p, Strictly, v) <==> Allowed(p, Leniently, v) && !HoldsMixed(v)
  {
    ReadingsNest(p, v);
    if Allowed(p, Strictly, v) {
      forall entries, allowed | Checked(v, entries, allowed) ensures !Mixed(entries, allowed) {
        AllowedChecks(p, Strictly, v, entries, allowed);
      }
    }
    if Allowed(p, Leniently, v) && !HoldsMixed(v) {
      forall entries, allowed | Checked(v, entries, allowed) && KeysWithin(Leniently, entries, allowed)
        ensures KeysWithin(Strictly, entries, allowed)
      {
        assert !Mixed(entries, allowed);
      }
      AllowedWeakens(p, Leniently, Strictly, v);
    }
  }

  // The two extreme orders: the canonical one, and the one with every mapping turned round.

  function TurnedValues(entries: seq<Entry>): seq<Entry>
  {
    seq(|entries|, i requires 0 <= i < |entries| => Entry(entries[i].key, Turned(entries[i].value)))
  }

  function Turned(v: Json): Json
  {
    match v
    case List(items) => List(seq(|items|, i requires 0 <= i < |items| => Turned(items[i])))
    case Object(entries) =>
      Object(Reverse(Sort(seq(|entries|, i requires 0 <= i < |entries| =>
                              Entry(entries[i].key, Turned(entries[i].value))))))
    case _ => v
  }

  function Reverse(entries: seq<Entry>): seq<Entry>
  {
    seq(|entries|, i requires 0 <= i < |entries| => entries[|entries| - 1 - i])
  }

  lemma ReverseMembers(entries: seq<Entry>)
    requires Unique(entries)
    ensures Unique(Reverse(entries)) && forall e :: e in entries <==> e in Reverse(entries)
  {
    forall e | e in entries ensures e in Reverse(entries) {
      var i :| 0 <= i < |entries| && entries[i] == e;
      assert Reverse(entries)[|entries| - 1 - i] == e;
    }
  }

  lemma {:induction false} TurnedSame(v: Json)
    requires Parsed(v)
    ensures Parsed(Turned(v)) && SameContent(v, Turned(v))
    decreases v
  {
    match v {
      case List(items) =>
        forall i | 0 <= i < |items| ensures Parsed(Turned(v).items[i]) && SameContent(items[i], Turned(v).items[i]) {
          TurnedSame(items[i]);
        }
      case Object(entries) =>
        forall i | 0 <= i < |entries|
          ensures Parsed(Turned(entries[i].value)) && SameContent(entries[i].value, Turned(entries[i].value))
        {
          TurnedSame(entries[i].value);
        }
        var x := TurnedValues(entries);
        SortMembers(x);
        ReverseMembers(Sort(x));
        ArrangedSame(entries, x, Reverse(Sort(x)));
      case _ =>
    }
  }

  /** All mappings below a value. */
  ghost predicate Within(v: Json, entries: seq<Entry>)
  {
    match v
    case Object(own) => entries == own || exists i :: 0 <= i < |own| && Within(own[i].value, entries)
    case _ => false
  }

  lemma GetWithin(own: seq<Entry>, key: string, entries: seq<Entry>)
    requires Get(own, key).Some? && Within(Get(own, key).value, entries)
    ensures Within(Object(own), entries)
  {
    GetIs(own, key);
    var i :| 0 <= i < |own| && own[i] == Entry(key, Get(own, key).value);
    assert Within(own[i].value, entries);
  }

  lemma CheckedWithin(v: Json, entries: seq<Entry>, allowed: seq<string>)
    requires Checked(v, entries, allowed)
    ensures Within(v, entries)
  {
    if CheckedInServices(ServicesOf(v), entries, allowed) {
      var services := ServicesOf(v);
      var i :| 0 <= i < |services| && CheckedInService(services[i].value, entries, allowed);
      ServiceWithin(services[i].value, entries, allowed);
      assert Within(Object(services), entries);
      GetWithin(v.entries, "services", entries);
    } else if CheckedResource(Get(v.entries, "volumes"), VOLUME_KEYS, entries, allowed) {
      ResourceWithin(Get(v.entries, "volumes").value.entries, entries);
      GetWithin(v.entries, "volumes", entries);
    } else if CheckedResource(Get(v.entries, "networks"), NETWORK_KEYS, entries, allowed) {
      ResourceWithin(Get(v.entries, "networks").value.entries, entries);
      GetWithin(v.entries, "networks", entries);
    }
  }

  lemma ServiceWithin(service: Json, entries: seq<Entry>, allowed: seq<string>)
    requires CheckedInService(service, entries, allowed)
    ensures Within(service, entries)
  {
    var deploy := Get(service.entries, "deploy");
    if CheckedInDeploy(deploy, entries, allowed) {
      if Get(deploy.value.entries, "resources") == Some(Object(entries)) {
        GetWithin(deploy.value.entries, "resources", entries);
      }
      GetWithin(service.entries, "deploy", entries);
    }
  }

  lemma ResourceWithin(own: seq<Entry>, entries: seq<Entry>)
    requires exists i :: 0 <= i < |own| && own[i].value == Object(entries)
    ensures Within(Object(own), entries)
  {
    var i :| 0 <= i < |own| && own[i].value == Object(entries);
    assert Within(own[i].value, entries);
  }

  lemma {:induction false} SortedEmptyFirst(v: Json, entries: seq<Entry>)
    requires Parsed(v) && Within(SortObject(v), entries)
    ensures EmptyFirst(entries)
  {
    var own := Sort(SortedValues(v.entries));
    assert SortObject(v) == Object(own);
    SortSame(v);
    if entries == own {
      SortKeeps(SortedValues(v.entries));
      OrderedEmptyFirst(own);
    } else {
      var i :| 0 <= i < |own| && Within(own[i].value, entries);
      var j := SortedFrom(v.entries, i);
      SortedEmptyFirst(v.entries[j].value, entries);
    }
  }

  lemma SortedFrom(entries: seq<Entry>, i: nat) returns (j: nat)
    requires i < |Sort(SortedValues(entries))|
    ensures j < |entries| && Sort(SortedValues(entries))[i].value == SortObject(entries[j].value)
  {
    var x := SortedValues(entries);
    SortMembers(x);
    assert Sort(x)[i] in x;
    j :| 0 <= j < |x| && x[j] == Sort(x)[i];
  }

  lemma {:induction false} TurnedEmptyLast(v: Json, entries: seq<Entry>)
    requires Parsed(v) && Within(Turned(v), entries)
    ensures EmptyLast(entries)
  {
    var x := TurnedValues(v.entries);
    var own := Reverse(Sort(x));
    assert Turned(v) == Object(own);
    if entries == own {
      SortMembers(x);
      SortKeeps(x);
      OrderedEmptyFirst(Sort(x));
    } else {
      var i :| 0 <= i < |own| && Within(own[i].value, entries);
      var j := TurnedFrom(v.entries, i);
      TurnedEmptyLast(v.entries[j].value, entries);
    }
  }

  lemma TurnedFrom(entries: seq<Entry>, i: nat) returns (j: nat)
    requires i < |Reverse(Sort(TurnedValues(entries)))|
    ensures j < |entries| && Reverse(Sort(TurnedValues(entries)))[i].value == Turned(entries[j].value)
  {
    var x := TurnedValues(entries);
    var own := Reverse(Sort(x));
    SortMembers(x);
    assert own[i] == Sort(x)[|own| - 1 - i] && own[i] in x;
    j :| 0 <= j < |x| && x[j] == own[i];
  }

  lemma OrderedEmptyFirst(entries: seq<Entry>)
    requires Ordered(entries) && Unique(entries)
    ensures EmptyFirst(entries)
  {
    forall i | 0 < i < |entries| ensures entries[i].key != "" {
      assert AtMost(entries[0].key, entries[i].key);
    }
  }

  /** In the canonical order an empty key stands first, and hides every other unsupported key of its mapping. */
  lemma SortedIff(p: Patterns, v: Json)
    requires Parsed(v)
    ensures Allowed(p, AsWritten, SortObject(v)) <==> Allowed(p, Leniently, v)
  {
    var w := SortObject(v);
    SortSame(v);
    SameAllowed(p, Leniently, v, w);
    ReadingsNest(p, w);
    forall entries, allowed | Checked(w, entries, allowed) && KeysWithin(Leniently, entries, allowed)
      ensures KeysWithin(AsWritten, entries, allowed)
    {
      NoEmptyName(w, entries, allowed);
      CheckedWithin(w, entries, allowed);
      SortedEmptyFirst(v, entries);
      EmptyFirstHides(entries, allowed);
    }
    if Allowed(p, Leniently, w) { AllowedWeakens(p, Leniently, AsWritten, w); }
  }

  /** Turned round it stands last, and hides none. */
  lemma TurnedIff(p: Patterns, v: Json)
    requires Parsed(v)
    ensures Allowed(p, AsWritten, Turned(v)) <==> Allowed(p, Strictly, v)
  {
    var w := Turned(v);
    TurnedSame(v);
    SameAllowed(p, Strictly, v, w);
    ReadingsNest(p, w);
    forall entries, allowed | Checked(w, entries, allowed) && KeysWithin(AsWritten, entries, allowed)
      ensures KeysWithin(Strictly, entries, allowed)
    {
      NoEmptyName(w, entries, allowed);
      CheckedWithin(w, entries, allowed);
      TurnedEmptyLast(v, entries);
      EmptyLastHidesNone(entries, allowed);
    }
    if Allowed(p, AsWritten, w) { AllowedWeakens(p, AsWritten, Strictly, w); }
  }

  /** The same document with its keys in another order is judged otherwise. */
  ghost predicate OrderMatters(p: Patterns, v: Json)
  {
    exists w :: Parsed(w) && SameContent(v, w) && (Allowed(p, AsWritten, w) <==> !Allowed(p, AsWritten, v))
  }

  /**
   * Whether the order of keys decides over a document: exactly when a mapping whose keys are checked holds an empty key
   * beside another unsupported key, and nothing else is wrong with it.
   */
  lemma OrderMattersIff(p: Patterns, v: Json)
    requires Parsed(v)
    ensures OrderMatters(p, v) <==> Allowed(p, Leniently, v) && HoldsMixed(v)
  {
    StrictIff(p, v);
    if Allowed(p, Leniently, v) && HoldsMixed(v) {
      SortSame(v);
      TurnedSame(v);
      SortedIff(p, v);
      TurnedIff(p, v);
      assert Allowed(p, AsWritten, SortObject(v)) && !Allowed(p, AsWritten, Turned(v));
    }
    if OrderMatters(p, v) {
      var w :| Parsed(w) && SameContent(v, w) && (Allowed(p, AsWritten, w) <==> !Allowed(p, AsWritten, v));
      ReadingsNest(p, v);
      ReadingsNest(p, w);
      SameAllowed(p, Strictly, v, w);
      SameAllowed(p, Leniently, v, w);
    }
  }

  /** One service, and two orders of the top-level keys: the first is accepted, the second is not. */
  lemma EmptyKeyHides(p: Patterns)
    requires p.serviceName("web") && p.image("nginx:1.27") && !p.latest("nginx:1.27")
    ensures var v, w := Object([Entry("", Null), Entry("configs", Null), Entry("services", ONE_SERVICE)]),
        Object([Entry("configs", Null), Entry("", Null), Entry("services", ONE_SERVICE)]);
      && Parsed(v) && Parsed(w) && SameContent(v, w)
      && Allowed(p, AsWritten, v) && !Allowed(p, AsWritten, w) && !Allowed(p, Intended, v)
  {
    var a, b, c := Entry("", Null), Entry("configs", Null), Entry("services", ONE_SERVICE);
    assert "configs"[0] != "services"[0];
    OneServiceAllowed(p);
    SameSelf(ONE_SERVICE);
    Permuted(a, b, c);
    HiddenKey(a, b, c);
    LookedUp(a, b, c);
  }

  const ONE_SERVICE :=
    Object([Entry("web", Object([Entry("image", Text("nginx:1.27")), Entry("restart", Text("always"))]))])

  const ONE_IMAGE := [Entry("image", Text("nginx:1.27")), Entry("restart", Text("always"))]

  lemma OneServiceAllowed(p: Patterns)
    requires p.serviceName("web") && p.image("nginx:1.27") && !p.latest("nginx:1.27")
    ensures Parsed(ONE_SERVICE) && ServicesAllowed(p, AsWritten, Some(ONE_SERVICE))
  {
    OneServiceKeys();
    OneServiceNone();
    OneServiceGets();
    OneServiceImage(p);
    assert "image"[0] != "restart"[0];
    assert Parsed(Object(ONE_IMAGE));
    assert ONE_SERVICE.entries[0] == Entry("web", Object(ONE_IMAGE));
    assert ServiceAllowed(p, AsWritten, Entry("web", Object(ONE_IMAGE)));
  }

  lemma OneServiceGets()
    ensures Get(ONE_IMAGE, "image") == Some(Text("nginx:1.27")) && Get(ONE_IMAGE, "restart") == Some(Text("always"))
    ensures Get(ONE_IMAGE, "environment") == None && Get(ONE_IMAGE, "volumes") == None
    ensures Get(ONE_IMAGE, "security_opt") == None && Get(ONE_IMAGE, "deploy") == None
  {
    assert "security_opt"[0] == 's' && "deploy"[0] == 'd' && "volumes"[0] == 'v' && "environment"[0] == 'e';
    assert "image"[0] == 'i' && "restart"[0] == 'r';
    GetPair(ONE_IMAGE[0], ONE_IMAGE[1], "image");
    GetPair(ONE_IMAGE[0], ONE_IMAGE[1], "restart");
    GetPair(ONE_IMAGE[0], ONE_IMAGE[1], "environment");
    GetPair(ONE_IMAGE[0], ONE_IMAGE[1], "volumes");
    GetPair(ONE_IMAGE[0], ONE_IMAGE[1], "security_opt");
    GetPair(ONE_IMAGE[0], ONE_IMAGE[1], "deploy");
  }

  lemma OneServiceNone()
    ensures NoneOf(ONE_IMAGE, FORBIDDEN)
  {
    forall i | 0 <= i < |FORBIDDEN| ensures !Has(ONE_IMAGE, FORBIDDEN[i]) {
      GetPair(ONE_IMAGE[0], ONE_IMAGE[1], FORBIDDEN[i]);
      assert |FORBIDDEN[i]| == 5 ==> FORBIDDEN[i][0] == 'b' || FORBIDDEN[i][0] == 'p';
      assert FORBIDDEN[i][0] != 'r';
    }
  }

  lemma OneServiceKeys()
    ensures KeysPass(ONE_IMAGE, SERVICE_KEYS)
  {
    assert SERVICE_KEYS[0] == "image" && SERVICE_KEYS[1] == "restart" && "" !in SERVICE_KEYS;
    assert KeysWithin(Intended, ONE_IMAGE, SERVICE_KEYS);
    KeysNest(ONE_IMAGE, SERVICE_KEYS);
  }

  lemma OneServiceImage(p: Patterns)
    requires p.image("nginx:1.27") && !p.latest("nginx:1.27")
    ensures ImageAllowed(p, Some(Text("nginx:1.27")))
  {
    LeafOf("nginx:1.27");
    assert "nginx:1.27"[5] == ':';
  }

  lemma LeafOf(image: string)
    requires image != "" && '/' !in image
    ensures Leaf(image) == image
  {
  }

  lemma Permuted(a: Entry, b: Entry, c: Entry)
    requires a.key != b.key && b.key != c.key && a.key != c.key && Parsed(a.value) && Parsed(b.value) && Parsed(c.value)
    ensures Parsed(Object([a, b, c])) && Parsed(Object([b, a, c])) && SameContent(Object([a, b, c]), Object([b, a, c]))
  {
    ThreeParsed(a, b, c);
    ThreeParsed(b, a, c);
    SameSelf(a.value);
    SameSelf(b.value);
    SameSelf(c.value);
    ThreeMembers(a, b, c);
    ArrangedSame([a, b, c], [a, b, c], [b, a, c]);
  }

  lemma ThreeMembers(a: Entry, b: Entry, c: Entry)
    ensures forall e :: e in [a, b, c] <==> e in [b, a, c]
  {
  }

  lemma ThreeParsed(a: Entry, b: Entry, c: Entry)
    requires a.key != b.key && b.key != c.key && a.key != c.key && Parsed(a.value) && Parsed(b.value) && Parsed(c.value)
    ensures Unique([a, b, c]) && Parsed(Object([a, b, c]))
  {
  }

  lemma HiddenKey(a: Entry, b: Entry, c: Entry)
    requires a.key == "" && b.key == "configs" && c.key == "services"
    ensures KeysPass([a, b, c], TOP_KEYS) && !KeysPass([b, a, c], TOP_KEYS)
      && !KeysWithin(Intended, [a, b, c], TOP_KEYS)
  {
    assert "configs"[0] == 'c' && "services"[0] == 's' && "volumes"[0] == 'v' && "networks"[0] == 'n';
    assert TOP_KEYS[0] == "services" && "" !in TOP_KEYS && "configs" !in TOP_KEYS;
    assert "configs"[0] in "configs" && "services"[0] in "services";
    assert !IsIndex("") && !IsIndex("configs") && !IsIndex("services");
    KeysPassIff([a, b, c], TOP_KEYS);
    KeysPassIff([b, a, c], TOP_KEYS);
    assert [a, b, c][0].key == "" && [b, a, c][0].key == "configs";
    assert PassesAt([a, b, c], 0, TOP_KEYS) && PassesAt([a, b, c], 1, TOP_KEYS) && PassesAt([a, b, c], 2, TOP_KEYS);
    assert !PassesAt([b, a, c], 0, TOP_KEYS);
  }

  lemma LookedUp(a: Entry, b: Entry, c: Entry)
    requires a.key == "" && b.key == "configs" && c.key == "services"
    ensures Get([a, b, c], "services") == Some(c.value)
    ensures Get([a, b, c], "volumes") == None && Get([a, b, c], "networks") == None
  {
    assert "configs"[0] == 'c' && "services"[0] == 's' && "volumes"[0] == 'v' && "networks"[0] == 'n';
    forall key ensures Get([a, b, c], key) == if a.key == key then Some(a.value) else Get([b, c], key) {
      assert [a, b, c][1..] == [b, c];
    }
    GetPair(b, c, "services");
    GetPair(b, c, "volumes");
    GetPair(b, c, "networks");
  }

  lemma GetPair(a: Entry, b: Entry, key: string)
    ensures Get([a, b], key) == if a.key == key then Some(a.value) else if b.key == key then Some(b.value) else None
  {
    assert [a, b][1..] == [b] && [b][1..] == [];
    assert Get([b], key) == if b.key == key then Some(b.value) else Get([], key);
  }

  // ---------------------------------------------------------------- the evaluation

  datatype Warning =
    | DigestRecommended(service: string)
    | DefaultsInjected(service: string)
    | HealthcheckRecommended(service: string)
  datatype Evaluation = Rejected | Accepted(normal: Json, warnings: seq<Warning>)

  /** validateDeploy: what it makes of the service, and whether it injected the defaults. */
  method ValidateDeploy(p: Patterns, service: seq<Entry>) returns (ok: bool, validated: seq<Entry>, injected: bool)
    ensures ok <==> DeployAllowed(p, AsWritten, Get(service, "deploy"))
    ensures ok ==> Object(validated) == InjectService(Object(service)) && (injected <==> !NamesLimits(Object(service)))
  {
    validated, injected := service, false;
    if !Has(validated, "deploy") {
      validated := Put(validated, "deploy", Object([]));
      PutGet(service, "deploy", Object([]), "deploy");
      PutPut(service, "deploy", Object([]), Object([Entry("resources", DEFAULT_LIMITS)]));
    }
    var deploy := Get(validated, "deploy").value;
    if !deploy.Object? { return false, validated, false; }
    if !KeysWithin(AsWritten, deploy.entries, DEPLOY_KEYS) { return false, validated, false; }
    if Has(deploy.entries, "placement") { return false, validated, false; }
    if !Has(deploy.entries, "resources") {
      validated := Put(validated, "deploy", Object(Put(deploy.entries, "resources", DEFAULT_LIMITS)));
      return true, validated, true;
    }
    PutSame(service, "deploy");
    ok := LimitsAllowed(p, AsWritten, Get(deploy.entries, "resources").value);
  }

  lemma {:induction false} PutPut(entries: seq<Entry>, key: string, first: Json, second: Json)
    ensures Put(Put(entries, key, first), key, second) == Put(entries, key, second)
  {
    if entries != [] && entries[0].key != key {
      PutPut(entries[1..], key, first, second);
      assert Put(entries, key, first)[1..] == Put(entries[1..], key, first);
    }
  }

  method ValidateService(p: Patterns, e: Entry, warnings: seq<Warning>)
    returns (ok: bool, validated: Entry, noted: seq<Warning>)
    ensures ok <==> ServiceAllowed(p, AsWritten, e)
    ensures ok ==> validated == Entry(e.key, InjectService(e.value))
    ensures ok ==> AlsoNoted(e, warnings, noted)
  {
    ok, validated, noted := false, e, warnings;
    if !p.serviceName(e.key) || !e.value.Object? || !KeysWithin(AsWritten, e.value.entries, SERVICE_KEYS) { return; }
    var service := e.value.entries;
    for i := 0 to |FORBIDDEN|
      invariant forall j :: 0 <= j < i ==> !Has(service, FORBIDDEN[j])
    {
      if Has(service, FORBIDDEN[i]) { return; }
    }
    if !ImageAllowed(p, Get(service, "image")) { return; }
    if !Contains(Get(service, "image").value.s, "@sha256:") { noted := noted + [DigestRecommended(e.key)]; }
    if !RestartAllowed(p, Get(service, "restart")) || !EnvironmentAllowed(p, Get(service, "environment")) { return; }
    if !VolumesAllowed(p, Get(service, "volumes")) || !SecurityAllowed(p, Get(service, "security_opt")) { return; }
    var deployed, injected;
    ok, deployed, injected := ValidateDeploy(p, service);
    if !ok { return; }
    if injected { noted := noted + [DefaultsInjected(e.key)]; }
    if !Has(service, "healthcheck") || !Get(service, "healthcheck").value.Object? {
      noted := noted + [HealthcheckRecommended(e.key)];
    }
    validated := Entry(e.key, Object(deployed));
  }

  /** One of the first `n` services of this name says nothing of its resources. */
  ghost predicate Lacking(services: seq<Entry>, n: nat, name: string)
    requires n <= |services|
  {
    exists j :: 0 <= j < n && services[j].key == name && !NamesLimits(services[j].value)
  }

  /** Accepts exactly the allowed documents; defaults are reported for exactly the services that named no resources. */
  method EvaluateComposePolicy(p: Patterns, v: Json) returns (r: Evaluation)
    requires Parsed(v)
    ensures r.Accepted? <==> Allowed(p, AsWritten, v)
    ensures r.Accepted? ==> r.normal == Normal(v)
    ensures r.Accepted? ==> Noted(ServicesOf(v), |ServicesOf(v)|, r.warnings)
  {
    if !v.Object? || !KeysWithin(AsWritten, v.entries, TOP_KEYS) { return Rejected; }
    if !Has(v.entries, "services") || !Get(v.entries, "services").value.Object? { return Rejected; }
    var services := Get(v.entries, "services").value.entries;
    if |services| < 1 || |services| > 50 { return Rejected; }
    if !ResourcesAllowed(p, AsWritten, Get(v.entries, "volumes"), VOLUME_KEYS)
      || !ResourcesAllowed(p, AsWritten, Get(v.entries, "networks"), NETWORK_KEYS) {
      return Rejected;
    }
    var ok, validated, warnings := ValidateServices(p, services);
    if !ok { return Rejected; }
    return Accepted(SortObject(Object(Put(v.entries, "services", Object(validated)))), warnings);
  }

  method ValidateServices(p: Patterns, services: seq<Entry>)
    returns (ok: bool, validated: seq<Entry>, warnings: seq<Warning>)
    ensures ok <==>
      forall i {:trigger ServiceAllowed(p, AsWritten, services[i])} :: 0 <= i < |services| ==>
        ServiceAllowed(p, AsWritten, services[i])
    ensures ok ==> validated == InjectAll(services)
    ensures ok ==> Noted(services, |services|, warnings)
  {
    ok, validated, warnings := true, [], [];
    InjectAllAre(services);
    for i := 0 to |services|
      invariant ok && |validated| == i && validated == InjectAll(services)[..i]
      invariant forall j {:trigger ServiceAllowed(p, AsWritten, services[j])} :: 0 <= j < i ==>
        ServiceAllowed(p, AsWritten, services[j])
      invariant Noted(services, i, warnings)
    {
      ghost var earlier := warnings;
      var one;
      ok, one, warnings := ValidateService(p, services[i], warnings);
      if !ok { return; }
      validated := validated + [one];
      NotedNext(services, i, earlier, warnings);
    }
  }

  ghost predicate Noted(services: seq<Entry>, n: nat, warnings: seq<Warning>)
    requires n <= |services|
  {
    forall name :: DefaultsInjected(name) in warnings <==> Lacking(services, n, name)
  }

  ghost predicate AlsoNoted(e: Entry, earlier: seq<Warning>, warnings: seq<Warning>)
  {
    forall name :: DefaultsInjected(name) in warnings
      <==> DefaultsInjected(name) in earlier || (name == e.key && !NamesLimits(e.value))
  }

  lemma NotedNext(services: seq<Entry>, n: nat, earlier: seq<Warning>, warnings: seq<Warning>)
    requires n < |services| && Noted(services, n, earlier) && AlsoNoted(services[n], earlier, warnings)
    ensures Noted(services, n + 1, warnings)
  {
    forall name ensures DefaultsInjected(name) in warnings <==> Lacking(services, n + 1, name) {
      assert Lacking(services, n + 1, name)
        <==> Lacking(services, n, name) || (name == services[n].key && !NamesLimits(services[n].value));
    }
  }
}
