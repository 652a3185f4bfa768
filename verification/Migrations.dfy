/** The release's numbered migrations and the table that remembers which of them the database already holds. */
module Migrations {
  import opened Common

  /** A migration file: its sequence number stands for its name, and `checksum` for the hash of `sql`. */
  datatype Migration = Migration(name: nat, sql: string, checksum: nat)
  datatype Applied = Applied(name: nat, checksum: Option<nat>)
  datatype Row = Row(at: int, checksum: Option<nat>)

  datatype Verdict =
    | Accepted
    | MissingFromRelease(name: nat)
    | Gap(name: nat)
    | NoBaseline(name: nat)
    | HistoryEdited(name: nat)
    | Edited(name: nat)

  datatype Outcome = Completed | Refused(why: Verdict) | Stopped

  /** What discovery guarantees: file names sorted by their distinct sequence numbers. */
  ghost predicate Released(migrations: seq<Migration>)
  {
    forall i, j :: 0 <= i < j < |migrations| ==> migrations[i].name < migrations[j].name
  }

  /** A row's checksum fits: the migration's own, or none where the reviewed baseline is the migration's own. */
  predicate Fits(m: Migration, row: Applied, baseline: map<nat, nat>)
  {
    m.name == row.name
    && (row.checksum == Some(m.checksum)
        || (row.checksum.None? && m.name in baseline && baseline[m.name] == m.checksum))
  }

  ghost predicate Prefix(migrations: seq<Migration>, applied: seq<Applied>, baseline: map<nat, nat>)
  {
    |applied| <= |migrations| && forall i :: 0 <= i < |applied| ==> Fits(migrations[i], applied[i], baseline)
  }

  /** SELECT name, checksum … ORDER BY applied_at, name. */
  predicate Before(rows: map<nat, Row>, a: nat, b: nat)
    requires a in rows && b in rows
  {
    rows[a].at < rows[b].at || (rows[a].at == rows[b].at && a < b)
  }

  ghost predicate Selected(rows: map<nat, Row>, applied: seq<Applied>)
  {
    && (forall i :: 0 <= i < |applied| ==>
        applied[i].name in rows && applied[i].checksum == rows[applied[i].name].checksum)
    && (forall n :: n in rows ==> exists i :: 0 <= i < |applied| && applied[i].name == n)
    && (forall i, j :: 0 <= i < j < |applied| ==> Before(rows, applied[i].name, applied[j].name))
  }

  /** Why a row of the history is refused. */
  ghost predicate Faults(v: Verdict, migrations: seq<Migration>, row: Applied, i: nat, baseline: map<nat, nat>)
  {
    match v
    case Accepted => false
    case MissingFromRelease(n) => n == row.name && forall m :: m in migrations ==> m.name != n
    case Gap(n) =>
      n == row.name && (exists m :: m in migrations && m.name == n) && (i < |migrations| ==> migrations[i].name != n)
    case NoBaseline(n) =>
      i < |migrations| && migrations[i].name == n == row.name && row.checksum.None? && n !in baseline
    case HistoryEdited(n) => i < |migrations| && migrations[i].name == n == row.name && row.checksum.None?
      && n in baseline && baseline[n] != migrations[i].checksum
    case Edited(n) =>
      i < |migrations| && migrations[i].name == n == row.name && row.checksum.Some?
        && row.checksum.value != migrations[i].checksum
  }

  /** Accepts exactly the histories that are a prefix of the release, and otherwise names the first row that is not. */
  method ValidateAppliedMigrations(migrations: seq<Migration>, applied: seq<Applied>, baseline: map<nat, nat>)
    returns (v: Verdict)
    requires Released(migrations)
    ensures v.Accepted? <==> Prefix(migrations, applied, baseline)
    ensures !v.Accepted? ==> exists i ::
      && 0 <= i < |applied| && Prefix(migrations, applied[..i], baseline)
      && Faults(v, migrations, applied[i], i, baseline)
  {
    var available := map m | m in migrations :: m.name := m.checksum;
    for i := 0 to |applied|
      invariant Prefix(migrations, applied[..i], baseline)
    {
      var row := applied[i];
      if row.name !in available { return MissingFromRelease(row.name); }
      if i >= |migrations| || migrations[i].name != row.name { return Gap(row.name); }
      assert migrations[i] in migrations;
      if row.checksum.None? {
        if row.name !in baseline { return NoBaseline(row.name); }
        if available[row.name] != baseline[row.name] { return HistoryEdited(row.name); }
      }
      if row.checksum.Some? && row.checksum.value != available[row.name] { return Edited(row.name); }
    }
    assert applied[..|applied|] == applied;
    return Accepted;
  }

  /** The names of the first `k` migrations. */
  function Names(migrations: seq<Migration>, k: nat): set<nat>
    requires k <= |migrations|
  {
    if k == 0 then {} else Names(migrations, k - 1) + {migrations[k - 1].name}
  }

  lemma {:induction false} NamesAre(migrations: seq<Migration>, k: nat, x: nat)
    requires k <= |migrations|
    ensures x in Names(migrations, k) <==> exists i :: 0 <= i < k && migrations[i].name == x
  {
    if k > 0 { NamesAre(migrations, k - 1, x); }
  }

  /** The scripts of the migrations from `n` up to `k`. */
  function Scripts(migrations: seq<Migration>, n: nat, k: nat): seq<string>
    requires n <= k <= |migrations|
  {
    if k == n then [] else Scripts(migrations, n, k - 1) + [migrations[k - 1].sql]
  }

  /** A row that holds the release's checksum for its name. */
  ghost predicate Sealed(migrations: seq<Migration>, name: nat, row: Row)
  {
    exists i :: 0 <= i < |migrations| && migrations[i].name == name && row.checksum == Some(migrations[i].checksum)
  }

  /** The rows a run starts from, with any missing checksum still missing or filled from the release. */
  ghost predicate Baselined(before: map<nat, Row>, rows: map<nat, Row>, migrations: seq<Migration>)
  {
    forall x :: x in before ==>
      && x in rows && rows[x].at == before[x].at
      && (rows[x] == before[x] || (before[x].checksum.None? && Sealed(migrations, x, rows[x])))
  }

  /** What a run, however it ends, makes of a table that held the first `n` migrations: it holds the first `k`. */
  ghost predicate Advanced(before: map<nat, Row>, rows: map<nat, Row>, migrations: seq<Migration>, n: nat, k: nat)
    requires n <= k <= |migrations|
  {
    && before.Keys == Names(migrations, n) && rows.Keys == Names(migrations, k)
    && Baselined(before, rows, migrations)
    && (forall x :: x in rows && x !in before ==> Sealed(migrations, x, rows[x]))
  }

  predicate Checked(rows: map<nat, Row>) { forall n :: n in rows ==> rows[n].checksum.Some? }

  ghost predicate SameNames(migrations: seq<Migration>, applied: seq<Applied>)
  {
    |applied| <= |migrations| && forall i :: 0 <= i < |applied| ==> applied[i].name == migrations[i].name
  }

  lemma PrefixNames(applied: seq<Applied>, migrations: seq<Migration>, baseline: map<nat, nat>)
    requires Prefix(migrations, applied, baseline)
    ensures SameNames(migrations, applied)
  {
    forall i | 0 <= i < |applied| ensures applied[i].name == migrations[i].name {
      assert Fits(migrations[i], applied[i], baseline);
    }
  }

  lemma SelectedNames(rows: map<nat, Row>, applied: seq<Applied>, migrations: seq<Migration>, baseline: map<nat, nat>)
    requires Selected(rows, applied) && Prefix(migrations, applied, baseline)
    ensures rows.Keys == Names(migrations, |applied|)
  {
    PrefixNames(applied, migrations, baseline);
    forall x ensures x in rows <==> x in Names(migrations, |applied|) {
      NamesAre(migrations, |applied|, x);
      if x in rows {
        var i :| 0 <= i < |applied| && applied[i].name == x;
        assert migrations[i].name == x;
      }
    }
  }

  /** Each row read back without a checksum has one to fill it with. */
  ghost predicate Fillable(rows: map<nat, Row>, migrations: seq<Migration>, applied: seq<Applied>,
                           baseline: map<nat, nat>)
  {
    && |applied| <= |migrations|
    && (forall i :: 0 <= i < |applied| ==>
          && applied[i].name in rows && applied[i].checksum == rows[applied[i].name].checksum
          && applied[i].name == migrations[i].name
          && (applied[i].checksum.None? ==>
              applied[i].name in baseline && baseline[applied[i].name] == migrations[i].checksum))
  }

  predicate Filled(rows: map<nat, Row>, applied: seq<Applied>, n: nat)
    requires n <= |applied|
  {
    forall i :: 0 <= i < n ==> applied[i].name in rows && rows[applied[i].name].checksum.Some?
  }

  lemma PrefixFillable(rows: map<nat, Row>, migrations: seq<Migration>, applied: seq<Applied>, baseline: map<nat, nat>)
    requires Selected(rows, applied) && Prefix(migrations, applied, baseline)
    ensures Fillable(rows, migrations, applied, baseline)
  {
    forall i | 0 <= i < |applied|
      ensures applied[i].name == migrations[i].name
        && (applied[i].checksum.None? ==>
            applied[i].name in baseline && baseline[applied[i].name] == migrations[i].checksum)
    {
      assert Fits(migrations[i], applied[i], baseline);
    }
  }

  lemma AllChecked(before: map<nat, Row>, rows: map<nat, Row>, applied: seq<Applied>)
    requires Selected(before, applied) && rows.Keys == before.Keys
    requires Filled(rows, applied, |applied|)
    ensures Checked(rows)
  {
    forall x | x in rows ensures rows[x].checksum.Some? {
      assert x in before;
      var i :| 0 <= i < |applied| && applied[i].name == x;
    }
  }

  lemma BaselinedStep(before: map<nat, Row>, rows: map<nat, Row>, migrations: seq<Migration>, i: nat)
    requires Baselined(before, rows, migrations) && i < |migrations|
    requires migrations[i].name in before && before[migrations[i].name].checksum.None?
    ensures var filled := rows[migrations[i].name].(checksum := Some(migrations[i].checksum));
      Baselined(before, rows[migrations[i].name := filled], migrations)
  {
    var row := rows[migrations[i].name].(checksum := Some(migrations[i].checksum));
    assert Sealed(migrations, migrations[i].name, row);
  }

  /** The database: the migrations table and, in commit order, every script whose transaction committed. */
  class Database {
    var rows: map<nat, Row>
    var scripts: seq<string>

    constructor ()
      ensures rows == map[] && scripts == []
    {
      rows, scripts := map[], [];
    }

    /**
     * One run of the migrations. `applied` is what the SELECT returned, `times` are the commit times the database
     * clock gives, and the run dies, or its connection does, after `budget` committed statements.
     */
    method RunMigrations(migrations: seq<Migration>, applied: seq<Applied>, baseline: map<nat, nat>, times: seq<int>,
                         budget: nat)
      returns (outcome: Outcome)
      requires Released(migrations) && Selected(rows, applied) && |times| == |migrations|
      modifies this
      ensures outcome.Refused? <==> !Prefix(migrations, applied, baseline)
      ensures outcome.Refused? ==> rows == old(rows) && scripts == old(scripts)
      ensures !outcome.Refused? ==> exists k ::
        && |applied| <= k <= |migrations|
        && Advanced(old(rows), rows, migrations, |applied|, k)
        && scripts == old(scripts) + Scripts(migrations, |applied|, k)
        && (outcome.Completed? ==> k == |migrations| && Checked(rows))
      ensures budget >= |applied| + |migrations| ==> !outcome.Stopped?
      ensures !outcome.Refused? ==>
        forall i :: |applied| <= i < |migrations| && migrations[i].name in rows ==>
          rows[migrations[i].name].at == times[i]
    {
      var verdict := ValidateAppliedMigrations(migrations, applied, baseline);
      if !verdict.Accepted? { return Refused(verdict); }
      SelectedNames(rows, applied, migrations, baseline);
      PrefixNames(applied, migrations, baseline);
      var n := |applied|;
      PrefixFillable(rows, migrations, applied, baseline);
      var left := Baseline(migrations, applied, baseline, budget);
      assert Advanced(old(rows), rows, migrations, |applied|, |applied|)
        && Scripts(migrations, |applied|, |applied|) == [];
      if left.None? { return Stopped; }
      AllChecked(old(rows), rows, applied);
      ghost var filled := rows;
      ghost var k;
      outcome, k := Apply(migrations, applied, times, left.value);
      AdvancedBy(old(rows), filled, rows, migrations, n, k);
      TimesKept(rows, migrations, times, n, k);
    }

    /** Fills missing checksums, one UPDATE each; returns the statements left, unless they ran out. */
    method Baseline(migrations: seq<Migration>, applied: seq<Applied>, baseline: map<nat, nat>, budget: nat)
      returns (left: Option<nat>)
      requires Fillable(rows, migrations, applied, baseline)
      modifies this`rows
      ensures rows.Keys == old(rows).Keys && Baselined(old(rows), rows, migrations)
      ensures left.Some? ==> Filled(rows, applied, |applied|) && left.value >= budget - |applied|
      ensures budget >= |applied| ==> left.Some?
    {
      var remaining: nat := budget;
      for i := 0 to |applied|
        invariant rows.Keys == old(rows).Keys && Baselined(old(rows), rows, migrations)
        invariant remaining >= budget - i
        invariant Filled(rows, applied, i)
      {
        if applied[i].checksum.None? {
          if remaining == 0 { return None; }
          remaining := remaining - 1;
          ghost var before := rows;
          rows := rows[applied[i].name := rows[applied[i].name].(checksum := Some(baseline[applied[i].name]))];
          BaselinedStep(old(rows), before, migrations, i);
        }
      }
      return Some(remaining);
    }

    /** Commits each script whose name was not selected, together with its row. */
    method Apply(migrations: seq<Migration>, applied: seq<Applied>, times: seq<int>, budget: nat)
      returns (outcome: Outcome, ghost k: nat)
      requires Released(migrations) && |times| == |migrations| && Checked(rows)
      requires SameNames(migrations, applied) && rows.Keys == Names(migrations, |applied|)
      modifies this
      ensures !outcome.Refused? && (budget >= |migrations| ==> outcome.Completed?)
      ensures Reached(old(rows), rows, migrations, times, |applied|, k) && (outcome.Completed? ==> k == |migrations|)
      ensures scripts == old(scripts) + Scripts(migrations, |applied|, k)
    {
      var left: nat := budget;
      ghost var n, before, earlier := |applied|, rows, scripts;
      k := n;
      ReachedFirst(rows, migrations, times, n);
      for i := 0 to |migrations|
        invariant k == Max(n, i) && left >= budget - i
        invariant Reached(before, rows, migrations, times, n, k)
        invariant scripts == earlier + Scripts(migrations, n, k)
      {
        var rest := ApplyOne(migrations, applied, i, times, left, before, earlier);
        if rest.None? { return Stopped, k; }
        left, k := rest.value, Max(n, i + 1);
      }
      return Completed, k;
    }

    /** Applies migration `i` unless it is applied already; None says that the process died first. */
    method ApplyOne(migrations: seq<Migration>, applied: seq<Applied>, i: nat, times: seq<int>, left: nat,
                    ghost before: map<nat, Row>, ghost earlier: seq<string>)
      returns (rest: Option<nat>)
      requires Released(migrations) && i < |migrations| == |times| && SameNames(migrations, applied)
      requires Reached(before, rows, migrations, times, |applied|, Max(|applied|, i))
      requires scripts == earlier + Scripts(migrations, |applied|, Max(|applied|, i))
      modifies this
      ensures rest.Some? ==>
        && rest.value >= left - 1
        && Reached(before, rows, migrations, times, |applied|, Max(|applied|, i + 1))
        && scripts == earlier + Scripts(migrations, |applied|, Max(|applied|, i + 1))
      ensures rest.None? ==> left == 0 && rows == old(rows) && scripts == old(scripts)
    {
      AppliedIff(migrations, applied, i);
      if AppliedName(applied, migrations[i].name) { return Some(left); }
      if left == 0 { return None; }
      Commit(migrations, i, times, |applied|, before, earlier);
      rest := Some(left - 1);
    }

    /** The script and its row, in one transaction. */
    method Commit(migrations: seq<Migration>, i: nat, times: seq<int>, ghost n: nat, ghost before: map<nat, Row>,
                  ghost earlier: seq<string>)
      requires Released(migrations) && n <= i < |migrations| == |times|
      requires Reached(before, rows, migrations, times, n, i)
      requires scripts == earlier + Scripts(migrations, n, i)
      modifies this
      ensures Reached(before, rows, migrations, times, n, i + 1)
      ensures scripts == old(scripts) + [migrations[i].sql] == earlier + Scripts(migrations, n, i + 1)
    {
      GrownStep(before, rows, migrations, i, Row(times[i], Some(migrations[i].checksum)));
      rows := rows[migrations[i].name := Row(times[i], Some(migrations[i].checksum))];
      scripts := scripts + [migrations[i].sql];
      ScriptsNext(migrations, n, i);
    }
  }

  /** The table with the migrations from `n` up to `k` added, each at its time, and no checksum missing. */
  ghost predicate Reached(before: map<nat, Row>, rows: map<nat, Row>, migrations: seq<Migration>, times: seq<int>,
                          n: nat, k: nat)
    requires |migrations| == |times|
  {
    && n <= k <= |migrations| && Grown(before, rows, migrations, k) && Checked(rows)
    && Timed(rows, migrations, times, n, k)
  }

  lemma ReachedFirst(rows: map<nat, Row>, migrations: seq<Migration>, times: seq<int>, n: nat)
    requires |migrations| == |times| && n <= |migrations| && rows.Keys == Names(migrations, n) && Checked(rows)
    ensures Reached(rows, rows, migrations, times, n, n)
  {
  }

  /** The migrations from `n` up to `k` carry the times of their commits. */
  ghost predicate Timed(rows: map<nat, Row>, migrations: seq<Migration>, times: seq<int>, n: nat, k: nat)
    requires k <= |migrations| == |times|
  {
    forall i :: n <= i < k ==> migrations[i].name in rows && rows[migrations[i].name].at == times[i]
  }

  lemma TimesKept(rows: map<nat, Row>, migrations: seq<Migration>, times: seq<int>, n: nat, k: nat)
    requires Released(migrations) && n <= k <= |migrations| == |times| && rows.Keys == Names(migrations, k)
    requires Timed(rows, migrations, times, n, k)
    ensures forall i :: n <= i < |migrations| && migrations[i].name in rows ==> rows[migrations[i].name].at == times[i]
  {
    forall i | n <= i < |migrations| && migrations[i].name in rows ensures i < k {
      NamesAre(migrations, k, migrations[i].name);
    }
  }

  /** New rows hold their migration's checksum, old ones are as they were. */
  ghost predicate Grown(before: map<nat, Row>, rows: map<nat, Row>, migrations: seq<Migration>, k: nat)
    requires k <= |migrations|
  {
    && rows.Keys == Names(migrations, k)
    && (forall x :: x in before ==> x in rows && rows[x] == before[x])
    && (forall x :: x in rows && x !in before ==> Sealed(migrations, x, rows[x]))
  }

  lemma AdvancedBy(before: map<nat, Row>, filled: map<nat, Row>, rows: map<nat, Row>, migrations: seq<Migration>,
                   n: nat, k: nat)
    requires n <= k <= |migrations| && before.Keys == filled.Keys == Names(migrations, n)
    requires Baselined(before, filled, migrations) && Grown(filled, rows, migrations, k)
    ensures Advanced(before, rows, migrations, n, k)
  {
  }

  lemma GrownStep(before: map<nat, Row>, rows: map<nat, Row>, migrations: seq<Migration>, k: nat, row: Row)
    requires Released(migrations) && k < |migrations| && Grown(before, rows, migrations, k)
      && row.checksum == Some(migrations[k].checksum)
    ensures Grown(before, rows[migrations[k].name := row], migrations, k + 1)
  {
    NamesAre(migrations, k, migrations[k].name);
    assert Sealed(migrations, migrations[k].name, row);
  }

  lemma ScriptsNext(migrations: seq<Migration>, n: nat, i: nat)
    requires n <= i < |migrations|
    ensures Scripts(migrations, n, i + 1) == Scripts(migrations, n, i) + [migrations[i].sql]
  {
  }

  function Max(a: nat, b: nat): nat { if a < b then b else a }

  lemma AppliedIff(migrations: seq<Migration>, applied: seq<Applied>, i: nat)
    requires Released(migrations) && i < |migrations| && SameNames(migrations, applied)
    ensures AppliedName(applied, migrations[i].name) <==> i < |applied|
  {
  }

  predicate AppliedName(applied: seq<Applied>, name: nat)
  {
    exists i :: 0 <= i < |applied| && applied[i].name == name
  }

  // ---------------------------------------------------------------- restarts

  datatype State = State(rows: map<nat, Row>, scripts: seq<string>)

  /** What RunMigrations guarantees of an accepted run, however it ends. */
  ghost predicate RanFrom(migrations: seq<Migration>, s: State, s': State, n: nat, k: nat)
  {
    n <= k <= |migrations| && Advanced(s.rows, s'.rows, migrations, n, k)
      && s'.scripts == s.scripts + Scripts(migrations, n, k)
  }

  ghost predicate Ran(migrations: seq<Migration>, s: State, s': State)
  {
    exists n, k :: RanFrom(migrations, s, s', n, k)
  }

  lemma {:induction false} ScriptsConcat(migrations: seq<Migration>, n: nat, k: nat, m: nat)
    requires n <= k <= m <= |migrations|
    ensures Scripts(migrations, n, k) + Scripts(migrations, k, m) == Scripts(migrations, n, m)
  {
    if m > k { ScriptsConcat(migrations, n, k, m - 1); }
  }

  lemma SameNamesSameCount(migrations: seq<Migration>, n: nat, k: nat)
    requires Released(migrations) && n <= |migrations| && k <= |migrations|
    ensures Names(migrations, n) == Names(migrations, k) ==> n == k
  {
    if n < k { NamesAre(migrations, n, migrations[k - 1].name); }
    if k < n { NamesAre(migrations, k, migrations[n - 1].name); }
  }

  lemma RunsCompose(migrations: seq<Migration>, s: State, t: State, u: State)
    requires Released(migrations) && Ran(migrations, s, t) && Ran(migrations, t, u)
    ensures Ran(migrations, s, u)
  {
    var n: nat, k: nat :| RanFrom(migrations, s, t, n, k);
    var k': nat, m: nat :| RanFrom(migrations, t, u, k', m);
    ComposeFrom(migrations, s, t, u, n, k, k', m);
  }

  lemma ComposeFrom(migrations: seq<Migration>, s: State, t: State, u: State, n: nat, k: nat, k': nat, m: nat)
    requires Released(migrations) && RanFrom(migrations, s, t, n, k) && RanFrom(migrations, t, u, k', m)
    ensures RanFrom(migrations, s, u, n, m)
  {
    SameNamesSameCount(migrations, k, k');
    ScriptsConcat(migrations, n, k, m);
    AdvancedCompose(migrations, s.rows, t.rows, u.rows, n, k, m);
  }

  lemma AdvancedCompose(migrations: seq<Migration>, a: map<nat, Row>, b: map<nat, Row>, c: map<nat, Row>, n: nat,
                        k: nat, m: nat)
    requires n <= k <= m <= |migrations| && Advanced(a, b, migrations, n, k) && Advanced(b, c, migrations, k, m)
    ensures Advanced(a, c, migrations, n, m)
  {
  }

  /**
   * Over any number of accepted runs that died or completed, from an empty database: the table names the first `k`
   * migrations, and exactly their scripts were committed, each once and in order.
   */
  lemma {:induction false} Restarts(migrations: seq<Migration>, states: seq<State>)
    requires Released(migrations) && |states| >= 2 && states[0] == State(map[], [])
    requires forall i :: 0 <= i < |states| - 1 ==> Ran(migrations, states[i], states[i + 1])
    ensures Ran(migrations, states[0], states[|states| - 1])
    ensures exists k ::
      && 0 <= k <= |migrations| && states[|states| - 1].rows.Keys == Names(migrations, k)
      && states[|states| - 1].scripts == Scripts(migrations, 0, k)
  {
    var last := |states| - 1;
    assert Ran(migrations, states[last - 1], states[last]);
    if last > 1 {
      Restarts(migrations, states[..last]);
      RunsCompose(migrations, states[0], states[last - 1], states[last]);
    }
    var n, k :| RanFrom(migrations, states[0], states[last], n, k);
    SameNamesSameCount(migrations, n, 0);
  }

  ghost predicate InCommitOrder(rows: map<nat, Row>, migrations: seq<Migration>)
  {
    forall i, j :: 0 <= i < j < |migrations| && migrations[i].name in rows && migrations[j].name in rows ==>
      rows[migrations[i].name].at <= rows[migrations[j].name].at
  }

  /**
   * A table that holds the first migrations is read back as a prefix exactly when their commit times never went
   * back; a clock set back between two commits makes every later run refuse the history.
   */
  lemma ReadBackIff(migrations: seq<Migration>, rows: map<nat, Row>, applied: seq<Applied>, n: nat)
    requires Released(migrations) && n <= |migrations| && rows.Keys == Names(migrations, n) && Selected(rows, applied)
    ensures (|applied| == n && forall i :: 0 <= i < n ==> applied[i].name == migrations[i].name)
      <==> InCommitOrder(rows, migrations)
  {
    if InCommitOrder(rows, migrations) { OrderedReadsBack(migrations, rows, applied, n); }
    if |applied| == n && forall i :: 0 <= i < n ==> applied[i].name == migrations[i].name {
      forall i, j | 0 <= i < j < |migrations| && migrations[i].name in rows && migrations[j].name in rows
        ensures rows[migrations[i].name].at <= rows[migrations[j].name].at
      {
        NamesAre(migrations, n, migrations[j].name);
        assert j < n;
        assert Before(rows, applied[i].name, applied[j].name);
      }
    }
  }

  /** A row the release accepts for its name, with its checksum or with none but a baseline. */
  ghost predicate RowFits(migrations: seq<Migration>, name: nat, row: Row, baseline: map<nat, nat>)
  {
    exists i :: 0 <= i < |migrations| && Fits(migrations[i], Applied(name, row.checksum), baseline)
  }

  ghost predicate AllFit(migrations: seq<Migration>, rows: map<nat, Row>, baseline: map<nat, nat>)
  {
    forall x :: x in rows ==> RowFits(migrations, x, rows[x], baseline)
  }

  /** What an accepted run leaves, wherever it died, fits its release. */
  lemma LeftFits(migrations: seq<Migration>, before: map<nat, Row>, rows: map<nat, Row>, applied: seq<Applied>, k: nat,
                 baseline: map<nat, nat>)
    requires Selected(before, applied) && Prefix(migrations, applied, baseline) && |applied| <= k <= |migrations|
    requires Advanced(before, rows, migrations, |applied|, k)
    ensures AllFit(migrations, rows, baseline)
  {
    forall x | x in rows ensures RowFits(migrations, x, rows[x], baseline) {
      if x in before && rows[x] == before[x] {
        var i :| 0 <= i < |applied| && applied[i].name == x;
        assert Fits(migrations[i], applied[i], baseline) && applied[i] == Applied(x, rows[x].checksum);
      } else {
        var i :| 0 <= i < |migrations| && migrations[i].name == x && rows[x].checksum == Some(migrations[i].checksum);
        assert Fits(migrations[i], Applied(x, rows[x].checksum), baseline);
      }
    }
  }

  /**
   * After any accepted run, even one that died while it filled checksums, the next run of the same release accepts
   * the history exactly when the commit times never went back.
   */
  lemma AcceptedAgainIff(migrations: seq<Migration>, rows: map<nat, Row>, applied: seq<Applied>, n: nat,
                         baseline: map<nat, nat>)
    requires Released(migrations) && n <= |migrations| && rows.Keys == Names(migrations, n) && Selected(rows, applied)
    requires AllFit(migrations, rows, baseline)
    ensures Prefix(migrations, applied, baseline) <==> InCommitOrder(rows, migrations)
  {
    ReadBackIff(migrations, rows, applied, n);
    if Prefix(migrations, applied, baseline) {
      PrefixNames(applied, migrations, baseline);
      SelectedNames(rows, applied, migrations, baseline);
      SameNamesSameCount(migrations, |applied|, n);
    } else if InCommitOrder(rows, migrations) {
      FittingPrefix(migrations, rows, applied, n, baseline);
    }
  }

  lemma FittingPrefix(migrations: seq<Migration>, rows: map<nat, Row>, applied: seq<Applied>, n: nat,
                      baseline: map<nat, nat>)
    requires Released(migrations) && |applied| == n <= |migrations|
    requires forall i :: 0 <= i < n ==>
      && applied[i].name == migrations[i].name && applied[i].name in rows
      && applied[i].checksum == rows[applied[i].name].checksum
      && RowFits(migrations, applied[i].name, rows[applied[i].name], baseline)
    ensures Prefix(migrations, applied, baseline)
  {
    forall i | 0 <= i < n ensures Fits(migrations[i], applied[i], baseline) {
      var j :| 0 <= j < |migrations| && Fits(migrations[j], Applied(applied[i].name, applied[i].checksum), baseline);
      assert i == j;
    }
  }

  /**
   * An empty database whose clock is set back between two commits: the first run completes, and the next run of the
   * same release refuses the history.
   */
  method SetBackClock(first: string, second: string) returns (before: Outcome, after: Outcome)
    ensures before.Completed? && after.Refused?
  {
    var migrations := [Migration(1, first, 10), Migration(2, second, 20)];
    var database := new Database();
    before := database.RunMigrations(migrations, [], map[], [5, 4], 2);
    BothCommitted(migrations, database.rows);
    assert migrations[0].name in database.rows && migrations[1].name in database.rows;
    assert database.rows[1].at == 5 && database.rows[2].at == 4;
    var applied := [Applied(2, database.rows[2].checksum), Applied(1, database.rows[1].checksum)];
    assert applied[0].name == 2 && applied[1].name == 1;
    after := database.RunMigrations(migrations, applied, map[], [6, 7], 2);
  }

  lemma BothCommitted(migrations: seq<Migration>, rows: map<nat, Row>)
    requires |migrations| == 2 && migrations[0].name == 1 && migrations[1].name == 2
      && rows.Keys == Names(migrations, 2)
    ensures rows.Keys == {1, 2}
  {
    assert Names(migrations, 0) == {} && Names(migrations, 1) == {1};
  }

  lemma OrderedReadsBack(migrations: seq<Migration>, rows: map<nat, Row>, applied: seq<Applied>, n: nat)
    requires Released(migrations) && n <= |migrations| && rows.Keys == Names(migrations, n) && Selected(rows, applied)
    requires InCommitOrder(rows, migrations)
    ensures |applied| == n && forall i :: 0 <= i < n ==> applied[i].name == migrations[i].name
  {
    var a := seq(|applied|, i requires 0 <= i < |applied| => applied[i].name);
    var b := seq(n, i requires 0 <= i < n => migrations[i].name);
    forall x ensures x in a <==> x in rows {
      if x in rows {
        var i :| 0 <= i < |applied| && applied[i].name == x;
        assert a[i] == x;
      }
    }
    forall x ensures x in b <==> x in rows {
      NamesAre(migrations, n, x);
      if x in rows {
        var i :| 0 <= i < n && migrations[i].name == x;
        assert b[i] == x;
      }
    }
    forall i, j | 0 <= i < j < n ensures b[i] in rows && b[j] in rows && Before(rows, b[i], b[j]) {
      assert b[i] in b && b[j] in b && b[i] == migrations[i].name && b[j] == migrations[j].name;
    }
    SortedUnique(rows, a, b);
    forall i | 0 <= i < n ensures applied[i].name == migrations[i].name {
      assert a[i] == b[i];
    }
  }

  lemma {:induction false} SortedUnique(rows: map<nat, Row>, a: seq<nat>, b: seq<nat>)
    requires forall x :: x in a <==> x in b
    requires forall x :: x in a ==> x in rows
    requires forall i, j :: 0 <= i < j < |a| ==> Before(rows, a[i], a[j])
    requires forall i, j :: 0 <= i < j < |b| ==> Before(rows, b[i], b[j])
    ensures a == b
  {
    if b != [] { assert b[0] in a; }
    if a != [] {
      assert a[0] in b && b != [] && b[0] in a;
      var i :| 0 <= i < |b| && b[i] == a[0];
      var j :| 0 <= j < |a| && a[j] == b[0];
      assert a[0] == b[0];
      forall x ensures x in a[1..] <==> x in b[1..] {
        if x in a[1..] { assert x in b && x != b[0]; }
        if x in b[1..] { assert x in a && x != a[0]; }
      }
      SortedUnique(rows, a[1..], b[1..]);
    }
  }
}
