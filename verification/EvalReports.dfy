/** Running a set of evaluation cases and reporting on them (internal/evals/runner.go, internal/evals/report.go). */
module EvalReports {
  import opened Base
  import opened Types
  import opened Evals

  // ---------- counting ----------

  datatype Stats = Stats(total: nat, passed: nat, failed: nat, errors: nat)

  const NONE := Stats(0, 0, 0, 0)

  function Counted(s: Stats, status: CaseStatus): Stats
  {
    match status
    case CasePassed => Stats(s.total + 1, s.passed + 1, s.failed, s.errors)
    case CaseError => Stats(s.total + 1, s.passed, s.failed, s.errors + 1)
    case CaseFailed => Stats(s.total + 1, s.passed, s.failed + 1, s.errors)
  }

  function StatsOf(results: seq<CaseResult>): Stats
  {
    if results == [] then NONE else Counted(StatsOf(results[..|results| - 1]), results[|results| - 1].status)
  }

  predicate Balanced(s: Stats) { s.passed + s.failed + s.errors == s.total }

  lemma {:induction false} StatsBalance(results: seq<CaseResult>)
    ensures Balanced(StatsOf(results)) && StatsOf(results).total == |results|
  {
    if results != [] { StatsBalance(results[..|results| - 1]); }
  }

  datatype EvalRun = EvalRun(stats: Stats, status: CaseStatus, results: seq<CaseResult>)

  /** Manager.Run, which refuses a request that matches no case: each result says what the course of its case
      did; passed, failed and errors add up to the number of cases; the run is in error, failed or passed by
      the worst of them; and the report is the report of this run. */
  method RunAll(s: Suite, cases: seq<Case>) returns (run: Option<EvalRun>, report: Option<Report>)
    ensures run.Some? == report.Some? == (cases != [])
    ensures run.Some? ==> ReportOf(run.value, report.value) && Judged(s, cases, run.value)
  {
    if cases == [] {
      return None, None;
    }
    hide StatsOf, SettledUpTo, Settled, Judged, ReportOf, CourseOf, Approves;
    var results: seq<CaseResult> := [];
    NoneYet(s, cases);
    var passed, failed, errors := 0, 0, 0;
    var i := 0;
    while i < |cases|
      invariant 0 <= i <= |cases|
      invariant SettledUpTo(s, cases, i, results)
      invariant StatsOf(results) == Stats(i, passed, failed, errors)
    {
      var result := RunCase(s, cases[i]);
      OneMore(s, cases, i, results, result);
      results := results + [result];
      match result.status {
        case CasePassed => passed := passed + 1;
        case CaseError => errors := errors + 1;
        case CaseFailed => failed := failed + 1;
      }
      i := i + 1;
    }
    var status := if errors > 0 then CaseError else if failed > 0 then CaseFailed else CasePassed;
    var finished := EvalRun(Stats(|cases|, passed, failed, errors), status, results);
    AllJudged(s, cases, finished);
    var built := BuildReport(finished);
    run, report := Some(finished), Some(built);
  }

  /** The first `i` cases have their results. */
  ghost predicate SettledUpTo(s: Suite, cases: seq<Case>, i: nat, results: seq<CaseResult>)
  {
    |results| == i <= |cases| && forall k :: 0 <= k < i ==> Settled(s, cases[k], results[k])
  }

  lemma NoneYet(s: Suite, cases: seq<Case>)
    ensures SettledUpTo(s, cases, 0, []) && StatsOf([]) == NONE
  {}

  lemma OneMore(s: Suite, cases: seq<Case>, i: nat, results: seq<CaseResult>, r: CaseResult)
    requires SettledUpTo(s, cases, i, results) && i < |cases| && Settled(s, cases[i], r)
    ensures SettledUpTo(s, cases, i + 1, results + [r]) && StatsOf(results + [r]) == Counted(StatsOf(results), r.status)
  {
    hide Settled;
    assert (results + [r])[..|results|] == results;
  }

  lemma {:induction false} StatsTell(results: seq<CaseResult>)
    ensures var n := StatsOf(results);
      && (n.errors > 0 <==> exists r :: r in results && r.status == CaseError)
      && (n.failed == n.errors == 0 <==> forall r :: r in results ==> r.status == CasePassed)
  {
    if results != [] {
      var front, last := results[..|results| - 1], results[|results| - 1];
      StatsTell(front);
      assert results == front + [last];
    }
  }

  /** What a finished run says of its cases. */
  ghost predicate Judged(s: Suite, cases: seq<Case>, run: EvalRun)
  {
    && SettledUpTo(s, cases, |cases|, run.results)
    && run.stats == StatsOf(run.results) && Balanced(run.stats) && run.stats.total == |cases|
    && (run.status == CaseError <==> exists r :: r in run.results && r.status == CaseError)
    && (run.status == CasePassed <==> forall r :: r in run.results ==> r.status == CasePassed)
  }

  lemma AllJudged(s: Suite, cases: seq<Case>, run: EvalRun)
    requires SettledUpTo(s, cases, |cases|, run.results) && StatsOf(run.results) == run.stats
    requires run.status == if run.stats.errors > 0 then CaseError else if run.stats.failed > 0 then CaseFailed else CasePassed
    ensures Judged(s, cases, run)
  {
    hide StatsOf, Settled;
    StatsBalance(run.results);
    StatsTell(run.results);
  }

  /** A run passes exactly when no case is refused, leaks or reports an error, and every case meets its
      expectations by what its own course called and asked approval for. */
  lemma RunPassesExactly(s: Suite, cases: seq<Case>, run: EvalRun)
    requires Judged(s, cases, run)
    ensures run.status == CasePassed <==> forall c :: c in cases ==>
      && s.secrets(c) == [] && s.leaked(c, CourseOf(s, c)) == [] && !CourseOf(s, c).failed && Meets(s.key, c, Watched(s, c))
  {
    hide Meets, CourseOf, Watched, Sound, StatsOf;
    forall k | 0 <= k < |cases| ensures run.results[k].status == StatusOf(s, cases[k]) {
      assert Settled(s, cases[k], run.results[k]);
    }
  }

  // ---------- the report ----------

  function OfCategory(results: seq<CaseResult>, category: string): seq<CaseResult>
  {
    if results == [] then []
    else
      var front, last := results[..|results| - 1], results[|results| - 1];
      OfCategory(front, category) + if last.category == category then [last] else []
  }

  function Accumulate(m: map<string, Stats>, r: CaseResult): map<string, Stats>
  {
    m[r.category := Counted(if r.category in m then m[r.category] else NONE, r.status)]
  }

  function ByCategory(results: seq<CaseResult>): map<string, Stats>
  {
    if results == [] then map[] else Accumulate(ByCategory(results[..|results| - 1]), results[|results| - 1])
  }

  /** A listed failure: the case and the name of the assertion. */
  type Failure = (string, string)

  datatype Report = Report(
    summary: Stats,
    passRate: real,
    byCategory: map<string, Stats>,
    failures: seq<Failure>,
    findings: seq<string>,
    forbiddenCalls: seq<string>)

  function FailuresOf(results: seq<CaseResult>): seq<Failure>
  {
    if results == [] then []
    else FailuresOf(results[..|results| - 1]) + FailedIn(results[|results| - 1].caseID, results[|results| - 1].assertions)
  }

  function FailedIn(id: string, assertions: seq<Assertion>): seq<Failure>
  {
    if assertions == [] then []
    else
      var last := assertions[|assertions| - 1];
      FailedIn(id, assertions[..|assertions| - 1]) + if last.passed then [] else [(id, last.name)]
  }

  function FindingsOf(results: seq<CaseResult>): seq<string>
  {
    if results == [] then [] else FindingsOf(results[..|results| - 1]) + results[|results| - 1].findings
  }

  function ForbiddenOf(results: seq<CaseResult>): seq<string>
  {
    if results == [] then [] else ForbiddenOf(results[..|results| - 1]) + ForbiddenIn(results[|results| - 1].assertions)
  }

  function PassRate(s: Stats): real { if s.total > 0 then s.passed as real / s.total as real else 0.0 }

  /** Every failed assertion of every case is listed, sorted by case and assertion, and nothing else is. */
  ghost predicate ReportOf(run: EvalRun, report: Report)
  {
    && report.summary == run.stats && report.passRate == PassRate(run.stats)
    && report.byCategory == ByCategory(run.results)
    && Sorted(report.failures) && multiset(report.failures) == multiset(FailuresOf(run.results))
    && report.findings == FindingsOf(run.results) && report.forbiddenCalls == ForbiddenOf(run.results)
  }

  lemma ReportStarts()
    ensures ByCategory([]) == map[] && FailuresOf([]) == [] && FindingsOf([]) == [] && ForbiddenOf([]) == []
  {}

  lemma ReportGrows(results: seq<CaseResult>, r: CaseResult)
    ensures var all := results + [r];
      && ByCategory(all) == Accumulate(ByCategory(results), r)
      && FailuresOf(all) == FailuresOf(results) + FailedIn(r.caseID, r.assertions)
      && FindingsOf(all) == FindingsOf(results) + r.findings && ForbiddenOf(all) == ForbiddenOf(results) + ForbiddenIn(r.assertions)
  {
    assert (results + [r])[..|results|] == results;
  }

  method BuildReport(run: EvalRun) returns (report: Report)
    ensures ReportOf(run, report)
  {
    ReportStarts();
    hide ByCategory, FailuresOf, FindingsOf, ForbiddenOf, Sorted, Sort, FailedIn, ForbiddenIn;
    var passRate := if run.stats.total > 0 then run.stats.passed as real / run.stats.total as real else 0.0;
    var byCategory: map<string, Stats> := map[];
    var failures: seq<Failure> := [];
    var findings, forbidden: seq<string> := [], [];
    var i := 0;
    while i < |run.results|
      invariant 0 <= i <= |run.results|
      invariant byCategory == ByCategory(run.results[..i])
      invariant failures == FailuresOf(run.results[..i])
      invariant findings == FindingsOf(run.results[..i])
      invariant forbidden == ForbiddenOf(run.results[..i])
    {
      ReportGrows(run.results[..i], run.results[i]);
      assert run.results[..i + 1] == run.results[..i] + [run.results[i]];
      var result := run.results[i];
      var stats := if result.category in byCategory then byCategory[result.category] else NONE;
      stats := stats.(total := stats.total + 1);
      match result.status {
        case CasePassed => stats := stats.(passed := stats.passed + 1);
        case CaseError => stats := stats.(errors := stats.errors + 1);
        case CaseFailed => stats := stats.(failed := stats.failed + 1);
      }
      byCategory := byCategory[result.category := stats];
      findings := findings + result.findings;
      failures, forbidden := ReportFailures(failures, forbidden, result);
      i := i + 1;
    }
    assert run.results[..|run.results|] == run.results;
    SortIsSorted(failures);
    report := Report(run.stats, passRate, byCategory, Sort(failures), findings, forbidden);
  }

  /** The inner loop. */
  method ReportFailures(before: seq<Failure>, called: seq<string>, result: CaseResult)
    returns (failures: seq<Failure>, forbidden: seq<string>)
    ensures failures == before + FailedIn(result.caseID, result.assertions)
    ensures forbidden == called + ForbiddenIn(result.assertions)
  {
    failures, forbidden := before, called;
    var i := 0;
    while i < |result.assertions|
      invariant 0 <= i <= |result.assertions|
      invariant failures == before + FailedIn(result.caseID, result.assertions[..i])
      invariant forbidden == called + ForbiddenIn(result.assertions[..i])
    {
      assert result.assertions[..i + 1][..i] == result.assertions[..i];
      var assertion := result.assertions[i];
      i := i + 1;
      if assertion.passed {
        continue;
      }
      failures := failures + [(result.caseID, assertion.name)];
      if assertion.name == FORBIDDEN_TOOLS {
        forbidden := forbidden + assertion.actual;
      }
    }
    assert result.assertions[..|result.assertions|] == result.assertions;
  }

  // ---------- the order of the failures ----------

  /** Strings are compared character by character, and a prefix comes first. */
  predicate Before(a: string, b: string)
  {
    if b == "" then false
    else if a == "" then true
    else a[0] < b[0] || (a[0] == b[0] && Before(a[1..], b[1..]))
  }

  predicate Precedes(x: Failure, y: Failure)
  {
    if x.0 == y.0 then Before(x.1, y.1) else Before(x.0, y.0)
  }

  /** No failure comes before an earlier one. */
  ghost predicate Sorted(failures: seq<Failure>)
  {
    forall i, j :: 0 <= i < j < |failures| ==> !Precedes(failures[j], failures[i])
  }

  /** Exactly one of "before", "after" and "equal" holds of two strings, and "before" can be chained. */
  lemma {:induction false} BeforeIsTotal(a: string, b: string)
    ensures !(Before(a, b) && Before(b, a)) && (a == b || Before(a, b) || Before(b, a)) && !Before(a, a)
  {
    if a != "" && b != "" {
      BeforeIsTotal(a[1..], b[1..]);
      assert a == [a[0]] + a[1..] && b == [b[0]] + b[1..];
    }
    if a != "" { BeforeIsTotal(a[1..], a[1..]); }
  }

  lemma {:induction false} BeforeChains(a: string, b: string, c: string)
    requires Before(a, b) && Before(b, c)
    ensures Before(a, c)
  {
    if a != "" && a[0] == b[0] == c[0] {
      BeforeChains(a[1..], b[1..], c[1..]);
    }
  }

  lemma PrecedesIsTotal(x: Failure, y: Failure)
    ensures !(Precedes(x, y) && Precedes(y, x)) && (x == y || Precedes(x, y) || Precedes(y, x)) && !Precedes(x, x)
  {
    BeforeIsTotal(x.0, y.0);
    BeforeIsTotal(x.1, y.1);
    hide Before;
  }

  lemma PrecedesChains(x: Failure, y: Failure, z: Failure)
    requires Precedes(x, y) && Precedes(y, z)
    ensures Precedes(x, z)
  {
    hide Before;
    BeforeIsTotal(x.0, y.0);
    BeforeIsTotal(y.0, z.0);
    if x.0 != y.0 && y.0 != z.0 {
      BeforeChains(x.0, y.0, z.0);
      BeforeIsTotal(x.0, z.0);
    } else if x.0 == y.0 == z.0 {
      BeforeChains(x.1, y.1, z.1);
    }
  }

  function Insert(failures: seq<Failure>, x: Failure): seq<Failure>
  {
    if failures == [] || !Precedes(x, failures[|failures| - 1]) then failures + [x]
    else Insert(failures[..|failures| - 1], x) + [failures[|failures| - 1]]
  }

  function Sort(failures: seq<Failure>): seq<Failure>
  {
    if failures == [] then [] else Insert(Sort(failures[..|failures| - 1]), failures[|failures| - 1])
  }

  lemma {:induction false} InsertKeeps(failures: seq<Failure>, x: Failure)
    ensures multiset(Insert(failures, x)) == multiset(failures) + multiset{x}
  {
    if failures != [] && Precedes(x, failures[|failures| - 1]) {
      InsertKeeps(failures[..|failures| - 1], x);
      assert failures == failures[..|failures| - 1] + [failures[|failures| - 1]];
    }
  }

  lemma {:induction false} InsertSorts(failures: seq<Failure>, x: Failure)
    requires Sorted(failures)
    ensures Sorted(Insert(failures, x))
  {
    hide Precedes;
    if failures == [] {
    } else {
      var front, last := failures[..|failures| - 1], failures[|failures| - 1];
      if Precedes(x, last) {
        InsertSorts(front, x);
        InsertKeeps(front, x);
        var inserted := Insert(front, x);
        assert Insert(failures, x) == inserted + [last];
        forall i | 0 <= i < |inserted| ensures !Precedes(last, inserted[i]) {
          assert inserted[i] in multiset(inserted);
          assert inserted[i] == x || inserted[i] in front;
          PrecedesIsTotal(x, last);
        }
      } else {
        forall i | 0 <= i < |failures| ensures !Precedes(x, failures[i]) {
          PrecedesIsTotal(last, failures[i]);
          if Precedes(x, failures[i]) {
            if failures[i] != last { PrecedesChains(x, failures[i], last); }
          }
        }
      }
    }
  }

  lemma {:induction false} SortIsSorted(failures: seq<Failure>)
    ensures Sorted(Sort(failures)) && multiset(Sort(failures)) == multiset(failures)
  {
    if failures != [] {
      var front, last := failures[..|failures| - 1], failures[|failures| - 1];
      SortIsSorted(front);
      InsertSorts(Sort(front), last);
      InsertKeeps(Sort(front), last);
      assert failures == front + [last];
    }
  }

  lemma WithoutLast(a: seq<Failure>)
    requires a != [] && Sorted(a)
    ensures var front, x := a[..|a| - 1], a[|a| - 1];
      a == front + [x] && Sorted(front) && multiset(front) == multiset(a) - multiset{x}
  {
    hide Precedes;
    assert a == a[..|a| - 1] + [a[|a| - 1]];
  }

  /** Whatever sorts, stable or not: there is only one sorted list of the same failures. */
  lemma {:induction false} SortedIsUnique(a: seq<Failure>, b: seq<Failure>)
    requires Sorted(a) && Sorted(b) && multiset(a) == multiset(b)
    ensures a == b
  {
    hide Precedes;
    assert |a| == |multiset(a)| == |multiset(b)| == |b|;
    if a != [] {
      LastIsLatest(a, b);
      LastIsLatest(b, a);
      PrecedesIsTotal(a[|a| - 1], b[|b| - 1]);
      WithoutLast(a);
      WithoutLast(b);
      hide Sorted;
      SortedIsUnique(a[..|a| - 1], b[..|b| - 1]);
    }
  }

  lemma LastIsLatest(a: seq<Failure>, b: seq<Failure>)
    requires a != [] && b != [] && Sorted(a) && multiset(a) == multiset(b)
    ensures !Precedes(a[|a| - 1], b[|b| - 1])
  {
    hide Precedes;
    var y := b[|b| - 1];
    assert y in multiset(b) && y in multiset(a);
    var j :| 0 <= j < |a| && a[j] == y;
    PrecedesIsTotal(y, y);
  }

  /** Each category's entry counts exactly the results of that category. */
  lemma {:induction false} CategoryExactly(results: seq<CaseResult>, category: string)
    ensures category in ByCategory(results) <==> OfCategory(results, category) != []
    ensures category in ByCategory(results) ==> ByCategory(results)[category] == StatsOf(OfCategory(results, category))
  {
    if results != [] {
      var front, last := results[..|results| - 1], results[|results| - 1];
      CategoryExactly(front, category);
      if last.category == category {
        var earlier := OfCategory(front, category);
        assert (earlier + [last])[..|earlier|] == earlier;
      } else {
        assert OfCategory(front, category) + [] == OfCategory(front, category);
      }
    }
  }

  function Plus(a: Stats, b: Stats): Stats
  {
    Stats(a.total + b.total, a.passed + b.passed, a.failed + b.failed, a.errors + b.errors)
  }

  /** The sum over all entries. */
  ghost function Sum(m: map<string, Stats>): Stats
  {
    if m == map[] then NONE
    else
      var k :| k in m;
      Plus(m[k], Sum(m - {k}))
  }

  /** The order in which entries are added does not matter. */
  lemma {:induction false} SumPick(m: map<string, Stats>, k: string)
    requires k in m
    ensures Sum(m) == Plus(m[k], Sum(m - {k}))
    decreases m
  {
    assert m != map[];
    var j :| j in m && Sum(m) == Plus(m[j], Sum(m - {j}));
    if j != k {
      var a, b := m - {j}, m - {k};
      SumPick(a, k);
      SumPick(b, j);
      assert a - {k} == b - {j};
      assert a[k] == m[k] && b[j] == m[j];
      var rest := Sum(a - {k});
      assert Sum(a) == Plus(m[k], rest) && Sum(b) == Plus(m[j], rest);
      assert Sum(m) == Plus(m[j], Sum(a));
      assert Plus(m[j], Plus(m[k], rest)) == Plus(m[k], Plus(m[j], rest));
    }
  }

  /** Conservation: every category's numbers balance, and together they are the run's. */
  lemma {:induction false} ReportConserves(results: seq<CaseResult>)
    ensures Sum(ByCategory(results)) == StatsOf(results)
    ensures forall c :: c in ByCategory(results) ==> Balanced(ByCategory(results)[c])
  {
    forall c | c in ByCategory(results) ensures Balanced(ByCategory(results)[c]) {
      CategoryExactly(results, c);
      StatsBalance(OfCategory(results, c));
    }
    if results != [] {
      var front, last := results[..|results| - 1], results[|results| - 1];
      ReportConserves(front);
      SumAccumulates(ByCategory(front), last);
    }
  }

  lemma SumAccumulates(m: map<string, Stats>, r: CaseResult)
    ensures Sum(Accumulate(m, r)) == Counted(Sum(m), r.status)
  {
    hide Sum;
    var after := Accumulate(m, r);
    SumPick(after, r.category);
    assert after - {r.category} == m - {r.category};
    if r.category in m {
      SumPick(m, r.category);
      assert Sum(m) == Plus(m[r.category], Sum(after - {r.category}));
    } else {
      assert m - {r.category} == m;
      assert Sum(m) == Sum(after - {r.category});
    }
  }

  /** The pass rate is a share, and it is full exactly when there are cases and all of them passed. */
  lemma PassRateExactly(results: seq<CaseResult>)
    ensures var rate := PassRate(StatsOf(results));
      0.0 <= rate <= 1.0 && (rate == 1.0 <==> results != [] && forall r :: r in results ==> r.status == CasePassed)
  {
    StatsBalance(results);
    StatsTell(results);
    hide StatsOf;
    var n := StatsOf(results);
    if n.total > 0 { Share(n.passed, n.total); }
  }

  lemma Share(some: nat, all: nat)
    requires some <= all && all > 0
    ensures 0.0 <= some as real / all as real <= 1.0 && (some as real / all as real == 1.0 <==> some == all)
  {}

  /** The report lists a failure exactly when some assertion failed; so a run whose cases all passed reports none. */
  lemma {:induction false} NoFailuresExactly(results: seq<CaseResult>)
    ensures FailuresOf(results) == [] <==> forall r :: r in results ==> AllPassed(r.assertions)
  {
    if results != [] {
      var front, last := results[..|results| - 1], results[|results| - 1];
      NoFailuresExactly(front);
      NoneFailedExactly(last.caseID, last.assertions);
      assert results == front + [last];
    }
  }

  lemma {:induction false} NoneFailedExactly(id: string, assertions: seq<Assertion>)
    ensures FailedIn(id, assertions) == [] <==> AllPassed(assertions)
  {
    if assertions != [] {
      var front, last := assertions[..|assertions| - 1], assertions[|assertions| - 1];
      NoneFailedExactly(id, front);
      assert assertions == front + [last];
    }
  }
}
