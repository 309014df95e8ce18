/**
 * The results page: a fixed list of per-table validation results, the
 * pass/fail/warning counts and the total issue count shown above it, and
 * the list filtered by a table selector and a status selector, each of
 * which may be "all".
 */
module Results {
  import opened Js

  datatype ResultStatus = Pass | Fail | Warning

  datatype ValidationResult = ValidationResult(
    id: string,
    table: string,
    status: ResultStatus,
    rowCountMatch: bool,
    typeMatch: bool,
    nullsMatch: bool,
    primaryKeyMatch: bool,
    foreignKeyMatch: bool,
    sourceRows: nat,
    targetRows: nat,
    issues: nat)

  /** The status as the selector spells it. */
  function StatusName(s: ResultStatus): (r: string)
    ensures r != "all"
  {
    match s
    case Pass => "pass"
    case Fail => "fail"
    case Warning => "warning"
  }

  lemma StatusNameInjective(a: ResultStatus, b: ResultStatus)
    ensures StatusName(a) == StatusName(b) <==> a == b
  {
  }

  /** The results the page shows. */
  function SampleResults(): (r: seq<ValidationResult>)
    ensures |r| == 5
  {
    [ ValidationResult("1", "customers", Fail, false, true, true, false, true, 10000, 9999, 3),
      ValidationResult("2", "orders", Pass, true, true, true, true, true, 45678, 45678, 0),
      ValidationResult("3", "products", Warning, true, false, true, true, true, 1250, 1250, 2),
      ValidationResult("4", "order_items", Pass, true, true, true, true, true, 123456, 123456, 0),
      ValidationResult("5", "categories", Warning, true, true, false, true, true, 45, 45, 1) ]
  }

  // ---------------------------------------------------------------------
  // Counts
  // ---------------------------------------------------------------------

  function HasStatus(s: ResultStatus): ValidationResult -> bool
  {
    (r: ValidationResult) => r.status == s
  }

  /** `validationResults.filter((r) => r.status === s).length`. */
  function CountStatus(results: seq<ValidationResult>, s: ResultStatus): (n: nat)
    ensures n <= |results|
    ensures n == 0 <==> forall i :: 0 <= i < |results| ==> results[i].status != s
  {
    FilterEmptyIff(results, HasStatus(s));
    |Filter(results, HasStatus(s))|
  }

  /** Every result is counted under exactly one of the three statuses. */
  lemma {:induction false} CountsPartition(results: seq<ValidationResult>)
    ensures CountStatus(results, Pass) + CountStatus(results, Fail) + CountStatus(results, Warning) == |results|
  {
    if results != [] {
      var x, rest := results[0], results[1..];
      assert results == [x] + rest;
      CountsPartition(rest);
      FilterCons(x, rest, HasStatus(Pass));
      FilterCons(x, rest, HasStatus(Fail));
      FilterCons(x, rest, HasStatus(Warning));
    }
  }

  /** `validationResults.reduce((sum, r) => sum + r.issues, 0)`. */
  function TotalIssues(results: seq<ValidationResult>): (r: nat)
    ensures forall k :: 0 <= k < |results| ==> results[k].issues <= r
  {
    if results == [] then 0 else TotalIssues(results[..|results| - 1]) + results[|results| - 1].issues
  }

  /** The total over two lists laid end to end is the sum of their totals. */
  lemma {:induction false} TotalIssuesAppend(a: seq<ValidationResult>, b: seq<ValidationResult>)
    ensures TotalIssues(a + b) == TotalIssues(a) + TotalIssues(b)
    decreases |b|
  {
    if b != [] {
      var n := |b| - 1;
      assert (a + b)[..|a + b| - 1] == a + b[..n];
      TotalIssuesAppend(a, b[..n]);
    } else {
      assert a + b == a;
    }
  }

  /** A single result contributes exactly its own issue count. */
  lemma TotalIssuesSingle(r: ValidationResult)
    ensures TotalIssues([r]) == r.issues
  {
    assert [r][..0] == [];
  }

  /** No issue is counted exactly when every result has none. */
  lemma {:induction false} TotalIssuesZero(results: seq<ValidationResult>)
    ensures TotalIssues(results) == 0 <==> forall i :: 0 <= i < |results| ==> results[i].issues == 0
  {
    if results != [] {
      var n := |results| - 1;
      TotalIssuesZero(results[..n]);
      assert forall i :: 0 <= i < n ==> results[..n][i] == results[i];
    }
  }

  /** The total is the sum of the totals of the pass, fail and warning groups. */
  lemma {:induction false} TotalIssuesByStatus(results: seq<ValidationResult>)
    ensures TotalIssues(results) ==
      TotalIssues(Filter(results, HasStatus(Pass))) +
      TotalIssues(Filter(results, HasStatus(Fail))) +
      TotalIssues(Filter(results, HasStatus(Warning)))
  {
    if results != [] {
      var x, rest := results[0], results[1..];
      assert results == [x] + rest;
      TotalIssuesByStatus(rest);
      TotalIssuesAppend([x], rest);
      FilterCons(x, rest, HasStatus(Pass));
      FilterCons(x, rest, HasStatus(Fail));
      FilterCons(x, rest, HasStatus(Warning));
      TotalIssuesAppend([x], Filter(rest, HasStatus(x.status)));
      TotalIssuesAppend([], Filter(rest, HasStatus(Pass)));
      TotalIssuesAppend([], Filter(rest, HasStatus(Fail)));
      TotalIssuesAppend([], Filter(rest, HasStatus(Warning)));
      assert [x][..0] == [];
    }
  }

  // ---------------------------------------------------------------------
  // Filtering by table and status
  // ---------------------------------------------------------------------

  /** Both selectors accept the result: each is "all" or names the result's value. */
  predicate Matches(r: ValidationResult, table: string, status: string)
  {
    (table == "all" || r.table == table) && (status == "all" || StatusName(r.status) == status)
  }

  function Selected(table: string, status: string): ValidationResult -> bool
  {
    (r: ValidationResult) => Matches(r, table, status)
  }

  /** `filteredResults`. */
  function FilteredResults(results: seq<ValidationResult>, table: string, status: string): (r: seq<ValidationResult>)
    ensures forall x :: x in r <==> x in results && Matches(x, table, status)
    ensures IsSubsequence(r, results)
    ensures forall x :: multiset(r)[x] == if Matches(x, table, status) then multiset(results)[x] else 0
  {
    FilterIsSubsequence(results, Selected(table, status));
    FilterMultiplicity(results, Selected(table, status));
    Filter(results, Selected(table, status))
  }

  /** With both selectors on "all" the whole list is shown, in order. */
  lemma AllAllShowsEverything(results: seq<ValidationResult>)
    ensures FilteredResults(results, "all", "all") == results
  {
    FilterKeepsAll(results, Selected("all", "all"));
  }

  /** Filtering the filtered list again with the same selectors changes nothing. */
  lemma FilterAgainChangesNothing(results: seq<ValidationResult>, table: string, status: string)
    ensures FilteredResults(FilteredResults(results, table, status), table, status)
         == FilteredResults(results, table, status)
  {
    FilterIdempotent(results, Selected(table, status));
  }

  /** Choosing the table alone and then the status alone gives the combined selection. */
  lemma SelectorsCompose(results: seq<ValidationResult>, table: string, status: string)
    ensures FilteredResults(FilteredResults(results, table, "all"), "all", status)
         == FilteredResults(results, table, status)
  {
    FilterFilter(results, Selected(table, "all"), Selected("all", status), Selected(table, status));
  }

  /** The status selector shows exactly the results the status count counts. */
  lemma StatusSelectorMatchesCount(results: seq<ValidationResult>, s: ResultStatus)
    ensures |FilteredResults(results, "all", StatusName(s))| == CountStatus(results, s)
  {
    forall i | 0 <= i < |results|
      ensures Selected("all", StatusName(s))(results[i]) == HasStatus(s)(results[i])
    {
      StatusNameInjective(results[i].status, s);
    }
    FilterCongruent(results, Selected("all", StatusName(s)), HasStatus(s));
  }
}
