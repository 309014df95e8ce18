/**
 * The validation-options page: eight checks the user can switch on and
 * off, the enabled and critical sub-lists, the time estimate shown for the
 * enabled checks, the category grouping the page renders, the severity
 * colour rule, and the gate on the "Start Validation Process" button.
 */
module Validations {
  import opened Js

  datatype Category = DataIntegrity | Performance | BusinessRules

  datatype Severity = Critical | High | Medium | Low

  datatype ValidationOption = ValidationOption(
    id: string,
    name: string,
    category: Category,
    enabled: bool,
    severity: Severity,
    estimatedTime: string)

  predicate DistinctIds(opts: seq<ValidationOption>)
  {
    forall i, j :: 0 <= i < j < |opts| ==> opts[i].id != opts[j].id
  }

  /** The options the page starts with: the four core checks on, the rest off. */
  function InitialOptions(): (r: seq<ValidationOption>)
    ensures |r| == 8 && DistinctIds(r)
    ensures forall i :: 0 <= i < |r| ==> (r[i].enabled <==> i < 4)
  {
    [ ValidationOption("row-count", "Row Count Validation",
        DataIntegrity, true, Critical, "1-2 minutes"),
      ValidationOption("data-type", "Data Type Matching",
        DataIntegrity, true, High, "2-5 minutes"),
      ValidationOption("null-check", "NULL Value Validation",
        DataIntegrity, true, Medium, "3-7 minutes"),
      ValidationOption("primary-key", "Primary Key Validation",
        DataIntegrity, true, Critical, "2-4 minutes"),
      ValidationOption("foreign-key", "Foreign Key Validation",
        DataIntegrity, false, High, "5-15 minutes"),
      ValidationOption("duplicate-check", "Duplicate Detection",
        BusinessRules, false, Medium, "10-20 minutes"),
      ValidationOption("data-range", "Data Range Validation",
        BusinessRules, false, Low, "5-10 minutes"),
      ValidationOption("performance-test", "Performance Benchmarking",
        Performance, false, Low, "15-30 minutes") ]
  }

  // ---------------------------------------------------------------------
  // Toggling
  // ---------------------------------------------------------------------

  function Flip(o: ValidationOption, id: string): ValidationOption
  {
    if o.id == id then o.(enabled := !o.enabled) else o
  }

  /** The list `toggleValidation(id)` installs. */
  function Toggled(opts: seq<ValidationOption>, id: string): (r: seq<ValidationOption>)
    ensures |r| == |opts|
    ensures forall i :: 0 <= i < |opts| ==>
      r[i].(enabled := opts[i].enabled) == opts[i] &&
      (r[i].enabled <==> (opts[i].enabled != (opts[i].id == id)))
  {
    Map(opts, o => Flip(o, id))
  }

  /** Toggling the same id twice gives back the original list. */
  lemma ToggleTwice(opts: seq<ValidationOption>, id: string)
    ensures Toggled(Toggled(opts, id), id) == opts
  {
    var r := Toggled(Toggled(opts, id), id);
    forall i | 0 <= i < |opts|
      ensures r[i] == opts[i]
    {
    }
  }

  /** Toggling an id no option carries changes nothing. */
  lemma ToggleUnknown(opts: seq<ValidationOption>, id: string)
    requires forall i :: 0 <= i < |opts| ==> opts[i].id != id
    ensures Toggled(opts, id) == opts
  {
  }

  /** The page's list of options. */
  class ValidationsPage {
    var options: seq<ValidationOption>

    constructor ()
      ensures options == InitialOptions()
    {
      options := InitialOptions();
    }

    /** `toggleValidation`. */
    method ToggleValidation(id: string)
      modifies this
      ensures options == Toggled(old(options), id)
    {
      options := Toggled(options, id);
    }
  }

  // ---------------------------------------------------------------------
  // Enabled and critical sub-lists
  // ---------------------------------------------------------------------

  predicate IsOn(o: ValidationOption) { o.enabled }

  predicate IsCritical(o: ValidationOption) { o.severity == Critical }

  predicate IsOnAndCritical(o: ValidationOption) { o.enabled && o.severity == Critical }

  /** `enabledValidations`: the options that are on, in page order. */
  function EnabledValidations(opts: seq<ValidationOption>): (r: seq<ValidationOption>)
    ensures forall o :: o in r <==> o in opts && o.enabled
    ensures IsSubsequence(r, opts)
    ensures forall o :: multiset(r)[o] == if o.enabled then multiset(opts)[o] else 0
  {
    FilterIsSubsequence(opts, IsOn);
    FilterMultiplicity(opts, IsOn);
    Filter(opts, IsOn)
  }

  /**
   * `criticalValidations`: the enabled options of severity critical, which
   * is the same as filtering the whole list once by both tests.
   */
  function CriticalValidations(opts: seq<ValidationOption>): (r: seq<ValidationOption>)
    ensures forall o :: o in r <==> o in opts && o.enabled && o.severity == Critical
    ensures IsSubsequence(r, EnabledValidations(opts))
    ensures r == Filter(opts, IsOnAndCritical)
  {
    var enabled := EnabledValidations(opts);
    FilterIsSubsequence(enabled, IsCritical);
    FilterFilter(opts, IsOn, IsCritical, IsOnAndCritical);
    Filter(enabled, IsCritical)
  }

  /** How many options are on. */
  function EnabledCount(opts: seq<ValidationOption>): (n: nat)
    ensures n <= |opts|
  {
    |EnabledValidations(opts)|
  }

  lemma {:induction false} EnabledCountCons(o: ValidationOption, rest: seq<ValidationOption>)
    ensures EnabledCount([o] + rest) == (if o.enabled then 1 else 0) + EnabledCount(rest)
  {
    assert ([o] + rest)[1..] == rest;
  }

  /** Toggling a non-empty list toggles its head and its tail separately. */
  lemma ToggledTail(opts: seq<ValidationOption>, id: string)
    requires opts != []
    ensures Toggled(opts, id)[0] == Flip(opts[0], id)
    ensures Toggled(opts, id)[1..] == Toggled(opts[1..], id)
  {
    var a, b := Toggled(opts, id)[1..], Toggled(opts[1..], id);
    forall k | 0 <= k < |a|
      ensures a[k] == b[k]
    {
    }
  }

  /** The number of options that are on, counted one option at a time. */
  function CountOn(opts: seq<ValidationOption>): nat
  {
    if opts == [] then 0 else (if opts[0].enabled then 1 else 0) + CountOn(opts[1..])
  }

  lemma {:induction false} EnabledCountIsCountOn(opts: seq<ValidationOption>)
    ensures EnabledCount(opts) == CountOn(opts)
  {
    if opts != [] {
      assert opts == [opts[0]] + opts[1..];
      EnabledCountCons(opts[0], opts[1..]);
      EnabledCountIsCountOn(opts[1..]);
    }
  }

  /** No option other than the i-th carries its id. */
  predicate IdUniqueAt(opts: seq<ValidationOption>, i: nat)
    requires i < |opts|
  {
    forall j :: 0 <= j < |opts| && j != i ==> opts[j].id != opts[i].id
  }

  lemma {:induction false} ToggleCountOn(opts: seq<ValidationOption>, i: nat)
    requires i < |opts| && IdUniqueAt(opts, i)
    ensures CountOn(Toggled(opts, opts[i].id)) ==
      if opts[i].enabled then CountOn(opts) - 1 else CountOn(opts) + 1
  {
    var id := opts[i].id;
    ToggledTail(opts, id);
    if i == 0 {
      ToggleUnknown(opts[1..], id);
    } else {
      assert opts[1..][i - 1] == opts[i];
      ToggleCountOn(opts[1..], i - 1);
    }
  }

  /**
   * When no other option carries the id of option i, toggling it moves the
   * enabled count by exactly one: up when it was off, down when it was on.
   */
  lemma ToggleEnabledCount(opts: seq<ValidationOption>, i: nat)
    requires i < |opts| && IdUniqueAt(opts, i)
    ensures EnabledCount(Toggled(opts, opts[i].id)) ==
      if opts[i].enabled then EnabledCount(opts) - 1 else EnabledCount(opts) + 1
  {
    ToggleCountOn(opts, i);
    EnabledCountIsCountOn(opts);
    EnabledCountIsCountOn(Toggled(opts, opts[i].id));
  }

  // ---------------------------------------------------------------------
  // Start gate and time estimate
  // ---------------------------------------------------------------------

  /** The start button is disabled exactly when no option is on. */
  function StartDisabled(opts: seq<ValidationOption>): (r: bool)
    ensures r <==> forall i :: 0 <= i < |opts| ==> !opts[i].enabled
  {
    FilterEmptyIff(opts, IsOn);
    EnabledValidations(opts) == []
  }

  /** The checks that double the estimate. */
  predicate IsComplex(id: string)
  {
    id == "foreign-key" || id == "duplicate-check" || id == "performance-test"
  }

  predicate HasComplexEnabled(opts: seq<ValidationOption>)
  {
    exists i :: 0 <= i < |opts| && opts[i].enabled && IsComplex(opts[i].id)
  }

  /** `enabledValidations.some((v) => [...].includes(v.id))`. */
  predicate AnyComplex(enabled: seq<ValidationOption>)
  {
    exists j :: 0 <= j < |enabled| && IsComplex(enabled[j].id)
  }

  datatype Estimate = Estimate(low: nat, high: nat)

  /**
   * `getEstimatedTime`: two minutes per enabled check, doubled when one of
   * the complex checks is on, with an upper bound ten minutes higher.
   */
  function EstimatedTime(opts: seq<ValidationOption>): (r: Estimate)
    ensures r.high == r.low + 10
    ensures r.low == 0 <==> StartDisabled(opts)
    ensures HasComplexEnabled(opts) ==> r.low == 4 * EnabledCount(opts)
    ensures !HasComplexEnabled(opts) ==> r.low == 2 * EnabledCount(opts)
  {
    var enabled := EnabledValidations(opts);
    var base := |enabled| * 2;
    var multiplier := if AnyComplex(enabled) then 2 else 1;
    ComplexInEnabled(opts);
    Estimate(base * multiplier, base * multiplier + 10)
  }

  /** Looking for a complex check among the enabled ones or among all the on options is the same. */
  lemma ComplexInEnabled(opts: seq<ValidationOption>)
    ensures AnyComplex(EnabledValidations(opts)) <==> HasComplexEnabled(opts)
  {
    var enabled := EnabledValidations(opts);
    if HasComplexEnabled(opts) {
      var i :| 0 <= i < |opts| && opts[i].enabled && IsComplex(opts[i].id);
      assert opts[i] in enabled;
    }
    if AnyComplex(enabled) {
      var j :| 0 <= j < |enabled| && IsComplex(enabled[j].id);
      assert enabled[j] in opts;
    }
  }

  /**
   * The text the page shows, e.g. "8-18 minutes": parseInt reads the lower
   * bound from its front and the upper bound from just after the dash, and
   * it ends in " minutes".
   */
  function EstimateText(e: Estimate): (r: string)
    ensures ParseInt(r) == Some(e.low as int)
    ensures var k := |NatToString(e.low)|;
      k < |r| && r[k] == '-' && ParseInt(r[k + 1..]) == Some(e.high as int)
    ensures |r| >= 8 && r[|r| - 8..] == " minutes"
  {
    var low, high := NatToString(e.low), NatToString(e.high);
    EstimateTextShape(low, high);
    NumberThenText(e.low, "-" + high + " minutes");
    NumberThenText(e.high, " minutes");
    low + ("-" + high + " minutes")
  }

  /** Where the dash and the unit sit in "<low>-<high> minutes". */
  lemma EstimateTextShape(low: string, high: string)
    ensures var r := low + ("-" + high + " minutes");
      && |low| < |r| && r[|low|] == '-' && r[|low| + 1..] == high + " minutes"
      && |r| >= 8 && r[|r| - 8..] == " minutes"
  {
  }

  // ---------------------------------------------------------------------
  // Severity colour
  // ---------------------------------------------------------------------

  function SeverityName(s: Severity): string
  {
    match s
    case Critical => "critical"
    case High => "high"
    case Medium => "medium"
    case Low => "low"
  }

  const Muted := "text-muted-foreground"

  /**
   * `getSeverityColor`: a fixed class per severity, the muted class for
   * anything else. The page defines this helper but never calls it.
   */
  function SeverityColor(severity: string): (r: string)
    ensures r == "text-destructive" <==> severity == "critical"
    ensures r == "text-warning" <==> severity == "high"
    ensures r == "text-primary" <==> severity == "medium"
    ensures r == Muted <==> severity != "critical" && severity != "high" && severity != "medium"
  {
    if severity == "critical" then "text-destructive"
    else if severity == "high" then "text-warning"
    else if severity == "medium" then "text-primary"
    else Muted
  }

  /** Among the four severities, `getSeverityColor` maps only `low` to the muted class. */
  lemma SeverityColorOfOption(s: Severity)
    ensures SeverityColor(SeverityName(s)) == Muted <==> s == Low
  {
  }

  // ---------------------------------------------------------------------
  // Grouping by category
  // ---------------------------------------------------------------------

  /** One entry of the grouped record: a category and its options. */
  datatype Group = Group(category: Category, members: seq<ValidationOption>)

  /** The categories of `opts` in order of first appearance. */
  function FirstAppearances(opts: seq<ValidationOption>): (r: seq<Category>)
  {
    if opts == [] then []
    else
      var c := opts[|opts| - 1].category;
      var r := FirstAppearances(opts[..|opts| - 1]);
      if c in r then r else r + [c]
  }

  /** Exactly the categories that occur, each once. */
  lemma {:induction false} FirstAppearancesExact(opts: seq<ValidationOption>)
    ensures forall c :: c in FirstAppearances(opts) <==> exists i :: 0 <= i < |opts| && opts[i].category == c
    ensures forall i, j :: 0 <= i < j < |FirstAppearances(opts)| ==> FirstAppearances(opts)[i] != FirstAppearances(opts)[j]
  {
    if opts != [] {
      var n := |opts| - 1;
      var prefix := opts[..n];
      FirstAppearancesExact(prefix);
      var r0 := FirstAppearances(prefix);
      var r := FirstAppearances(opts);
      assert r == if opts[n].category in r0 then r0 else r0 + [opts[n].category];
      forall c
        ensures c in r <==> exists i :: 0 <= i < |opts| && opts[i].category == c
      {
        if exists i :: 0 <= i < |opts| && opts[i].category == c {
          var i :| 0 <= i < |opts| && opts[i].category == c;
          if i < n {
            assert prefix[i].category == c;
          }
        }
        if c in r0 {
          var i :| 0 <= i < |prefix| && prefix[i].category == c;
          assert opts[i].category == c;
        }
      }
      forall i, j | 0 <= i < j < |r|
        ensures r[i] != r[j]
      {
        if j == |r0| {
          assert r[i] == r0[i];
        }
      }
    }
  }

  function Categories(groups: seq<Group>): (r: seq<Category>)
    ensures |r| == |groups| && forall i :: 0 <= i < |groups| ==> r[i] == groups[i].category
  {
    Map(groups, (g: Group) => g.category)
  }

  /** Sum of the group sizes. */
  function TotalMembers(groups: seq<Group>): nat
  {
    if groups == [] then 0
    else TotalMembers(groups[..|groups| - 1]) + |groups[|groups| - 1].members|
  }

  /** Adding one option to group `j` raises the sum by one. */
  lemma {:induction false} TotalMembersPush(groups: seq<Group>, j: nat, o: ValidationOption)
    requires j < |groups|
    ensures TotalMembers(groups[j := groups[j].(members := groups[j].members + [o])]) == TotalMembers(groups) + 1
  {
    var g := groups[j := groups[j].(members := groups[j].members + [o])];
    var n := |groups| - 1;
    if j < n {
      assert g[..n] == groups[..n][j := groups[j].(members := groups[j].members + [o])];
      TotalMembersPush(groups[..n], j, o);
    } else {
      assert g[..n] == groups[..n];
    }
  }

  function InCategory(c: Category): ValidationOption -> bool
  {
    (o: ValidationOption) => o.category == c
  }

  /** The index of the group for `c`, or -1 when there is none yet. */
  function GroupIndex(groups: seq<Group>, c: Category): (r: int)
    ensures -1 <= r < |groups|
    ensures r == -1 <==> forall i :: 0 <= i < |groups| ==> groups[i].category != c
    ensures r >= 0 ==> groups[r].category == c
  {
    if groups == [] then -1
    else if groups[|groups| - 1].category == c then |groups| - 1
    else GroupIndex(groups[..|groups| - 1], c)
  }

  /** `groups` is the grouped record of `prefix`. */
  ghost predicate GroupedAs(groups: seq<Group>, prefix: seq<ValidationOption>)
  {
    && Categories(groups) == FirstAppearances(prefix)
    && MembersExact(groups, prefix)
    && (forall j :: 0 <= j < |groups| ==> groups[j].members != [])
    && TotalMembers(groups) == |prefix|
  }

  lemma FirstAppearancesSnoc(prefix: seq<ValidationOption>, o: ValidationOption)
    ensures FirstAppearances(prefix + [o]) ==
      if o.category in FirstAppearances(prefix) then FirstAppearances(prefix) else FirstAppearances(prefix) + [o.category]
  {
    assert (prefix + [o])[..|prefix|] == prefix;
  }

  /** A grouped record never holds two groups of one category. */
  lemma GroupsDistinct(groups: seq<Group>, prefix: seq<ValidationOption>)
    requires Categories(groups) == FirstAppearances(prefix)
    ensures forall i, j :: 0 <= i < j < |groups| ==> groups[i].category != groups[j].category
  {
    FirstAppearancesExact(prefix);
    forall i, j | 0 <= i < j < |groups|
      ensures groups[i].category != groups[j].category
    {
      assert Categories(groups)[i] != Categories(groups)[j];
    }
  }

  /** The members of every group of `groups` are exactly its category's options in `prefix`. */
  ghost predicate MembersExact(groups: seq<Group>, prefix: seq<ValidationOption>)
  {
    forall j :: 0 <= j < |groups| ==> groups[j].members == Filter(prefix, InCategory(groups[j].category))
  }

  /** `Filter([o], InCategory(c))` is `[o]` or nothing. */
  lemma FilterOne(o: ValidationOption, c: Category)
    ensures Filter([o], InCategory(c)) == if o.category == c then [o] else []
  {
    assert [o][1..] == [];
  }

  /** Pushing an option onto the existing group of its category keeps the members exact. */
  lemma PushExistingMembers(groups: seq<Group>, prefix: seq<ValidationOption>, k: nat, o: ValidationOption)
    requires MembersExact(groups, prefix) && k < |groups| && groups[k].category == o.category
    requires forall j :: 0 <= j < |groups| && j != k ==> groups[j].category != o.category
    ensures MembersExact(groups[k := groups[k].(members := groups[k].members + [o])], prefix + [o])
  {
    var g := groups[k := groups[k].(members := groups[k].members + [o])];
    forall j | 0 <= j < |g|
      ensures g[j].members == Filter(prefix + [o], InCategory(g[j].category))
    {
      FilterAppend(prefix, [o], InCategory(g[j].category));
      FilterOne(o, g[j].category);
    }
  }

  /** Pushing an option onto the existing group of its category keeps the category order. */
  lemma PushExistingCategories(groups: seq<Group>, prefix: seq<ValidationOption>, k: nat, o: ValidationOption)
    requires Categories(groups) == FirstAppearances(prefix)
    requires k < |groups| && groups[k].category == o.category
    ensures Categories(groups[k := groups[k].(members := groups[k].members + [o])]) == FirstAppearances(prefix + [o])
  {
    assert o.category in FirstAppearances(prefix) by {
      assert Categories(groups)[k] == o.category;
    }
    FirstAppearancesSnoc(prefix, o);
    assert Categories(groups[k := groups[k].(members := groups[k].members + [o])]) == Categories(groups);
  }

  /** Pushing an option onto the existing group of its category keeps the grouping exact. */
  lemma {:induction false} PushExisting(groups: seq<Group>, prefix: seq<ValidationOption>, k: nat, o: ValidationOption)
    requires GroupedAs(groups, prefix) && k < |groups| && groups[k].category == o.category
    ensures GroupedAs(groups[k := groups[k].(members := groups[k].members + [o])], prefix + [o])
  {
    GroupsDistinct(groups, prefix);
    PushExistingCategories(groups, prefix, k, o);
    PushExistingMembers(groups, prefix, k, o);
    TotalMembersPush(groups, k, o);
  }

  /** Opening a new group keeps the members exact when no option so far has its category. */
  lemma PushNewMembers(groups: seq<Group>, prefix: seq<ValidationOption>, o: ValidationOption)
    requires MembersExact(groups, prefix)
    requires forall i :: 0 <= i < |prefix| ==> prefix[i].category != o.category
    requires forall j :: 0 <= j < |groups| ==> groups[j].category != o.category
    ensures MembersExact(groups + [Group(o.category, [o])], prefix + [o])
  {
    var g := groups + [Group(o.category, [o])];
    forall j | 0 <= j < |g|
      ensures g[j].members == Filter(prefix + [o], InCategory(g[j].category))
    {
      FilterAppend(prefix, [o], InCategory(g[j].category));
      FilterOne(o, g[j].category);
      if j == |groups| {
        FilterKeepsNone(prefix, InCategory(o.category));
      }
    }
  }

  /** Opening a new group for an unseen category keeps the grouping exact. */
  lemma {:induction false} PushNew(groups: seq<Group>, prefix: seq<ValidationOption>, o: ValidationOption)
    requires GroupedAs(groups, prefix)
    requires forall j :: 0 <= j < |groups| ==> groups[j].category != o.category
    ensures GroupedAs(groups + [Group(o.category, [o])], prefix + [o])
  {
    var g := groups + [Group(o.category, [o])];
    FirstAppearancesExact(prefix);
    assert o.category !in FirstAppearances(prefix) by {
      forall j | 0 <= j < |groups|
        ensures Categories(groups)[j] != o.category
      {
      }
    }
    FirstAppearancesSnoc(prefix, o);
    assert Categories(g) == Categories(groups) + [o.category];
    assert g[..|groups|] == groups;
    PushNewMembers(groups, prefix, o);
  }

  /** One step of the reduce: push `o` onto its category's group, opening the group on first sight. */
  function PushOption(groups: seq<Group>, o: ValidationOption): seq<Group>
  {
    var k := GroupIndex(groups, o.category);
    if k >= 0 then groups[k := groups[k].(members := groups[k].members + [o])]
    else groups + [Group(o.category, [o])]
  }

  /** One step of the reduce keeps the grouping exact. */
  lemma PushKeepsGrouped(groups: seq<Group>, opts: seq<ValidationOption>, i: nat)
    requires i < |opts| && GroupedAs(groups, opts[..i])
    ensures GroupedAs(PushOption(groups, opts[i]), opts[..i + 1])
  {
    assert opts[..i + 1] == opts[..i] + [opts[i]];
    var k := GroupIndex(groups, opts[i].category);
    if k >= 0 {
      PushExisting(groups, opts[..i], k, opts[i]);
    } else {
      PushNew(groups, opts[..i], opts[i]);
    }
  }

  /** What an exact grouping of the whole list says about each group. */
  lemma GroupedAsAll(groups: seq<Group>, opts: seq<ValidationOption>)
    requires GroupedAs(groups, opts[..|opts|])
    ensures Categories(groups) == FirstAppearances(opts)
    ensures forall j :: 0 <= j < |groups| ==>
      groups[j].members == Filter(opts, InCategory(groups[j].category)) && groups[j].members != []
    ensures TotalMembers(groups) == |opts|
  {
    assert opts[..|opts|] == opts;
  }

  /**
   * `groupedValidations`: the reduce that pushes each option onto the list
   * of its category, creating the list on first sight. The result lists
   * the present categories in first-appearance order, each with exactly its
   * options in their original order; no group is empty and the group sizes
   * add up to the number of options.
   */
  method GroupByCategory(opts: seq<ValidationOption>) returns (groups: seq<Group>)
    ensures Categories(groups) == FirstAppearances(opts)
    ensures forall j :: 0 <= j < |groups| ==>
      groups[j].members == Filter(opts, InCategory(groups[j].category)) && groups[j].members != []
    ensures TotalMembers(groups) == |opts|
  {
    groups := [];
    var i := 0;
    while i < |opts|
      invariant 0 <= i <= |opts|
      invariant GroupedAs(groups, opts[..i])
    {
      PushKeepsGrouped(groups, opts, i);
      groups := PushOption(groups, opts[i]);
      i := i + 1;
    }
    GroupedAsAll(groups, opts);
  }
}
