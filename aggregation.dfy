/** Per-category averages of the stored ratings: the grouped query of
    `get_average_responses_by_role`, the role series of
    `get_role_averages_for_chart`, and the overall series of the admin page.
    Means are exact rationals. */
module Aggregation {
  import opened Wrappers
  import opened SurveyConfig
  import opened Store

  /** The value shown for a category with no ratings in scope: the midpoint of the 0-10 scale. */
  const Default: real := 5.0

  /** Python truthiness of the optional role argument: None and "" both mean "all roles". */
  predicate Truthy(role: Option<string>) {
    role.Some? && role.value != ""
  }

  /** `WHERE role = ?`, keeping storage order. */
  function ForRole(rs: seq<Rating>, role: string): (out: seq<Rating>)
    ensures forall k :: 0 <= k < |out| ==> out[k].role == role
  {
    if |rs| == 0 then []
    else ForRole(rs[..|rs| - 1], role) + (if rs[|rs| - 1].role == role then [rs[|rs| - 1]] else [])
  }

  /** The rows the aggregate query reads: filtered by role only when a role is given. */
  function Scope(rs: seq<Rating>, role: Option<string>): seq<Rating> {
    if Truthy(role) then ForRole(rs, role.value) else rs
  }

  /** The rating values of the rows of one category, in storage order. */
  function CategoryRatings(rs: seq<Rating>, c: string): seq<int> {
    if |rs| == 0 then []
    else CategoryRatings(rs[..|rs| - 1], c) + (if rs[|rs| - 1].category == c then [rs[|rs| - 1].rating] else [])
  }

  function Sum(xs: seq<int>): int {
    if |xs| == 0 then 0 else Sum(xs[..|xs| - 1]) + xs[|xs| - 1]
  }

  /** The arithmetic mean, exactly. */
  function Mean(xs: seq<int>): real
    requires |xs| > 0
  {
    Sum(xs) as real / |xs| as real
  }

  /** The running (sum, count) per category that `GROUP BY category` with `AVG(rating)` accumulates. */
  function Totals(rs: seq<Rating>): (t: map<string, (int, nat)>)
    ensures forall c :: c in t ==> 0 < t[c].1 <= |rs|
  {
    if |rs| == 0 then map[]
    else
      var t := Totals(rs[..|rs| - 1]);
      var r := rs[|rs| - 1];
      var (s, n) := if r.category in t then t[r.category] else (0, 0);
      t[r.category := (s + r.rating, n + 1)]
  }

  /** The accumulated totals are the sum and the count of each category's ratings, and
      exactly the categories with at least one rating have an entry. */
  lemma TotalsAreSumAndCount(rs: seq<Rating>)
    ensures forall c :: c in Totals(rs) <==> |CategoryRatings(rs, c)| > 0
    ensures forall c :: c in Totals(rs) ==> Totals(rs)[c] == (Sum(CategoryRatings(rs, c)), |CategoryRatings(rs, c)|)
  {
    forall c ensures (c in Totals(rs) <==> |CategoryRatings(rs, c)| > 0)
      && (c in Totals(rs) ==> Totals(rs)[c] == (Sum(CategoryRatings(rs, c)), |CategoryRatings(rs, c)|))
    {
      TotalsAt(rs, c);
    }
  }

  lemma {:induction false} TotalsAt(rs: seq<Rating>, c: string)
    ensures c in Totals(rs) <==> |CategoryRatings(rs, c)| > 0
    ensures c in Totals(rs) ==> Totals(rs)[c] == (Sum(CategoryRatings(rs, c)), |CategoryRatings(rs, c)|)
  {
    if |rs| > 0 {
      var init := rs[..|rs| - 1];
      var r := rs[|rs| - 1];
      TotalsAt(init, c);
      var t := Totals(init);
      var xs := CategoryRatings(init, c);
      var (s, n) := if r.category in t then t[r.category] else (0, 0);
      assert Totals(rs) == t[r.category := (s + r.rating, n + 1)];
      if c == r.category {
        assert CategoryRatings(rs, c) == xs + [r.rating];
        assert (xs + [r.rating])[..|xs|] == xs;
      } else {
        assert CategoryRatings(rs, c) == xs;
        assert (c in Totals(rs) <==> c in t) && (c in t ==> Totals(rs)[c] == t[c]);
      }
    }
  }

  /** `get_average_responses_by_role`: the mean rating of each category among
      the rows in scope; a category without rows is absent, not 0. When no row
      is in scope at all, every global category maps to 5 instead. */
  function AverageResponses(cfg: Config, rs: seq<Rating>, role: Option<string>): (avg: map<string, real>)
    ensures |Scope(rs, role)| == 0 ==>
      (avg.Keys == set c | c in Keys(cfg.categories)) && (forall c :: c in avg ==> avg[c] == Default)
    ensures |Scope(rs, role)| > 0 ==>
      forall c :: c in avg <==> |CategoryRatings(Scope(rs, role), c)| > 0
    ensures |Scope(rs, role)| > 0 ==>
      forall c :: c in avg ==> avg[c] == Mean(CategoryRatings(Scope(rs, role), c))
  {
    var scoped := Scope(rs, role);
    if |scoped| > 0 then
      var totals := Totals(scoped);
      TotalsAreSumAndCount(scoped);
      map c | c in totals :: totals[c].0 as real / totals[c].1 as real
    else
      map c | c in Keys(cfg.categories) :: Default
  }

  /** The category axis of a role chart: `list(CONFIG[role].keys())` when a
      role is given and is a top-level key, otherwise the global category keys
      in order. None when that key is `open_questions`, a list without `keys`
      (the AttributeError the source raises). */
  function ChartCategories(cfg: Config, role: Option<string>): (cs: Option<seq<string>>)
    ensures cs.None? <==> Truthy(role) && role.value == "open_questions"
    ensures !Truthy(role) ==> cs == Some(Keys(cfg.categories))
    ensures Truthy(role) && !InConfig(cfg, role.value) ==> cs == Some(Keys(cfg.categories))
    ensures Truthy(role) && InConfig(cfg, role.value) ==> cs == RoleCategories(cfg, role.value)
  {
    if Truthy(role) && InConfig(cfg, role.value) then RoleCategories(cfg, role.value)
    else Some(Keys(cfg.categories))
  }

  /** `get_role_averages_for_chart`: one value per chart category, the mean of
      that category's ratings in scope, or 5 when it has none. */
  function RoleAverages(cfg: Config, rs: seq<Rating>, role: Option<string>): (series: Option<(seq<string>, seq<real>)>)
    ensures series.None? <==> Truthy(role) && role.value == "open_questions"
    ensures series.Some? ==> Some(series.value.0) == ChartCategories(cfg, role)
    ensures series.Some? ==> |series.value.1| == |series.value.0|
    ensures series.Some? ==> forall i :: 0 <= i < |series.value.1| ==>
      series.value.1[i] == (if |CategoryRatings(Scope(rs, role), series.value.0[i])| > 0
                            then Mean(CategoryRatings(Scope(rs, role), series.value.0[i])) else Default)
  {
    match ChartCategories(cfg, role)
    case None => None
    case Some(categories) =>
      var averages := AverageResponses(cfg, rs, role);
      Some((categories, seq(|categories|, i requires 0 <= i < |categories| =>
        if categories[i] in averages then averages[categories[i]] else Default)))
  }

  /** A given role that names a role section of a well-formed document charts
      exactly that section's categories, in configuration order; any other
      given role, and no role at all, charts the global categories. */
  lemma RoleChartFollowsConfig(cfg: Config, rs: seq<Rating>, role: Option<string>)
    requires cfg.Valid()
    ensures Truthy(role) && role.value in Keys(cfg.sections) ==>
      RoleAverages(cfg, rs, role) == Some((Keys(Lookup(cfg.sections, role.value).value), RoleAverages(cfg, rs, role).value.1))
    ensures !Truthy(role) || (role.value !in Keys(cfg.sections) && role.value !in Reserved) || role.value == "categories" ==>
      RoleAverages(cfg, rs, role).Some? && RoleAverages(cfg, rs, role).value.0 == Keys(cfg.categories)
  {
    if Truthy(role) && role.value in Keys(cfg.sections) {
      var i :| 0 <= i < |cfg.sections| && cfg.sections[i].0 == role.value;
      assert role.value !in Reserved;
    }
  }

  lemma {:induction false} SumBounds(xs: seq<int>, lo: int, hi: int)
    requires forall k :: 0 <= k < |xs| ==> lo <= xs[k] <= hi
    ensures |xs| * lo <= Sum(xs) <= |xs| * hi
  {
    if |xs| > 0 {
      SumBounds(xs[..|xs| - 1], lo, hi);
    }
  }

  lemma QuotientBounds(lo: real, hi: real, s: real, n: real)
    requires n > 0.0 && lo * n <= s <= hi * n
    ensures lo <= s / n <= hi
  {
    var q := s / n;
    assert q * n == s;
  }

  /** The mean of values on a scale stays on that scale. */
  lemma MeanWithin(xs: seq<int>, lo: int, hi: int)
    requires |xs| > 0 && forall k :: 0 <= k < |xs| ==> lo <= xs[k] <= hi
    ensures lo as real <= Mean(xs) <= hi as real
  {
    SumBounds(xs, lo, hi);
    QuotientBounds(lo as real, hi as real, Sum(xs) as real, |xs| as real);
  }

  lemma {:induction false} CategoryRatingsFrom(rs: seq<Rating>, c: string, k: nat)
    requires k < |CategoryRatings(rs, c)|
    ensures exists j :: 0 <= j < |rs| && rs[j].category == c && rs[j].rating == CategoryRatings(rs, c)[k]
  {
    var init := rs[..|rs| - 1];
    if k < |CategoryRatings(init, c)| {
      CategoryRatingsFrom(init, c, k);
      var j :| 0 <= j < |init| && init[j].category == c && init[j].rating == CategoryRatings(init, c)[k];
      assert rs[j] == init[j];
    }
  }

  lemma {:induction false} ForRoleFrom(rs: seq<Rating>, role: string, k: nat)
    requires k < |ForRole(rs, role)|
    ensures ForRole(rs, role)[k] in rs
  {
    var init := rs[..|rs| - 1];
    if k < |ForRole(init, role)| {
      ForRoleFrom(init, role, k);
    }
  }

  /** When every stored rating is on the 0-10 scale, so is every value of a role chart. */
  lemma RoleChartWithinScale(cfg: Config, rs: seq<Rating>, role: Option<string>)
    requires forall k :: 0 <= k < |rs| ==> 0 <= rs[k].rating <= 10
    ensures RoleAverages(cfg, rs, role).Some? ==>
      forall v :: v in RoleAverages(cfg, rs, role).value.1 ==> 0.0 <= v <= 10.0
  {
    if RoleAverages(cfg, rs, role).Some? {
      var series := RoleAverages(cfg, rs, role).value;
      var scoped := Scope(rs, role);
      forall i | 0 <= i < |series.1| ensures 0.0 <= series.1[i] <= 10.0 {
        var xs := CategoryRatings(scoped, series.0[i]);
        if |xs| > 0 {
          forall k | 0 <= k < |xs| ensures 0 <= xs[k] <= 10 {
            CategoryRatingsFrom(scoped, series.0[i], k);
            var j :| 0 <= j < |scoped| && scoped[j].category == series.0[i] && scoped[j].rating == xs[k];
            if Truthy(role) {
              ForRoleFrom(rs, role.value, j);
            }
            assert scoped[j] in rs;
          }
          MeanWithin(xs, 0, 10);
        }
      }
    }
  }

  lemma {:induction false} ForRoleAppend(a: seq<Rating>, b: seq<Rating>, role: string)
    ensures ForRole(a + b, role) == ForRole(a, role) + ForRole(b, role)
  {
    if |b| == 0 {
      assert a + b == a;
    } else {
      ForRoleAppend(a, b[..|b| - 1], role);
      assert (a + b)[..|a + b| - 1] == a + b[..|b| - 1];
    }
  }

  lemma {:induction false} CategoryRatingsAppend(a: seq<Rating>, b: seq<Rating>, c: string)
    ensures CategoryRatings(a + b, c) == CategoryRatings(a, c) + CategoryRatings(b, c)
  {
    if |b| == 0 {
      assert a + b == a;
    } else {
      CategoryRatingsAppend(a, b[..|b| - 1], c);
      assert (a + b)[..|a + b| - 1] == a + b[..|b| - 1];
    }
  }

  lemma {:induction false} SumAppend(xs: seq<int>, ys: seq<int>)
    ensures Sum(xs + ys) == Sum(xs) + Sum(ys)
  {
    if |ys| == 0 {
      assert xs + ys == xs;
    } else {
      SumAppend(xs, ys[..|ys| - 1]);
      assert (xs + ys)[..|xs + ys| - 1] == xs + ys[..|ys| - 1];
    }
  }

  /** Appending rows (one submission) adds each new rating in scope exactly
      once to its category's sum and count. */
  lemma AppendedRatingsCounted(a: seq<Rating>, b: seq<Rating>, role: Option<string>, c: string)
    ensures |CategoryRatings(Scope(a + b, role), c)| == |CategoryRatings(Scope(a, role), c)| + |CategoryRatings(Scope(b, role), c)|
    ensures Sum(CategoryRatings(Scope(a + b, role), c)) == Sum(CategoryRatings(Scope(a, role), c)) + Sum(CategoryRatings(Scope(b, role), c))
  {
    if Truthy(role) {
      ForRoleAppend(a, b, role.value);
    }
    CategoryRatingsAppend(Scope(a, role), Scope(b, role), c);
    SumAppend(CategoryRatings(Scope(a, role), c), CategoryRatings(Scope(b, role), c));
  }

  /** Two ratings 10 and 0 of one category under one role average to exactly 5. */
  lemma TenAndZeroAverageFive(cfg: Config)
    ensures AverageResponses(cfg, [Rating(1, "team", "A", "q", 10), Rating(2, "team", "A", "q", 0)], Some("team"))["A"] == 5.0
  {
    var rs := [Rating(1, "team", "A", "q", 10), Rating(2, "team", "A", "q", 0)];
    assert rs[..1] == [rs[0]];
    assert ForRole(rs, "team") == rs;
    assert CategoryRatings(rs, "A") == [10, 0];
    assert Sum([10, 0]) == 10 by {
      assert [10, 0][..1] == [10];
    }
  }

  /** The value of one category on the overall chart: its mean over all
      roles, or 5 when it has no rating or its mean is 0 (a falsy value). */
  function OverallValue(rs: seq<Rating>, c: string): (v: real)
    ensures v != 0.0
    ensures |CategoryRatings(rs, c)| == 0 ==> v == Default
    ensures |CategoryRatings(rs, c)| > 0 && Mean(CategoryRatings(rs, c)) == 0.0 ==> v == Default
    ensures |CategoryRatings(rs, c)| > 0 && Mean(CategoryRatings(rs, c)) != 0.0 ==> v == Mean(CategoryRatings(rs, c))
  {
    var xs := CategoryRatings(rs, c);
    if |xs| == 0 then Default
    else if Mean(xs) == 0.0 then Default
    else Mean(xs)
  }

  /** A database connection; a query on a closed one raises ProgrammingError. */
  datatype Connection = Connection(isOpen: bool)

  /** `SELECT AVG(rating) AS avg FROM ratings WHERE category = ?` on `conn`:
      None when the query raises, otherwise the average, itself None (SQL
      NULL) when no row matches. */
  function QueryAverage(conn: Connection, rs: seq<Rating>, c: string): (r: Option<Option<real>>)
    ensures r.None? <==> !conn.isOpen
    ensures r.Some? ==> (r.value.None? <==> |CategoryRatings(rs, c)| == 0)
    ensures r.Some? && r.value.Some? ==> r.value.value == Mean(CategoryRatings(rs, c))
  {
    if !conn.isOpen then None
    else
      var xs := CategoryRatings(rs, c);
      Some(if |xs| > 0 then Some(Mean(xs)) else None)
  }

  /** The per-category query of the overall series agrees with the grouped
      query over all roles: on a non-empty table, the average is NULL exactly
      for a category absent from the grouped result, and otherwise the same
      average. */
  lemma QueryMatchesGrouped(cfg: Config, rs: seq<Rating>, c: string)
    requires |rs| > 0
    ensures QueryAverage(Connection(true), rs, c)
      == Some(if c in AverageResponses(cfg, rs, None) then Some(AverageResponses(cfg, rs, None)[c]) else None)
  {
  }

  /** The loop building the overall series, run on `conn`: one value per
      global category, or None when a query raises. On an open connection it
      gives exactly the intended series. */
  method OverallLoop(cfg: Config, rs: seq<Rating>, conn: Connection) returns (values: Option<seq<real>>)
    ensures values.None? <==> !conn.isOpen && |cfg.categories| > 0
    ensures values.Some? ==> |values.value| == |cfg.categories|
    ensures values.Some? ==> forall i :: 0 <= i < |values.value| ==> values.value[i] == OverallValue(rs, cfg.categories[i].0)
  {
    var allCategories := Keys(cfg.categories);
    var allValues := [];
    for i := 0 to |allCategories|
      invariant |allValues| == i
      invariant conn.isOpen || i == 0
      invariant forall k :: 0 <= k < i ==> allValues[k] == OverallValue(rs, allCategories[k])
    {
      var avg := QueryAverage(conn, rs, allCategories[i]);
      if avg.None? {
        return None;
      }
      allValues := allValues + [if avg.value.Some? && avg.value.value != 0.0 then avg.value.value else Default];
    }
    values := Some(allValues);
  }

  /** The admin page's overall series as written: the connection is closed
      right after the statistics queries, before the overall-series loop
      queries it, so that loop raises whenever at least one category is
      configured. (The role-chart loop before it is not part of this member.) */
  method AdminOverallAsWritten(cfg: Config, rs: seq<Rating>) returns (values: Option<seq<real>>)
    ensures values.None? <==> |cfg.categories| > 0
    ensures values.Some? ==> values.value == []
  {
    var conn := Connection(true);
    // the response listing and the statistics are read here
    conn := Connection(false);
    values := OverallLoop(cfg, rs, conn);
  }

  /** The overall series as intended: the same loop, run while the connection
      is still open. */
  method OverallAverages(cfg: Config, rs: seq<Rating>) returns (values: seq<real>)
    ensures |values| == |cfg.categories|
    ensures forall i :: 0 <= i < |values| ==> values[i] == OverallValue(rs, cfg.categories[i].0)
  {
    var conn := Connection(true);
    var result := OverallLoop(cfg, rs, conn);
    values := result.value;
  }

  /** On the 0-10 scale, the overall chart never shows 0: each value lies in (0, 10]. */
  lemma OverallValueWithinScale(rs: seq<Rating>, c: string)
    requires forall k :: 0 <= k < |rs| ==> 0 <= rs[k].rating <= 10
    ensures 0.0 < OverallValue(rs, c) <= 10.0
  {
    var xs := CategoryRatings(rs, c);
    if |xs| > 0 {
      forall k | 0 <= k < |xs| ensures 0 <= xs[k] <= 10 {
        CategoryRatingsFrom(rs, c, k);
      }
      MeanWithin(xs, 0, 10);
    }
  }
}
