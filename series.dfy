/** One respondent's chart series, `get_user_responses_for_chart`: the
    ratings of one response gathered into a dict keyed by category, read
    out along the categories of the response's role. */
module UserCharts {
  import opened Wrappers
  import opened SurveyConfig
  import opened Store

  /** The value shown for a category the respondent did not rate. */
  const DefaultRating: int := 5

  /** The keys of `{row['category']: row['rating'] for row in rows}`: each
      rated category once, in order of first appearance. */
  function ObservedCategories(rs: seq<Rating>): (cs: seq<string>)
    ensures forall i, j :: 0 <= i < j < |cs| ==> cs[i] != cs[j]
    ensures forall c :: c in cs <==> exists k :: 0 <= k < |rs| && rs[k].category == c
  {
    if |rs| == 0 then []
    else
      var init := rs[..|rs| - 1];
      var cs := ObservedCategories(init);
      var c := rs[|rs| - 1].category;
      assert forall k :: 0 <= k < |init| ==> init[k] == rs[k];
      if c in cs then cs else cs + [c]
  }

  /** Dict order is first-insertion order: a category listed before another
      was first rated before the other was rated at all. */
  lemma {:induction false} ObservedInFirstAppearanceOrder(rs: seq<Rating>, i: nat, j: nat)
    requires i < j < |ObservedCategories(rs)|
    ensures exists k :: (0 <= k < |rs| && rs[k].category == ObservedCategories(rs)[i] &&
      (forall m :: 0 <= m <= k ==> rs[m].category != ObservedCategories(rs)[j]))
  {
    var init := rs[..|rs| - 1];
    var before := ObservedCategories(init);
    var cs := ObservedCategories(rs);
    assert forall k :: 0 <= k < |init| ==> init[k] == rs[k];
    if j < |before| {
      ObservedInFirstAppearanceOrder(init, i, j);
      var k :| 0 <= k < |init| && init[k].category == before[i] &&
        forall m :: 0 <= m <= k ==> init[m].category != before[j];
      assert rs[k].category == cs[i];
    } else {
      assert cs[j] !in before;
      assert before[i] in before;
      var k :| 0 <= k < |init| && init[k].category == before[i];
      assert rs[k].category == cs[i];
    }
  }

  /** The value of that dict for a category: the rating of the last row of
      that category, later rows overwriting earlier ones. */
  function LastRating(rs: seq<Rating>, c: string): (v: Option<int>)
    ensures v.None? <==> forall k :: 0 <= k < |rs| ==> rs[k].category != c
    ensures v.Some? ==> exists k :: (0 <= k < |rs| && rs[k].category == c && rs[k].rating == v.value &&
      (forall m :: k < m < |rs| ==> rs[m].category != c))
  {
    if |rs| == 0 then None
    else if rs[|rs| - 1].category == c then Some(rs[|rs| - 1].rating)
    else
      var init := rs[..|rs| - 1];
      assert forall k :: 0 <= k < |init| ==> init[k] == rs[k];
      LastRating(init, c)
  }

  datatype UserChart = UserChart(response: Response, categories: seq<string>, values: seq<int>)

  /** The three ways the function ends: no such response (`None, None, None`),
      an exception, or the series. */
  datatype SeriesResult = NotFound | Raised | Found(chart: UserChart)

  /** `get_user_responses_for_chart`: the categories of the response's role
      when the role is a top-level configuration key, otherwise the categories
      the response rated; each with the response's rating, or 5 if unrated.
      A role `open_questions` names a list without `keys`, and raises. */
  function UserSeries(cfg: Config, responses: seq<Response>, ratings: seq<Rating>, id: nat): (r: SeriesResult)
    ensures r.NotFound? <==> id !in Ids(responses)
    ensures r.Raised? <==> id in Ids(responses) && FindResponse(responses, id).value.role == Some("open_questions")
    ensures r.Found? ==> r.chart.response in responses && r.chart.response.id == id
    ensures r.Found? ==> |r.chart.values| == |r.chart.categories|
    ensures r.Found? ==> var role := r.chart.response.role;
      Some(r.chart.categories) ==
        if role.Some? && InConfig(cfg, role.value) then RoleCategories(cfg, role.value)
        else Some(ObservedCategories(RatingsFor(ratings, id)))
    ensures r.Found? ==> forall i :: 0 <= i < |r.chart.values| ==>
      r.chart.values[i] == LastRating(RatingsFor(ratings, id), r.chart.categories[i]).GetOr(DefaultRating)
  {
    match FindResponse(responses, id)
    case None => NotFound
    case Some(response) =>
      var own := RatingsFor(ratings, id);
      var categories :=
        if response.role.Some? && InConfig(cfg, response.role.value) then RoleCategories(cfg, response.role.value)
        else Some(ObservedCategories(own));
      match categories
      case None => Raised
      case Some(cs) =>
        Found(UserChart(response, cs, seq(|cs|, i requires 0 <= i < |cs| => LastRating(own, cs[i]).GetOr(DefaultRating))))
  }

  /** A response whose role is not a configuration key charts exactly the
      categories it rated (each once, in order of first rating), each with its
      last rating: no default value appears. */
  lemma UnconfiguredRoleShowsOwnRatings(cfg: Config, responses: seq<Response>, ratings: seq<Rating>, id: nat)
    requires id in Ids(responses)
    requires FindResponse(responses, id).value.role.None? || !InConfig(cfg, FindResponse(responses, id).value.role.value)
    ensures UserSeries(cfg, responses, ratings, id).Found?
    ensures UserSeries(cfg, responses, ratings, id).chart.categories == ObservedCategories(RatingsFor(ratings, id))
    ensures var chart := UserSeries(cfg, responses, ratings, id).chart;
      forall i :: 0 <= i < |chart.values| ==> Some(chart.values[i]) == LastRating(RatingsFor(ratings, id), chart.categories[i])
  {
    var own := RatingsFor(ratings, id);
    var response := FindResponse(responses, id).value;
    var cs := ObservedCategories(own);
    var chart := UserChart(response, cs, seq(|cs|, i requires 0 <= i < |cs| => LastRating(own, cs[i]).GetOr(DefaultRating)));
    assert UserSeries(cfg, responses, ratings, id) == Found(chart);
    forall i | 0 <= i < |chart.values| ensures Some(chart.values[i]) == LastRating(own, chart.categories[i]) {
      assert chart.categories[i] in chart.categories;
    }
  }

  /** A response whose role has its own section charts that section's
      categories in configuration order, unrated ones at 5. */
  lemma ConfiguredRoleShowsSection(cfg: Config, responses: seq<Response>, ratings: seq<Rating>, id: nat, i: nat)
    requires cfg.Valid() && id in Ids(responses)
    requires FindResponse(responses, id).value.role.Some?
    requires FindResponse(responses, id).value.role.value in Keys(cfg.sections)
    ensures UserSeries(cfg, responses, ratings, id).Found?
    ensures UserSeries(cfg, responses, ratings, id).chart.categories
      == Keys(Lookup(cfg.sections, FindResponse(responses, id).value.role.value).value)
    ensures var chart := UserSeries(cfg, responses, ratings, id).chart;
      i < |chart.values| && (forall k :: 0 <= k < |RatingsFor(ratings, id)| ==> RatingsFor(ratings, id)[k].category != chart.categories[i])
      ==> chart.values[i] == DefaultRating
  {
    var role := FindResponse(responses, id).value.role.value;
    var j :| 0 <= j < |cfg.sections| && cfg.sections[j].0 == role;
    assert role !in Reserved;
  }

  /** The results page right after a submission: the new id is found, the
      chart belongs to the submitted response, and its values come only from
      the ratings of that submission. */
  lemma SubmittedResponseCharted(cfg: Config, responses: seq<Response>, ratings: seq<Rating>,
                                 openAnswers: seq<OpenAnswer>, nextId: nat, form: seq<(string, string)>)
    requires Consistent(responses, ratings, openAnswers, nextId)
    requires Submission(cfg, nextId, form).Some?
    ensures var b := Submission(cfg, nextId, form).value;
      var r := UserSeries(cfg, responses + [b.response], ratings + b.ratings, nextId);
      && !r.NotFound?
      && (r.Raised? <==> b.response.role == Some("open_questions"))
      && (r.Found? ==> r.chart.response == b.response)
      && (r.Found? ==> forall i :: 0 <= i < |r.chart.values| ==>
            r.chart.values[i] == LastRating(b.ratings, r.chart.categories[i]).GetOr(DefaultRating))
  {
    var b := Submission(cfg, nextId, form).value;
    SubmissionRowsCarryId(cfg, nextId, form);
    CommitConsistent(responses, ratings, openAnswers, nextId, b);
    IdsBelow(responses, nextId);
    FindAppended(responses, b.response);
  }
}
