# Team survey: a verified model of submission, aggregation and chart series

The application is a small survey web app. A respondent picks a role, rates
the questions of each category configured for that role on a 0-10 scale and
answers a few open questions. Each submission is stored as one response row
with its rating rows and open-answer rows. The result pages draw spider
charts:

- one response's ratings;
- the per-category averages of a role;
- the per-category averages over all roles.

This project models the logic of `main.py` behind those pages:

- **`SurveyConfig`** (`config.dfy`) is the survey configuration document, a
  read-only value. Python dicts keep insertion order, and chart axes follow
  that order, so every mapping is an ordered sequence of pairs.
  - `TopLevel` is `CONFIG[key]` on the top-level document. It includes the
    three fixed keys `roles`, `categories` and `open_questions`, because
    `role in CONFIG` tests those as well.
  - `Label` is the display label of a category, falling back to the key.
- **`FormText`** (`forms.dfy`) holds the string operations the submit handler
  applies:
  - `str.split('_')`;
  - `int(...)` on numerals;
  - the blankness test of `str.strip()`.
- **`Store`** (`store.dfy`) holds the three tables and the submit handler.
  - `ResponseStore` is a class with the three tables and the auto-increment
    counter.
  - `ResponseStore.Submit` runs the two form loops (`CollectRatings`,
    `CollectOpenAnswers`) and then commits the response row and its rows
    together.
  - A form item that makes the handler raise commits nothing:
    - `int()` on a non-numeral;
    - an index below minus the list length;
    - a rating outside SQLite's signed 64-bit INTEGER range, which the
      insert cannot bind;
    - indexing the open-question list with a string.
  - `Submission` is the same handler as a function. The lemmas about the
    rows it stores are stated about it.
- **`Aggregation`** (`aggregation.dfy`) computes the grouped average query,
  the role chart series and the overall chart series. Means are exact
  rationals.
- **`UserCharts`** (`series.dfy`) builds one response's chart series. It keeps
  the dict semantics of the source: keys in first-insertion order, and a
  later rating of a category overwrites an earlier one.
- **`SpiderChart`** (`chart.dfy`) prepares what is handed to the plotting
  library:
  - evenly spaced axes;
  - the polygon closed by repeating its first point;
  - the axis labels.

## Model

| member | source | states |
|---|---|---|
| SurveyConfig.Lookup | main.py:231-232 | `d.get(k)` finds a value exactly when `k` is a key, and the value is paired with `k` in the mapping |
| SurveyConfig.LookupAt | main.py:231-232 | with distinct keys, looking up the key at position i yields the value at position i |
| SurveyConfig.TopLevel | main.py:231 | `CONFIG[key]` exists exactly for the three fixed keys and the role section keys; a section key yields its own section |
| SurveyConfig.InConfig | main.py:188 | `role in CONFIG` holds exactly for the three fixed keys and the keys of the role sections |
| SurveyConfig.RoleChecksDiffer | main.py:188 | `role in CONFIG` accepts the fixed keys whatever roles are listed, and rejects a listed role that has no section (unlike `role in CONFIG['roles']` at main.py:400) |
| SurveyConfig.RoleCategories | main.py:138-139 | `CONFIG[role].keys()` fails exactly when the role is not a top-level key or names the open-question list; for `categories` it gives the category keys and for `roles` the role keys; for a section it gives that section's keys in order |
| SurveyConfig.Label | main.py:83 | an unconfigured category is labelled by its own key; a configured one by a label the document pairs with it |
| SurveyConfig.ConfiguredLabel | main.py:83 | in a well-formed document, each configured category shows exactly its configured label |
| FormText.Split | main.py:224 | `split` always yields at least one part |
| FormText.SplitJoin | main.py:224 | joining the parts with the separator gives the key back, and no part contains the separator |
| FormText.ParseInt | main.py:228 | `int(s)` reads a digit string as its decimal value and a signed one with its sign; it succeeds only on a non-empty text starting with a digit or a sign |
| FormText.ParseIntRejects | main.py:228 | `int(s)` succeeds exactly on numerals, an optional sign followed by at least one digit, and raises on every other text such as "5a", "-" or ""; the interpreter's limit on the number of digits is left out |
| FormText.ParseShow | main.py:228 | `int(str(n)) == n` for every integer n; the interpreter's limit on the number of digits is left out |
| FormText.StripLeft | main.py:243 | `lstrip` removes exactly a leading whitespace run: the rest is a suffix that does not start with whitespace |
| FormText.StripRight | main.py:243 | `rstrip` removes exactly a trailing whitespace run: the rest is a prefix that does not end with whitespace |
| FormText.Blank | main.py:243 | `not value.strip()` holds exactly when every character of the value is whitespace |
| Store.PyIndex | main.py:234 | a Python index in range selects position idx, or position n + idx when negative |
| Store.QuestionsOf | main.py:231-232 | `CONFIG[role][category]` exists exactly when the role is a top-level key whose mapping lists the category; for a role section it is that section's question list for the category |
| Store.RatingStep | main.py:222-239 | an item whose key does not start with `rating_` is skipped; an inserted rating row carries the response id and the submitted role, and its rating fits SQLite's 64-bit INTEGER |
| Store.OpenStep | main.py:243-254 | an item whose key does not start with `open_`, or whose value is blank, is skipped; an inserted answer carries the response id, one of the configured open questions and the value as submitted |
| Store.Emitted | main.py:221-254 | every row a loop inserts comes from one of its inserting iterations, and every inserting iteration's row is among them, never more rows than iterations; the definition, an in-order filter of the steps, also fixes one row per inserting iteration in step order |
| Store.Rows | main.py:221-254 | a loop over the form aborts exactly when some item raises; otherwise it inserts exactly the emitted rows, in form order, one per emitting item |
| Store.RespondentName | main.py:209 | the name is 'Anonymous' only when the field is absent; when present, even empty, it is a value submitted under that field |
| Store.SubmittedNameStored | main.py:209 | the stored name is exactly the submitted `respondent_name` field, whatever its value |
| Store.Submission | main.py:204-257 | a committed submission records the id, the submitted role (or none) and the respondent name, and exactly the rows the two loops insert |
| Store.RatingRowStored | main.py:221-239 | a rating row is written exactly for a `rating_` key with three or more parts, a top-level role listing `parts[1]`, an index inside the question list, and a numeric value that fits SQLite's 64-bit INTEGER; the row holds the id, role, `parts[1]`, the indexed question text and `int(value)`, with no 0-10 check |
| Store.AcceptedKeyNeverSkipped | main.py:222-239 | an item with an accepted rating key is never skipped: it is inserted or it raises |
| Store.InvalidRoleNeverEmits | main.py:231 | with a missing role or one that is not a top-level key, no item inserts a rating |
| Store.OpenAnswerStored | main.py:242-254 | an open answer is written exactly for an `open_` key with a non-blank value and an index inside the open-question list; it stores that question and the untrimmed value |
| Store.SplitAtPrefix | main.py:243-246 | a key starting with `open_` always splits into at least two parts |
| Store.SubmissionRaises | main.py:204-257 | a submission commits nothing exactly when some form item makes one of the two loops raise |
| Store.SubmittedRatingsSound | main.py:221-239 | every stored rating comes from a form item whose key is accepted and whose value parses |
| Store.SubmittedRatingsComplete | main.py:221-239 | every form item with an accepted rating key ends up as a stored rating when the submission commits |
| Store.InvalidRoleStoresNoRatings | main.py:231 | a submission whose role is missing or not a top-level key stores no rating rows |
| Store.InvalidRoleRaisesOnlyOnValue | main.py:228-231 | with such a role, the rating loop can only raise on a non-numeric value of a `rating_` key |
| Store.RatingItem | main.py:222-239 | one iteration of the rating loop skips, inserts or raises exactly as the per-item rule specifies |
| Store.CollectRatings | main.py:221-239 | the rating loop returns exactly the rows the per-item rule emits, in form order, or aborts at the first item that raises |
| Store.OpenItem | main.py:243-254 | one iteration of the open-answer loop skips, inserts or raises exactly as the per-item rule specifies |
| Store.CollectOpenAnswers | main.py:242-254 | the open-answer loop returns exactly the rows the per-item rule emits, in form order, or aborts at the first item that raises |
| Store.CommitConsistent | main.py:214-257 | committing a batch under the next id keeps ids increasing and every child row pointing at an existing response; reading the new id back gives exactly the batch's ratings |
| Store.SubmissionRowsCarryId | main.py:236-254 | every row of a committed submission carries the response id it was submitted under |
| Store.RatingsFor | main.py:161-162 | the ratings read back for an id all carry that id and come from the table, and every stored rating with that id is among them |
| Store.FindResponse | main.py:153-154 | a response is found exactly when its id is stored, and the found row has that id |
| Store.FindAppended | main.py:214-218 | a response appended under a fresh id is found under that id |
| Store.ResponseStore.constructor | main.py:26-56 | the store starts with three empty tables and the first id 1 |
| Store.ResponseStore.Submit | main.py:204-257 | a request that raises changes nothing; otherwise it appends one response row under the next id, even for an invalid role, plus its rows, keeps the tables consistent, and the new id reads back exactly its ratings |
| Store.ResponseStore.GetResponse | main.py:153-154 | the lookup loop returns the specified response row, and it is the only row with that id |
| Store.RatingsForAppend | main.py:161-162 | reading the ratings of an id distributes over appended tables |
| Store.RatingsForNewResponse | main.py:161-162 | reading a fresh id back after appending its rows yields exactly those rows |
| Aggregation.Totals | main.py:110-122 | every group of the grouped query has at least one row and no more rows than the table |
| Aggregation.TotalsAreSumAndCount | main.py:110-122 | the grouped accumulation holds, for each category, the sum and the count of its ratings, and has an entry exactly for the categories with ratings |
| Aggregation.AverageResponses | main.py:106-131 | with rows in scope, a category appears exactly when it has a rating and maps to the mean of its ratings (role-filtered when a role is given); with no rows in scope, every global category maps to 5 |
| Aggregation.ChartCategories | main.py:137-141 | `list(CONFIG[role].keys())` fails exactly for the `open_questions` role; a given top-level key gives its own keys (a section's categories, or the `categories` or `roles` keys); no role, or a role that is not a top-level key, gives the global categories |
| Aggregation.RoleAverages | main.py:133-146 | the series fails only for the `open_questions` role; otherwise the values align with the chart categories and each is its category's mean in scope, or 5 when it has none |
| Aggregation.RoleChartFollowsConfig | main.py:138-141 | a given role with its own section charts that section's categories in configuration order; no role, an unconfigured role or `categories` charts the global categories |
| Aggregation.MeanWithin | main.py:112 | a mean of ratings on a scale stays on that scale |
| Aggregation.RoleChartWithinScale | main.py:133-146 | when stored ratings are within 0-10, every role-chart value is within 0-10 |
| Aggregation.AppendedRatingsCounted | main.py:110-122 | appending a batch of ratings adds each new in-scope rating exactly once to its category's count and sum |
| Aggregation.TenAndZeroAverageFive | main.py:110-116 | ratings 10 and 0 for one category and role average to exactly 5 |
| Aggregation.OverallValue | main.py:349 | a category's overall value is 5 when it has no rating or its mean is 0 (a falsy average), and its mean otherwise |
| Aggregation.QueryMatchesGrouped | main.py:346-347 | on an open connection and a non-empty table, the per-category average query agrees with the grouped query over all roles at main.py:119-122: NULL exactly for a category absent from the grouped result, and otherwise the same average |
| Aggregation.OverallLoop | main.py:344-349 | the loop raises exactly when the connection is closed and at least one category is configured; otherwise it gives one value per global category, the category's overall value |
| Aggregation.AdminOverallAsWritten | main.py:301-349 | with the connection closed before it, the overall-series loop raises exactly when at least one category is configured (the role-chart loop at main.py:327-341, which runs first and can raise on its own, is not part of this member) |
| Aggregation.OverallAverages | main.py:344-349 | the loop on an open connection: one value per global category, its mean over all roles, or 5 when the category has no rating or a mean of 0 |
| Aggregation.OverallValueWithinScale | main.py:347-349 | when stored ratings are within 0-10, each overall value lies in (0, 10] |
| UserCharts.ObservedCategories | main.py:167 | the dict keys list every rated category exactly once |
| UserCharts.ObservedInFirstAppearanceOrder | main.py:167 | categories are listed in the order in which they were first rated |
| UserCharts.LastRating | main.py:167 | a category's dict value is absent exactly when it was not rated, and is otherwise the rating of its last row |
| UserCharts.UserSeries | main.py:148-177 | an unknown id is "not found"; a response whose role is `open_questions` fails; otherwise the series belongs to the response; its categories are `list(CONFIG[role].keys())` when the role is a top-level key (a section, or the fixed `categories` and `roles` keys) and otherwise the categories the response rated; its values align with its categories, and each value is the response's last rating for the category, or 5 |
| UserCharts.UnconfiguredRoleShowsOwnRatings | main.py:170-175 | a response whose role is not a top-level key charts exactly its rated categories, each with its last rating and never a default |
| UserCharts.ConfiguredRoleShowsSection | main.py:170-175 | a response whose role has a section charts that section's categories in order, and an unrated category shows 5 |
| UserCharts.SubmittedResponseCharted | main.py:204-271 | right after a submission, the results page finds the new response, charts that response, and its values come only from that submission's ratings |
| SpiderChart.Close | main.py:70-73 | the closed list keeps the original prefix, gains exactly one entry equal to the first, and stays empty when empty |
| SpiderChart.Axes | main.py:69 | the N axes start at 0, are strictly increasing and stay below one full turn |
| SpiderChart.PrepareChart | main.py:63-86 | angles and points both have N+1 entries when N > 0 and none when N = 0, the last angle equals the first, and the ticks are the N axes; each label is the configured label, or the key when none is configured |

## Left out

- The web layer is not modelled: routes, templates, `session`, `flash` and redirects. The two role checks are stated as predicates, `InConfig` and `IsListedRole`.
- SQLite is not modelled: the table definitions and transactions. A connection is reduced to whether it is open (`Connection`), which is what the overall series depends on. Each table is a sequence in storage order. A submission is one atomic append, or nothing when the handler raises, because the uncommitted transaction is discarded. Queries without `ORDER BY` are taken to return rows in storage order.
- Rendering is not modelled: matplotlib drawing, the y-axis setup, titles, PNG and base64 encoding. Angles are exact fractions of a turn instead of floating-point radians.
- Timestamps (`datetime.now()`) and the `ORDER BY timestamp` listings are left out.
- The admin and role statistics queries with `COUNT(DISTINCT ...)` joins are left out (main.py:304-321, 407-429).
- Loading the configuration file is left out. The configuration is a value given to each operation.
- SQL `AVG` returns a floating-point value; the model uses exact rational means.
- FormText.ParseInt: covers an optional sign followed by ASCII digits only. The surrounding whitespace, underscores and non-ASCII digits that Python's `int()` also accepts are not modelled. Nor is the limit on decimal digits of CPython 3.11 and later and of the 2022 security releases (4300 by default, configurable through `sys.set_int_max_str_digits`): there `int()` raises ValueError on a longer numeral, so a `rating_` value or an `open_` index of more than 4300 digits makes the submit handler raise (main.py:228, 247) where the model can skip the item and commit the rest.
- FormText.ParseIntRejects: "exactly on numerals" holds only below that digit limit, which depends on the interpreter version and its configuration and is not modelled.
- FormText.ParseShow: the round trip is stated for every integer; beyond that digit limit `str(n)` itself raises in the versions that impose it.
- The submitted form is modelled as the sequence of `request.form.items()` with distinct keys. Only the first value of a repeated field is seen.
- The request-method test of the submit route (only POST reaches it) is not modelled.
- The redirect and the session update after a commit are not modelled.
- The code stores ratings without checking the 0-10 scale; the scale lemmas take it as a hypothesis.
- The code has no group or team filter, and the model adds none.
- PrepareChart requires as many values as categories. `generate_spider_chart` is called at main.py:281, 331, 351, 376 and 436 with three kinds of series: one response's series (281, 376), a role series (331, 436) and the overall series (351). The model proves the equal lengths for each of the three (UserSeries, RoleAverages, OverallLoop); the plotting call fails otherwise.

## Findings

| source | as written | input that shows it | evidently intended | confidence | as-written member | corrected member |
|---|---|---|---|---|---|---|
| main.py:323-349 | the overall-average loop queries `conn` after `conn.close()`, so the first query raises and the admin page fails | any configuration with at least one category | one value per category: its mean over all roles, or 5 when there is none or it is 0 | not executed | Aggregation.AdminOverallAsWritten | Aggregation.OverallAverages |
