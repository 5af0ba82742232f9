/** The response store: three append-only tables (`responses`, `ratings`,
    `open_answers`) and the submit handler that parses a posted form into one
    response row and its rating and open-answer rows. */
module Store {
  import opened Wrappers
  import opened SurveyConfig
  import opened FormText

  /** A row of `responses`. `role` is None when the form had no `role` field. */
  datatype Response = Response(id: nat, role: Option<string>, respondentName: string)

  /** A row of `ratings`; the question text is copied, not referenced. */
  datatype Rating = Rating(responseId: nat, role: string, category: string, question: string, rating: int)

  /** A row of `open_answers`. */
  datatype OpenAnswer = OpenAnswer(responseId: nat, question: string, answer: string)

  /** What one form item contributes: nothing, one row, or an exception that
      aborts the whole request before anything is committed. */
  datatype Step<T> = Skip | Emit(row: T) | Raise

  /** SQLite's INTEGER is a signed 64-bit number: binding a Python int outside
      this range to a statement raises OverflowError. */
  predicate FitsInteger(n: int) {
    -0x8000_0000_0000_0000 <= n < 0x8000_0000_0000_0000
  }

  /** Python's `xs[idx]` for `-n <= idx < n`: a negative index counts from the end. */
  function PyIndex(idx: int, n: nat): (k: nat)
    requires -(n as int) <= idx < n
    ensures k < n && (idx >= 0 ==> k == idx) && (idx < 0 ==> k - idx == n)
  {
    if idx >= 0 then idx else n + idx
  }

  /** `CONFIG[role][category]` when it is a list of questions (the category is a key of the role's mapping). */
  function QuestionsOf(cfg: Config, role: string, category: string): (qs: Option<seq<string>>)
    ensures qs.Some? <==> InConfig(cfg, role) && RoleCategories(cfg, role).Some? && category in RoleCategories(cfg, role).value
    ensures role in Keys(cfg.sections) && role !in Reserved ==> qs == Lookup(Lookup(cfg.sections, role).value, category)
  {
    match TopLevel(cfg, role)
    case Some(Section(s)) => Lookup(s, category)
    case _ => None
  }

  /** One iteration of the rating loop of `submit` for the item (key, value). */
  function RatingStep(cfg: Config, role: Option<string>, id: nat, key: string, value: string): (s: Step<Rating>)
    ensures !StartsWith(key, "rating_") ==> s.Skip?
    ensures s.Emit? ==> role == Some(s.row.role) && s.row.responseId == id && FitsInteger(s.row.rating)
  {
    if !StartsWith(key, "rating_") then Skip
    else
      var parts := Split(key, '_');
      if |parts| < 3 then Skip
      else match ParseInt(value)
        case None => Raise
        case Some(rating) =>
          if role.None? then Skip
          else match TopLevel(cfg, role.value)
            case None => Skip
            case Some(QuestionList(texts)) =>
              // `CONFIG['open_questions'][category]` indexes a list by a string
              if parts[1] in texts then Raise else Skip
            case Some(Section(s)) =>
              match Lookup(s, parts[1])
              case None => Skip
              case Some(questions) =>
                match ParseInt(parts[2])
                case None => Raise
                case Some(idx) =>
                  if idx >= |questions| then Skip
                  else if idx < -|questions| then Raise
                  // the INSERT binds `rating` as an SQLite INTEGER
                  else if !FitsInteger(rating) then Raise
                  else Emit(Rating(id, role.value, parts[1], questions[PyIndex(idx, |questions|)], rating))
  }

  /** One iteration of the open-answer loop of `submit` for the item (key, value). */
  function OpenStep(cfg: Config, id: nat, key: string, value: string): (s: Step<OpenAnswer>)
    ensures !StartsWith(key, "open_") || Blank(value) ==> s.Skip?
    ensures s.Emit? ==> s.row.responseId == id && s.row.answer == value && s.row.question in cfg.openQuestions
  {
    if !StartsWith(key, "open_") || Blank(value) then Skip
    else
      var parts := Split(key, '_');
      if |parts| < 2 then Skip
      else match ParseInt(parts[1])
        case None => Raise
        case Some(idx) =>
          var n := |cfg.openQuestions|;
          if idx >= n then Skip
          else if idx < -n then Raise
          else Emit(OpenAnswer(id, cfg.openQuestions[PyIndex(idx, n)], value))
  }

  function RatingSteps(cfg: Config, role: Option<string>, id: nat, form: seq<(string, string)>): seq<Step<Rating>> {
    seq(|form|, i requires 0 <= i < |form| => RatingStep(cfg, role, id, form[i].0, form[i].1))
  }

  function OpenSteps(cfg: Config, id: nat, form: seq<(string, string)>): seq<Step<OpenAnswer>> {
    seq(|form|, i requires 0 <= i < |form| => OpenStep(cfg, id, form[i].0, form[i].1))
  }

  /** The rows of the emitting steps, in step order, one per emitting step. */
  function Emitted<T>(steps: seq<Step<T>>): (rows: seq<T>)
    ensures |rows| <= |steps|
    ensures forall k :: 0 <= k < |rows| ==> exists i :: 0 <= i < |steps| && steps[i] == Emit(rows[k])
    ensures forall i :: 0 <= i < |steps| && steps[i].Emit? ==> steps[i].row in rows
  {
    if |steps| == 0 then []
    else
      var init := steps[..|steps| - 1];
      assert forall i :: 0 <= i < |init| ==> init[i] == steps[i];
      Emitted(init) + (if steps[|steps| - 1].Emit? then [steps[|steps| - 1].row] else [])
  }

  /** The rows a loop inserts, in order, or None when one of its iterations raises. */
  function Rows<T>(steps: seq<Step<T>>): (r: Option<seq<T>>)
    ensures r.None? <==> exists i :: 0 <= i < |steps| && steps[i].Raise?
    ensures r.Some? ==> r.value == Emitted(steps)
  {
    if |steps| == 0 then Some([])
    else
      var init := steps[..|steps| - 1];
      var last := steps[|steps| - 1];
      assert forall i :: 0 <= i < |init| ==> init[i] == steps[i];
      match Rows(init)
      case None => None
      case Some(rows) =>
        match last
        case Skip => Some(rows)
        case Raise => None
        case Emit(x) => Some(rows + [x])
  }

  /** One more iteration of a loop over the form: what it does to the rows so far. */
  lemma RowsExtend<T>(steps: seq<Step<T>>, i: nat, found: seq<T>)
    requires i < |steps| && Rows(steps[..i]) == Some(found)
    ensures Rows(steps[..i + 1]) == match steps[i]
      case Skip => Some(found)
      case Raise => None
      case Emit(x) => Some(found + [x])
  {
    assert steps[..i + 1][..i] == steps[..i];
  }

  /** Everything one accepted submission writes. */
  datatype Batch = Batch(response: Response, ratings: seq<Rating>, openAnswers: seq<OpenAnswer>)

  /** The respondent name stored: the form's field, or 'Anonymous' only when the field is absent. */
  function RespondentName(form: seq<(string, string)>): (name: string)
    ensures "respondent_name" !in Keys(form) ==> name == "Anonymous"
    ensures "respondent_name" in Keys(form) ==> exists i :: 0 <= i < |form| && form[i] == ("respondent_name", name)
  {
    Lookup(form, "respondent_name").GetOr("Anonymous")
  }

  /** A submitted name field, even an empty one, is stored as given. */
  lemma SubmittedNameStored(form: seq<(string, string)>, i: nat)
    requires DistinctKeys(form) && i < |form| && form[i].0 == "respondent_name"
    ensures RespondentName(form) == form[i].1
  {
    LookupAt(form, i);
  }

  /** `submit` as one atomic write: the batch for the response numbered `id`,
      or None when the request raises (then nothing is committed). */
  function Submission(cfg: Config, id: nat, form: seq<(string, string)>): (b: Option<Batch>)
    ensures b.Some? ==> b.value.response.id == id && b.value.response.role == Lookup(form, "role")
    ensures b.Some? ==> b.value.response.respondentName == RespondentName(form)
    ensures b.Some? ==> b.value.ratings == Emitted(RatingSteps(cfg, Lookup(form, "role"), id, form))
    ensures b.Some? ==> b.value.openAnswers == Emitted(OpenSteps(cfg, id, form))
  {
    var role := Lookup(form, "role");
    match Rows(RatingSteps(cfg, role, id, form))
    case None => None
    case Some(ratings) =>
      match Rows(OpenSteps(cfg, id, form))
      case None => None
      case Some(answers) => Some(Batch(Response(id, role, RespondentName(form)), ratings, answers))
  }

  /** The conditions of lines 222-233 under which a rating key is stored:
      the key starts with `rating_` and splits into at least three parts, the
      submitted role is a top-level key whose mapping has `parts[1]` among its
      categories, and the index `parts[2]` is a numeral below that category's
      question count (and, being a Python index, not below minus the count). */
  ghost predicate RatingKeyAccepted(cfg: Config, role: Option<string>, key: string) {
    var parts := Split(key, '_');
    && StartsWith(key, "rating_") && |parts| >= 3
    && role.Some? && QuestionsOf(cfg, role.value, parts[1]).Some?
    && ParseInt(parts[2]).Some?
    && -|QuestionsOf(cfg, role.value, parts[1]).value| <= ParseInt(parts[2]).value < |QuestionsOf(cfg, role.value, parts[1]).value|
  }

  /** A rating row is written exactly for an accepted key with a numeric
      value that fits an SQLite INTEGER; it carries the new id, the submitted
      role, `parts[1]`, the question text at the index, and `int(value)`
      unchecked against any scale. */
  lemma RatingRowStored(cfg: Config, role: Option<string>, id: nat, key: string, value: string)
    ensures RatingStep(cfg, role, id, key, value).Emit? <==>
      RatingKeyAccepted(cfg, role, key) && ParseInt(value).Some? && FitsInteger(ParseInt(value).value)
    ensures RatingStep(cfg, role, id, key, value).Emit? ==>
      var r := RatingStep(cfg, role, id, key, value).row;
      var parts := Split(key, '_');
      var questions := QuestionsOf(cfg, role.value, parts[1]).value;
      && r.responseId == id && r.role == role.value && r.category == parts[1]
      && r.question == questions[PyIndex(ParseInt(parts[2]).value, |questions|)]
      && Some(r.rating) == ParseInt(value)
  {
  }

  /** An open answer is written exactly when the key starts with `open_`, the
      value is not blank after stripping, and the index is a numeral in range;
      the answer is stored untrimmed. */
  lemma OpenAnswerStored(cfg: Config, id: nat, key: string, value: string)
    ensures StartsWith(key, "open_") ==> |Split(key, '_')| >= 2
    ensures OpenStep(cfg, id, key, value).Emit? <==>
      && StartsWith(key, "open_") && !Blank(value) && |Split(key, '_')| >= 2
      && ParseInt(Split(key, '_')[1]).Some?
      && -|cfg.openQuestions| <= ParseInt(Split(key, '_')[1]).value < |cfg.openQuestions|
    ensures OpenStep(cfg, id, key, value).Emit? ==>
      OpenStep(cfg, id, key, value).row
        == OpenAnswer(id, cfg.openQuestions[PyIndex(ParseInt(Split(key, '_')[1]).value, |cfg.openQuestions|)], value)
  {
    if StartsWith(key, "open_") {
      SplitAtPrefix(key, "open", '_');
      var parts := Split(key, '_');
      if !Blank(value) {
        assert OpenStep(cfg, id, key, value) == match ParseInt(parts[1])
          case None => Raise
          case Some(idx) =>
            if idx >= |cfg.openQuestions| then Skip
            else if idx < -|cfg.openQuestions| then Raise
            else Emit(OpenAnswer(id, cfg.openQuestions[PyIndex(idx, |cfg.openQuestions|)], value));
      }
    }
  }

  /** A key that starts with `p` followed by the separator splits into at least two parts. */
  lemma SplitAtPrefix(key: string, p: string, sep: char)
    requires sep !in p
    requires StartsWith(key, p + [sep])
    ensures |Split(key, sep)| >= 2
  {
    if |p| == 0 {
      assert key[0] == sep;
    } else {
      assert key[0] != sep by { assert key[0] == p[0]; }
      assert StartsWith(key[1..], p[1..] + [sep]) by {
        assert key[1..][..|p[1..] + [sep]|] == key[..|p + [sep]|][1..];
      }
      SplitAtPrefix(key[1..], p[1..], sep);
    }
  }

  /** A submission is rejected (raises, nothing committed) exactly when some
      form item makes one of the two loops raise. */
  lemma SubmissionRaises(cfg: Config, id: nat, form: seq<(string, string)>)
    ensures Submission(cfg, id, form).None? <==>
      exists i :: 0 <= i < |form| &&
        (RatingStep(cfg, Lookup(form, "role"), id, form[i].0, form[i].1).Raise? || OpenStep(cfg, id, form[i].0, form[i].1).Raise?)
  {
    var role := Lookup(form, "role");
    var rs, os := RatingSteps(cfg, role, id, form), OpenSteps(cfg, id, form);
    if Submission(cfg, id, form).None? {
      if Rows(rs).None? {
        var i :| 0 <= i < |rs| && rs[i].Raise?;
        assert RatingStep(cfg, role, id, form[i].0, form[i].1).Raise?;
      } else {
        var i :| 0 <= i < |os| && os[i].Raise?;
        assert OpenStep(cfg, id, form[i].0, form[i].1).Raise?;
      }
    } else {
      forall i | 0 <= i < |form|
        ensures !RatingStep(cfg, role, id, form[i].0, form[i].1).Raise? && !OpenStep(cfg, id, form[i].0, form[i].1).Raise?
      {
        assert rs[i] == RatingStep(cfg, role, id, form[i].0, form[i].1);
        assert os[i] == OpenStep(cfg, id, form[i].0, form[i].1);
      }
    }
  }

  /** Every rating row of an accepted submission comes from a form item whose key is accepted. */
  lemma SubmittedRatingsSound(cfg: Config, id: nat, form: seq<(string, string)>, k: nat)
    requires Submission(cfg, id, form).Some? && k < |Submission(cfg, id, form).value.ratings|
    ensures exists i :: (0 <= i < |form| && RatingKeyAccepted(cfg, Lookup(form, "role"), form[i].0) &&
      RatingStep(cfg, Lookup(form, "role"), id, form[i].0, form[i].1) == Emit(Submission(cfg, id, form).value.ratings[k]))
  {
    var role := Lookup(form, "role");
    var steps := RatingSteps(cfg, role, id, form);
    var rows := Rows(steps).value;
    assert rows == Submission(cfg, id, form).value.ratings;
    var i :| 0 <= i < |steps| && steps[i] == Emit(rows[k]);
    RatingRowStored(cfg, role, id, form[i].0, form[i].1);
  }

  /** In an accepted submission no item raised, and every row an item emits is stored. */
  lemma AcceptedSubmissionStep(cfg: Config, id: nat, form: seq<(string, string)>, i: nat)
    requires i < |form| && Submission(cfg, id, form).Some?
    ensures !RatingStep(cfg, Lookup(form, "role"), id, form[i].0, form[i].1).Raise?
    ensures RatingStep(cfg, Lookup(form, "role"), id, form[i].0, form[i].1).Emit? ==>
      RatingStep(cfg, Lookup(form, "role"), id, form[i].0, form[i].1).row in Submission(cfg, id, form).value.ratings
  {
    var role := Lookup(form, "role");
    var steps := RatingSteps(cfg, role, id, form);
    assert steps[i] == RatingStep(cfg, role, id, form[i].0, form[i].1);
  }

  /** Every form item with an accepted rating key contributes its row to an accepted submission. */
  lemma SubmittedRatingsComplete(cfg: Config, id: nat, form: seq<(string, string)>, i: nat)
    requires i < |form| && Submission(cfg, id, form).Some? && RatingKeyAccepted(cfg, Lookup(form, "role"), form[i].0)
    ensures RatingStep(cfg, Lookup(form, "role"), id, form[i].0, form[i].1).Emit?
    ensures RatingStep(cfg, Lookup(form, "role"), id, form[i].0, form[i].1).row in Submission(cfg, id, form).value.ratings
  {
    AcceptedSubmissionStep(cfg, id, form, i);
    AcceptedKeyNeverSkipped(cfg, Lookup(form, "role"), id, form[i].0, form[i].1);
  }

  /** An accepted rating key is never silently skipped: the item is stored, or the request raises. */
  lemma AcceptedKeyNeverSkipped(cfg: Config, role: Option<string>, id: nat, key: string, value: string)
    requires RatingKeyAccepted(cfg, role, key)
    ensures !RatingStep(cfg, role, id, key, value).Skip?
  {
  }

  /** A submission whose role is absent or not a top-level configuration key
      still creates its response row, but no rating rows. */
  lemma InvalidRoleStoresNoRatings(cfg: Config, id: nat, form: seq<(string, string)>)
    requires Lookup(form, "role").None? || !InConfig(cfg, Lookup(form, "role").value)
    ensures Submission(cfg, id, form).Some? ==>
      Submission(cfg, id, form).value.ratings == [] && Submission(cfg, id, form).value.response.id == id
  {
    if Submission(cfg, id, form).Some? {
      var role := Lookup(form, "role");
      var steps := RatingSteps(cfg, role, id, form);
      var rows := Submission(cfg, id, form).value.ratings;
      assert Rows(steps) == Some(rows);
      if |rows| > 0 {
        var i :| 0 <= i < |steps| && steps[i] == Emit(rows[0]);
        InvalidRoleNeverEmits(cfg, role, id, form[i].0, form[i].1);
      }
    }
  }

  lemma InvalidRoleNeverEmits(cfg: Config, role: Option<string>, id: nat, key: string, value: string)
    requires role.None? || !InConfig(cfg, role.value)
    ensures !RatingStep(cfg, role, id, key, value).Emit?
  {
  }

  /** With an invalid role the rating loop can still raise, but only from
      `int(value)` on a `rating_` key: the role test comes after that call. */
  lemma InvalidRoleRaisesOnlyOnValue(cfg: Config, id: nat, form: seq<(string, string)>, i: nat)
    requires Lookup(form, "role").None? || !InConfig(cfg, Lookup(form, "role").value)
    requires i < |form| && RatingStep(cfg, Lookup(form, "role"), id, form[i].0, form[i].1).Raise?
    ensures StartsWith(form[i].0, "rating_") && ParseInt(form[i].1).None?
  {
  }

  /** `SELECT ... FROM ratings WHERE response_id = ?`, in storage order. */
  function RatingsFor(rs: seq<Rating>, id: nat): (r: seq<Rating>)
    ensures |r| <= |rs|
    ensures forall k :: 0 <= k < |r| ==> r[k].responseId == id && r[k] in rs
    ensures forall k :: 0 <= k < |rs| && rs[k].responseId == id ==> rs[k] in r
  {
    if |rs| == 0 then []
    else
      var init := rs[..|rs| - 1];
      assert forall k :: 0 <= k < |init| ==> init[k] == rs[k];
      RatingsFor(init, id) + (if rs[|rs| - 1].responseId == id then [rs[|rs| - 1]] else [])
  }

  function Ids(responses: seq<Response>): set<nat> {
    set r | r in responses :: r.id
  }

  /** One iteration of the rating loop of `submit` (lines 222-239): skip the
      item, insert a row, or raise. */
  method RatingItem(cfg: Config, role: Option<string>, id: nat, key: string, value: string)
    returns (step: Step<Rating>)
    ensures step == RatingStep(cfg, role, id, key, value)
  {
    step := Skip;
    if StartsWith(key, "rating_") {
      var parts := Split(key, '_');
      if |parts| >= 3 {
        var category, questionIdx := parts[1], parts[2];
        var rating := ParseInt(value);
        if rating.None? {
          return Raise;
        }
        if role.Some? && InConfig(cfg, role.value) {
          match TopLevel(cfg, role.value).value
          case QuestionList(texts) =>
            if category in texts {
              return Raise;
            }
          case Section(section) =>
            if category in Keys(section) {
              var questions := Lookup(section, category).value;
              var idx := ParseInt(questionIdx);
              if idx.None? {
                return Raise;
              }
              if idx.value < |questions| {
                if idx.value < -|questions| {
                  return Raise;
                }
                var question := questions[PyIndex(idx.value, |questions|)];
                if !FitsInteger(rating.value) {
                  return Raise;
                }
                step := Emit(Rating(id, role.value, category, question, rating.value));
              }
            }
        }
      }
    }
  }

  /** The rating loop of `submit`: the rows it inserts for the response `id`, or None when it raises. */
  method CollectRatings(cfg: Config, role: Option<string>, id: nat, form: seq<(string, string)>)
    returns (rows: Option<seq<Rating>>)
    ensures rows == Rows(RatingSteps(cfg, role, id, form))
  {
    ghost var steps := RatingSteps(cfg, role, id, form);
    var found: seq<Rating> := [];
    var i := 0;
    while i < |form|
      invariant 0 <= i <= |form|
      invariant Rows(steps[..i]) == Some(found)
    {
      var step := RatingItem(cfg, role, id, form[i].0, form[i].1);
      RowsExtend(steps, i, found);
      match step {
        case Raise =>
          return None;
        case Skip =>
        case Emit(row) =>
          found := found + [row];
      }
      i := i + 1;
    }
    assert steps[..i] == steps;
    rows := Some(found);
  }

  /** One iteration of the open-answer loop of `submit` (lines 243-254). */
  method OpenItem(cfg: Config, id: nat, key: string, value: string) returns (step: Step<OpenAnswer>)
    ensures step == OpenStep(cfg, id, key, value)
  {
    step := Skip;
    if StartsWith(key, "open_") && !Blank(value) {
      var parts := Split(key, '_');
      if |parts| >= 2 {
        var questionIdx := ParseInt(parts[1]);
        if questionIdx.None? {
          return Raise;
        }
        var n := |cfg.openQuestions|;
        if questionIdx.value < n {
          if questionIdx.value < -n {
            return Raise;
          }
          var question := cfg.openQuestions[PyIndex(questionIdx.value, n)];
          step := Emit(OpenAnswer(id, question, value));
        }
      }
    }
  }

  /** The open-answer loop of `submit`: the rows it inserts for the response `id`, or None when it raises. */
  method CollectOpenAnswers(cfg: Config, id: nat, form: seq<(string, string)>)
    returns (rows: Option<seq<OpenAnswer>>)
    ensures rows == Rows(OpenSteps(cfg, id, form))
  {
    ghost var steps := OpenSteps(cfg, id, form);
    var found: seq<OpenAnswer> := [];
    var i := 0;
    while i < |form|
      invariant 0 <= i <= |form|
      invariant Rows(steps[..i]) == Some(found)
    {
      var step := OpenItem(cfg, id, form[i].0, form[i].1);
      RowsExtend(steps, i, found);
      match step {
        case Raise =>
          return None;
        case Skip =>
        case Emit(row) =>
          found := found + [row];
      }
      i := i + 1;
    }
    assert steps[..i] == steps;
    rows := Some(found);
  }

  /** Ids start at 1 and increase, every id handed out is below `nextId`,
      and every child row belongs to a stored response. */
  ghost predicate Consistent(responses: seq<Response>, ratings: seq<Rating>, openAnswers: seq<OpenAnswer>, nextId: nat) {
    && 1 <= nextId
    && (forall i :: 0 <= i < |responses| ==> 1 <= responses[i].id < nextId)
    && (forall i, j :: 0 <= i < j < |responses| ==> responses[i].id < responses[j].id)
    && (forall k :: 0 <= k < |ratings| ==> ratings[k].responseId in Ids(responses))
    && (forall k :: 0 <= k < |openAnswers| ==> openAnswers[k].responseId in Ids(responses))
  }

  /** Committing a batch under the next id keeps the tables consistent, and
      reading the new id back gives exactly the batch's ratings. */
  lemma CommitConsistent(responses: seq<Response>, ratings: seq<Rating>, openAnswers: seq<OpenAnswer>, nextId: nat, b: Batch)
    requires Consistent(responses, ratings, openAnswers, nextId)
    requires b.response.id == nextId
    requires forall k :: 0 <= k < |b.ratings| ==> b.ratings[k].responseId == nextId
    requires forall k :: 0 <= k < |b.openAnswers| ==> b.openAnswers[k].responseId == nextId
    ensures Consistent(responses + [b.response], ratings + b.ratings, openAnswers + b.openAnswers, nextId + 1)
    ensures RatingsFor(ratings + b.ratings, nextId) == b.ratings
  {
    IdsBelow(responses, nextId);
    assert forall k :: 0 <= k < |ratings| ==> ratings[k].responseId != nextId;
    RatingsForNewResponse(ratings, b.ratings, nextId);
    assert Ids(responses + [b.response]) == Ids(responses) + {nextId};
  }

  /** Every row of an accepted submission carries the id it was submitted under. */
  lemma SubmissionRowsCarryId(cfg: Config, id: nat, form: seq<(string, string)>)
    requires Submission(cfg, id, form).Some?
    ensures Submission(cfg, id, form).value.response.id == id
    ensures forall k :: 0 <= k < |Submission(cfg, id, form).value.ratings| ==>
      Submission(cfg, id, form).value.ratings[k].responseId == id
    ensures forall k :: 0 <= k < |Submission(cfg, id, form).value.openAnswers| ==>
      Submission(cfg, id, form).value.openAnswers[k].responseId == id
  {
    var b := Submission(cfg, id, form).value;
    var role := Lookup(form, "role");
    var steps := RatingSteps(cfg, role, id, form);
    var openSteps := OpenSteps(cfg, id, form);
    assert Rows(steps) == Some(b.ratings);
    assert Rows(openSteps) == Some(b.openAnswers);
    forall k | 0 <= k < |b.ratings| ensures b.ratings[k].responseId == id {
      var i :| 0 <= i < |steps| && steps[i] == Emit(b.ratings[k]);
      RatingRowStored(cfg, role, id, form[i].0, form[i].1);
    }
    forall k | 0 <= k < |b.openAnswers| ensures b.openAnswers[k].responseId == id {
      var i :| 0 <= i < |openSteps| && openSteps[i] == Emit(b.openAnswers[k]);
      OpenAnswerStored(cfg, id, form[i].0, form[i].1);
    }
  }

  /** `SELECT * FROM responses WHERE id = ?`: the first response row with that id. */
  function FindResponse(responses: seq<Response>, id: nat): (r: Option<Response>)
    ensures r.Some? <==> id in Ids(responses)
    ensures r.Some? ==> r.value in responses && r.value.id == id
  {
    if |responses| == 0 then None
    else
      assert Ids(responses) == {responses[0].id} + Ids(responses[1..]) by {
        assert responses == [responses[0]] + responses[1..];
      }
      if responses[0].id == id then Some(responses[0])
      else FindResponse(responses[1..], id)
  }

  /** A response row appended under a fresh id is found under that id. */
  lemma {:induction false} FindAppended(responses: seq<Response>, r: Response)
    requires r.id !in Ids(responses)
    ensures FindResponse(responses + [r], r.id) == Some(r)
  {
    if |responses| > 0 {
      assert (responses + [r])[1..] == responses[1..] + [r];
      assert responses[0] in responses;
      assert Ids(responses[1..]) <= Ids(responses) by {
        forall x | x in responses[1..] ensures x in responses { }
      }
      FindAppended(responses[1..], r);
    }
  }

  /** The three tables and the AUTOINCREMENT counter of `responses`. */
  class ResponseStore {
    var responses: seq<Response>
    var ratings: seq<Rating>
    var openAnswers: seq<OpenAnswer>
    var nextId: nat

    ghost predicate Valid()
      reads this
    {
      Consistent(responses, ratings, openAnswers, nextId)
    }

    constructor ()
      ensures Valid()
      ensures responses == [] && ratings == [] && openAnswers == [] && nextId == 1
    {
      responses, ratings, openAnswers, nextId := [], [], [], 1;
    }

    /** The submit handler. Returns the new response id, or None when the request raised. */
    method Submit(cfg: Config, form: seq<(string, string)>) returns (id: Option<nat>)
      requires Valid() && DistinctKeys(form)
      modifies this
      ensures Valid()
      ensures Submission(cfg, old(nextId), form).None? ==> id.None? && unchanged(this)
      ensures Submission(cfg, old(nextId), form).Some? ==>
        var b := Submission(cfg, old(nextId), form).value;
        && id == Some(old(nextId)) && nextId == old(nextId) + 1
        && responses == old(responses) + [b.response]
        && ratings == old(ratings) + b.ratings
        && openAnswers == old(openAnswers) + b.openAnswers
      ensures id.Some? ==> RatingsFor(ratings, id.value) == Submission(cfg, old(nextId), form).value.ratings
    {
      var role := Lookup(form, "role");
      var responseId := nextId;
      var newRatings := CollectRatings(cfg, role, responseId, form);
      if newRatings.None? {
        return None;
      }
      var newAnswers := CollectOpenAnswers(cfg, responseId, form);
      if newAnswers.None? {
        return None;
      }

      // Commit: the response row and its children become visible together
      var batch := Batch(Response(responseId, role, RespondentName(form)), newRatings.value, newAnswers.value);
      assert Submission(cfg, responseId, form) == Some(batch);
      SubmissionRowsCarryId(cfg, responseId, form);
      CommitConsistent(responses, ratings, openAnswers, nextId, batch);
      responses := responses + [batch.response];
      ratings := ratings + batch.ratings;
      openAnswers := openAnswers + batch.openAnswers;
      nextId := nextId + 1;
      id := Some(responseId);
    }

    /** The response row stored under an id; ids are unique, so it is the only one. */
    method GetResponse(id: nat) returns (r: Option<Response>)
      requires Valid()
      ensures r == FindResponse(responses, id)
      ensures r.Some? ==> forall k :: 0 <= k < |responses| && responses[k].id == id ==> r.value == responses[k]
    {
      r := None;
      var i := 0;
      while i < |responses|
        invariant 0 <= i <= |responses|
        invariant FindResponse(responses[i..], id) == FindResponse(responses, id)
      {
        if responses[i].id == id {
          return Some(responses[i]);
        }
        assert responses[i..][1..] == responses[i + 1..];
        i := i + 1;
      }
    }
  }

  lemma IdsBelow(responses: seq<Response>, bound: nat)
    requires forall i :: 0 <= i < |responses| ==> responses[i].id < bound
    ensures bound !in Ids(responses)
  {
  }

  lemma {:induction false} RatingsForAppend(a: seq<Rating>, b: seq<Rating>, id: nat)
    ensures RatingsFor(a + b, id) == RatingsFor(a, id) + RatingsFor(b, id)
  {
    if |b| > 0 {
      RatingsForAppend(a, b[..|b| - 1], id);
      assert (a + b)[..|a + b| - 1] == a + b[..|b| - 1];
    } else {
      assert a + b == a;
    }
  }

  /** Round trip: rows written for a fresh id are exactly what reading that id gives back. */
  lemma {:induction false} RatingsForNewResponse(before: seq<Rating>, rows: seq<Rating>, id: nat)
    requires forall k :: 0 <= k < |before| ==> before[k].responseId != id
    requires forall k :: 0 <= k < |rows| ==> rows[k].responseId == id
    ensures RatingsFor(before + rows, id) == rows
  {
    RatingsForAppend(before, rows, id);
    RatingsForNone(before, id);
    RatingsForAll(rows, id);
  }

  lemma {:induction false} RatingsForNone(rs: seq<Rating>, id: nat)
    requires forall k :: 0 <= k < |rs| ==> rs[k].responseId != id
    ensures RatingsFor(rs, id) == []
  {
    if |rs| > 0 {
      RatingsForNone(rs[..|rs| - 1], id);
    }
  }

  lemma {:induction false} RatingsForAll(rs: seq<Rating>, id: nat)
    requires forall k :: 0 <= k < |rs| ==> rs[k].responseId == id
    ensures RatingsFor(rs, id) == rs
  {
    if |rs| > 0 {
      RatingsForAll(rs[..|rs| - 1], id);
      assert rs[..|rs| - 1] + [rs[|rs| - 1]] == rs;
    }
  }
}
