/** An optional value: a dict lookup that can miss, a query that can raise. */
module Wrappers {
  datatype Option<+T> = None | Some(value: T) {
    function GetOr(default: T): T {
      match this
      case Some(v) => v
      case None => default
    }
  }
}

/** The survey configuration document, as a read-only value.

    Python dicts keep insertion order, and the application relies on that
    order (category order of a chart), so every mapping of the document is
    an ordered sequence of pairs with distinct keys. */
module SurveyConfig {
  import opened Wrappers

  /** The keys of an ordered mapping, in order (`list(d.keys())`). */
  function Keys<V>(ps: seq<(string, V)>): seq<string> {
    seq(|ps|, i requires 0 <= i < |ps| => ps[i].0)
  }

  predicate DistinctKeys<V>(ps: seq<(string, V)>) {
    forall i, j :: 0 <= i < j < |ps| ==> ps[i].0 != ps[j].0
  }

  /** Dictionary lookup `d.get(k)`: the value paired with the first occurrence of `k`. */
  function Lookup<V>(ps: seq<(string, V)>, k: string): (r: Option<V>)
    ensures r.Some? <==> k in Keys(ps)
    ensures r.Some? ==> exists i :: 0 <= i < |ps| && ps[i] == (k, r.value)
  {
    if |ps| == 0 then None
    else if ps[0].0 == k then assert Keys(ps)[0] == k; Some(ps[0].1)
    else
      assert Keys(ps) == [ps[0].0] + Keys(ps[1..]);
      var r := Lookup(ps[1..], k);
      assert r.Some? ==> exists i :: 0 <= i < |ps| && ps[i] == (k, r.value) by {
        if r.Some? {
          var i :| 0 <= i < |ps[1..]| && ps[1..][i] == (k, r.value);
          assert ps[i + 1] == (k, r.value);
        }
      }
      r
  }

  /** With distinct keys, looking up the key at position i gives the value at position i. */
  lemma {:induction false} LookupAt<V>(ps: seq<(string, V)>, i: nat)
    requires DistinctKeys(ps) && i < |ps|
    ensures Lookup(ps, ps[i].0) == Some(ps[i].1)
  {
    if i > 0 {
      assert DistinctKeys(ps[1..]);
      LookupAt(ps[1..], i - 1);
    }
  }

  /** The value stored under a role or under one of its categories: a role's
      own section maps each category key to its ordered question texts; the
      open questions are a plain list. */
  datatype Entry = Section(questions: seq<(string, seq<string>)>) | QuestionList(texts: seq<string>)

  /** The configuration document: `roles` (role key to display label),
      `categories` (category key to display label), `open_questions`, and one
      top-level section per role, keyed by the role. */
  datatype Config = Config(
    roles: seq<(string, string)>,
    categories: seq<(string, string)>,
    openQuestions: seq<string>,
    sections: seq<(string, seq<(string, seq<string>)>)>)
  {
    /** Well-formed as a JSON object: no key twice at any level, and no role
        section hiding one of the three fixed top-level keys. */
    predicate Valid() {
      && DistinctKeys(roles)
      && DistinctKeys(categories)
      && DistinctKeys(sections)
      && (forall i :: 0 <= i < |sections| ==> sections[i].0 !in Reserved && DistinctKeys(sections[i].1))
    }
  }

  /** The fixed top-level keys of the document besides the role sections. */
  const Reserved: seq<string> := ["roles", "categories", "open_questions"]

  /** A one-character string per character: what indexing and `len` see in a str. */
  function Chars(s: string): seq<string> {
    seq(|s|, j requires 0 <= j < |s| => [s[j]])
  }

  /** A label mapping read as if it were a role section: each key "holds" its label string. */
  function LabelsAsSection(ls: seq<(string, string)>): seq<(string, seq<string>)> {
    seq(|ls|, i requires 0 <= i < |ls| => (ls[i].0, Chars(ls[i].1)))
  }

  /** `CONFIG[key]` for a key of the top-level document, None when `key not in CONFIG`. */
  function TopLevel(cfg: Config, key: string): (e: Option<Entry>)
    ensures e.Some? <==> key in Reserved || key in Keys(cfg.sections)
    ensures key in Keys(cfg.sections) && key !in Reserved ==> e == Some(Section(Lookup(cfg.sections, key).value))
  {
    if key == "roles" then Some(Section(LabelsAsSection(cfg.roles)))
    else if key == "categories" then Some(Section(LabelsAsSection(cfg.categories)))
    else if key == "open_questions" then Some(QuestionList(cfg.openQuestions))
    else match Lookup(cfg.sections, key)
      case Some(s) => Some(Section(s))
      case None => None
  }

  /** `role in CONFIG`: the validity test of the survey page and of submission. */
  function InConfig(cfg: Config, role: string): (b: bool)
    ensures b <==> role in Reserved || exists i :: 0 <= i < |cfg.sections| && cfg.sections[i].0 == role
  {
    assert forall i :: 0 <= i < |cfg.sections| ==> Keys(cfg.sections)[i] == cfg.sections[i].0;
    TopLevel(cfg, role).Some?
  }

  /** `role in CONFIG['roles']`: the validity test of the per-role statistics page. */
  function IsListedRole(cfg: Config, role: string): (b: bool)
    ensures b <==> exists i :: 0 <= i < |cfg.roles| && cfg.roles[i].0 == role
  {
    assert forall i :: 0 <= i < |cfg.roles| ==> Keys(cfg.roles)[i] == cfg.roles[i].0;
    role in Keys(cfg.roles)
  }

  /** The two role checks differ: the three fixed top-level keys pass
      `role in CONFIG` whatever the document lists as roles, while a listed
      role without a section of its own does not. */
  lemma RoleChecksDiffer(cfg: Config, role: string)
    ensures role in Reserved ==> InConfig(cfg, role)
    ensures IsListedRole(cfg, role) && role !in Reserved && role !in Keys(cfg.sections) ==> !InConfig(cfg, role)
  {
  }

  /** `list(CONFIG[role].keys())` when `CONFIG[role]` is a mapping; None otherwise. */
  function RoleCategories(cfg: Config, role: string): (ks: Option<seq<string>>)
    ensures ks.None? <==> !InConfig(cfg, role) || role == "open_questions"
    ensures role == "categories" ==> ks == Some(Keys(cfg.categories))
    ensures role == "roles" ==> ks == Some(Keys(cfg.roles))
    ensures role in Keys(cfg.sections) && role !in Reserved ==> ks == Some(Keys(Lookup(cfg.sections, role).value))
  {
    match TopLevel(cfg, role)
    case Some(Section(s)) =>
      assert role == "categories" ==> Keys(s) == Keys(cfg.categories);
      assert role == "roles" ==> Keys(s) == Keys(cfg.roles);
      Some(Keys(s))
    case _ => None
  }

  /** The display label of a category, `CONFIG['categories'].get(cat, cat)`. */
  function Label(cfg: Config, cat: string): (l: string)
    ensures cat !in Keys(cfg.categories) ==> l == cat
    ensures cat in Keys(cfg.categories) ==> exists i :: 0 <= i < |cfg.categories| && cfg.categories[i] == (cat, l)
  {
    Lookup(cfg.categories, cat).GetOr(cat)
  }

  /** In a well-formed document, a configured category shows exactly its configured label. */
  lemma ConfiguredLabel(cfg: Config, i: nat)
    requires cfg.Valid() && i < |cfg.categories|
    ensures Label(cfg, cfg.categories[i].0) == cfg.categories[i].1
  {
    LookupAt(cfg.categories, i);
  }
}
