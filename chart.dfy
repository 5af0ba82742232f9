/** What `generate_spider_chart` hands to the plotting library: one axis
    per category, evenly spaced around the circle, the polygon closed by
    repeating its first point, and the category labels. Angles are exact
    fractions of a full turn rather than floating-point radians. */
module SpiderChart {
  import opened SurveyConfig

  /** `xs + xs[:1]`: the polygon closed by repeating its first point. */
  function Close<T>(xs: seq<T>): (ys: seq<T>)
    ensures |xs| == 0 ==> ys == []
    ensures |xs| > 0 ==> |ys| == |xs| + 1 && ys[|xs|] == xs[0]
    ensures |ys| >= |xs| && ys[..|xs|] == xs
  {
    xs + xs[..if |xs| == 0 then 0 else 1]
  }

  /** Axis `n` of `N` sits at `n / N` of a full turn. */
  function Axes(n: nat): (turns: seq<real>)
    ensures |turns| == n
    ensures forall i :: 0 <= i < n ==> 0.0 <= turns[i] < 1.0
    ensures forall i, j :: 0 <= i < j < n ==> turns[i] < turns[j]
    ensures n > 0 ==> turns[0] == 0.0
  {
    var turns := seq(n, i requires 0 <= i < n => i as real / n as real);
    forall i, j | 0 <= i < j < n ensures turns[i] < turns[j] {
      QuotientMonotone(i as real, j as real, n as real);
    }
    turns
  }

  lemma QuotientMonotone(a: real, b: real, n: real)
    requires a < b && n > 0.0
    ensures a / n < b / n
  {
    assert (b / n - a / n) * n == b - a;
  }

  datatype ChartInput<T> = ChartInput(angles: seq<real>, points: seq<T>, ticks: seq<real>, labels: seq<string>)

  /** The inputs of `generate_spider_chart` for `values` along `categories`
      (the title and the rendering are not modelled). */
  function PrepareChart<T>(cfg: Config, values: seq<T>, categories: seq<string>): (c: ChartInput<T>)
    requires |values| == |categories|
    ensures |c.angles| == |c.points| == |Close(values)|
    ensures c.points == Close(values)
    ensures |categories| > 0 ==> c.angles[|categories|] == c.angles[0] == 0.0
    ensures c.ticks == Axes(|categories|) && c.angles[..|categories|] == c.ticks
    ensures |c.labels| == |categories|
    ensures forall i :: 0 <= i < |categories| && categories[i] !in Keys(cfg.categories) ==> c.labels[i] == categories[i]
    ensures cfg.Valid() ==> forall i, j :: 0 <= i < |categories| && 0 <= j < |cfg.categories| && categories[i] == cfg.categories[j].0 ==>
      c.labels[i] == cfg.categories[j].1
  {
    var n := |categories|;
    var angles := Close(Axes(n));
    var labels := seq(n, i requires 0 <= i < n => Label(cfg, categories[i]));
    assert cfg.Valid() ==> forall i, j :: 0 <= i < n && 0 <= j < |cfg.categories| && categories[i] == cfg.categories[j].0 ==>
      labels[i] == cfg.categories[j].1 by {
      if cfg.Valid() {
        forall i, j | 0 <= i < n && 0 <= j < |cfg.categories| && categories[i] == cfg.categories[j].0
          ensures labels[i] == cfg.categories[j].1
        {
          ConfiguredLabel(cfg, j);
        }
      }
    }
    ChartInput(angles, Close(values), angles[..n], labels)
  }
}
