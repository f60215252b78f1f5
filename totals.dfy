/** The aggregator: clicks, cost and impressions summed over a list of campaigns. */
module Aggregation {
  import opened Campaigns

  /** The three summed fields of a campaign. */
  datatype Metric = Clicks | Cost | Impressions

  function Measure(c: Campaign, m: Metric): int {
    match m
    case Clicks => c.clicks
    case Cost => c.cost
    case Impressions => c.impressions
  }

  /** The record the totals row of the page displays. */
  datatype Totals = Totals(clicks: int, cost: int, impressions: int)

  /** The reduction's initial accumulator. */
  const Zero := Totals(0, 0, 0)

  /** Field-wise sum of two totals. */
  function Plus(a: Totals, b: Totals): Totals {
    Totals(a.clicks + b.clicks, a.cost + b.cost, a.impressions + b.impressions)
  }

  /** The sum of one field over `s`, added up from the first campaign to the last. */
  function Sum(s: seq<Campaign>, m: Metric): int {
    if s == [] then 0 else Sum(s[..|s| - 1], m) + Measure(s[|s| - 1], m)
  }

  /** The totals of `s`: each field is the sum of that field over `s`. */
  function TotalsOf(s: seq<Campaign>): Totals {
    Totals(Sum(s, Clicks), Sum(s, Cost), Sum(s, Impressions))
  }

  /** The reduction: starts from the zero accumulator and adds each campaign's
      fields into it, in list order. */
  method Aggregate(s: seq<Campaign>) returns (acc: Totals)
    ensures acc == TotalsOf(s)
  {
    acc := Zero;
    for i := 0 to |s|
      invariant acc == TotalsOf(s[..i])
    {
      var c := s[i];
      assert s[..i + 1][..i] == s[..i];
      acc := acc.(clicks := acc.clicks + c.clicks);
      acc := acc.(cost := acc.cost + c.cost);
      acc := acc.(impressions := acc.impressions + c.impressions);
    }
    assert s[..|s|] == s;
  }

  /** An empty list sums to the zero record. */
  lemma TotalsEmpty()
    ensures TotalsOf([]) == Totals(0, 0, 0)
  {
  }

  /** Sums are additive over concatenation. */
  lemma {:induction false} SumAppend(a: seq<Campaign>, b: seq<Campaign>, m: Metric)
    ensures Sum(a + b, m) == Sum(a, m) + Sum(b, m)
  {
    if b == [] {
      assert a + b == a;
    } else {
      var n := |b| - 1;
      assert (a + b)[..|a + b| - 1] == a + b[..n];
      SumAppend(a, b[..n], m);
    }
  }

  /** The totals of a concatenation are the field-wise sum of the parts' totals. */
  lemma TotalsAppend(a: seq<Campaign>, b: seq<Campaign>)
    ensures TotalsOf(a + b) == Plus(TotalsOf(a), TotalsOf(b))
  {
    SumAppend(a, b, Clicks);
    SumAppend(a, b, Cost);
    SumAppend(a, b, Impressions);
  }

  /** The reduce callback's step: appending one campaign adds its three fields
      to the totals of the list before it. */
  lemma TotalsSnoc(s: seq<Campaign>, c: Campaign)
    ensures TotalsOf(s + [c]) == Plus(TotalsOf(s), Totals(c.clicks, c.cost, c.impressions))
  {
    assert (s + [c])[..|s|] == s;
  }

  /** Adding the first campaign in front adds its field to the sum. */
  lemma SumCons(c: Campaign, s: seq<Campaign>, m: Metric)
    ensures Sum([c] + s, m) == Measure(c, m) + Sum(s, m)
  {
    SumAppend([c], s, m);
    assert [c][..0] == [];
  }

  /** Over well-formed campaigns every sum is non-negative. */
  lemma {:induction false} SumNonNegative(s: seq<Campaign>, m: Metric)
    requires forall c :: c in s ==> WellFormed(c)
    ensures Sum(s, m) >= 0
  {
    if s != [] {
      assert s[|s| - 1] in s;
      assert forall c :: c in s[..|s| - 1] ==> c in s;
      SumNonNegative(s[..|s| - 1], m);
    }
  }
}
