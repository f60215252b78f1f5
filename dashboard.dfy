/** The page's view-model: the selected criteria, the campaigns they show and
    the totals of those campaigns. */
module Dashboard {
  import opened JsString
  import opened Campaigns
  import opened Filter
  import opened Aggregation

  /** The sum of one field over exactly the campaigns of `data` that match,
      read off `data` itself. */
  function MatchingSum(data: seq<Campaign>, filter: Status, query: string, m: Metric): int {
    if data == [] then 0
    else (if Matches(data[0], filter, query) then Measure(data[0], m) else 0)
         + MatchingSum(data[1..], filter, query, m)
  }

  /** Each total of the shown list is the sum of that field over exactly the
      matching campaigns. */
  lemma {:induction false} VisibleSum(data: seq<Campaign>, filter: Status, query: string, m: Metric)
    ensures Sum(Visible(data, filter, query), m) == MatchingSum(data, filter, query, m)
  {
    if data != [] {
      VisibleSum(data[1..], filter, query, m);
      if Matches(data[0], filter, query) {
        SumCons(data[0], Visible(data[1..], filter, query), m);
      }
    }
  }

  /** Over well-formed campaigns the totals of the shown list are
      non-negative and never exceed those of the whole dataset. */
  lemma {:induction false} VisibleSumBounded(data: seq<Campaign>, filter: Status, query: string, m: Metric)
    requires forall c :: c in data ==> WellFormed(c)
    ensures 0 <= Sum(Visible(data, filter, query), m) <= Sum(data, m)
  {
    if data == [] {
    } else {
      var c, rest := data[0], data[1..];
      assert data == [c] + rest;
      assert forall x :: x in rest ==> x in data;
      VisibleSumBounded(rest, filter, query, m);
      SumCons(c, rest, m);
      assert WellFormed(c);
      if Matches(c, filter, query) {
        SumCons(c, Visible(rest, filter, query), m);
      }
    }
  }

  /** The `Home` component's state: the selected status and the raw search text. */
  class Home {
    var filter: Status
    var query: string

    /** The page opens on active campaigns with an empty search. */
    constructor ()
      ensures filter == Active && query == ""
    {
      filter := Active;
      query := "";
    }

    /** Selecting a status stores it; the search text is kept. */
    method SetFilter(value: Status)
      modifies this
      ensures filter == value && query == old(query)
    {
      filter := value;
    }

    /** Typing stores the text as entered; trimming and case happen in the filter. */
    method SetQuery(text: string)
      modifies this
      ensures query == text && filter == old(filter)
    {
      query := text;
    }

    /** The campaigns shown for the current criteria. */
    function Filtered(): (r: seq<Campaign>)
      reads this
      ensures |r| <= |InitialData|
      ensures forall c :: c in r <==> c in InitialData && Matches(c, filter, query)
    {
      VisibleMembership(InitialData, filter, query);
      Visible(InitialData, filter, query)
    }

    /** The totals row for the current criteria. */
    method CurrentTotals() returns (t: Totals)
      ensures t == TotalsOf(Filtered())
    {
      t := Aggregate(Filtered());
    }
  }
}
