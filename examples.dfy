/** The dashboard's behaviour on its own dataset, for the criteria a user
    would try first. Each scenario first settles, campaign by campaign,
    whether it matches, then assembles the shown list and its totals from
    the general lemmas. */
module Scenarios {
  import opened JsString
  import opened Campaigns
  import opened Filter
  import opened Aggregation

  /** The ids of a list of campaigns, in order. */
  function Ids(s: seq<Campaign>): seq<int> {
    if s == [] then [] else [s[0].id] + Ids(s[1..])
  }

  /** The empty query matches on status alone. */
  lemma BlankMatches(c: Campaign, filter: Status)
    ensures Matches(c, filter, "") <==> c.status == filter
  {
    IncludesEmpty(ToLower(c.name));
    assert Normalize("") == "";
  }

  /** A query already trimmed and in lower case is its own normal form. */
  lemma NormalQuery(q: string)
    requires q != [] && !IsWhitespace(q[0]) && !IsWhitespace(q[|q| - 1])
    requires forall i :: 0 <= i < |q| ==> !('A' <= q[i] <= 'Z')
    ensures Normalize(q) == q
  {
    assert TrimStart(q) == q;
    ToLowerAt(q);
  }

  /** A campaign whose name lacks, in both cases, a letter of the query is not shown. */
  lemma MissesLetter(c: Campaign, filter: Status, q: string, k: nat)
    requires Normalize(q) == q && k < |q| && 'a' <= q[k] <= 'z'
    requires q[k] !in c.name && (q[k] as int - 'a' as int + 'A' as int) as char !in c.name
    ensures !Matches(c, filter, q)
  {
    ToLowerOmits(c.name, q[k]);
    NotIncludesMissingChar(ToLower(c.name), q, k);
  }

  /** A campaign of the selected status whose name holds a word that lower-cases
      to the query is shown. */
  lemma HasWord(c: Campaign, filter: Status, q: string, before: string, word: string, after: string)
    requires Normalize(q) == q && c.status == filter
    requires c.name == before + word + after && ToLower(word) == q
    ensures Matches(c, filter, q)
  {
    IncludesLoweredWord(c.name, before, word, after, q);
  }

  /** Six campaigns of which the first, third, fifth and sixth match. */
  lemma VisibleFourOfSix(d: seq<Campaign>, filter: Status, query: string)
    requires |d| == 6
    requires Matches(d[0], filter, query) && !Matches(d[1], filter, query) && Matches(d[2], filter, query)
    requires !Matches(d[3], filter, query) && Matches(d[4], filter, query) && Matches(d[5], filter, query)
    ensures Visible(d, filter, query) == [d[0], d[2], d[4], d[5]]
  {
    assert d[6..] == [];
    VisibleFrom(d, filter, query, 5);
    VisibleFrom(d, filter, query, 4);
    VisibleFrom(d, filter, query, 3);
    VisibleFrom(d, filter, query, 2);
    VisibleFrom(d, filter, query, 1);
    VisibleFrom(d, filter, query, 0);
    assert d[0..] == d;
  }

  lemma IdsOfFour(a: Campaign, b: Campaign, c: Campaign, e: Campaign)
    ensures Ids([a, b, c, e]) == [a.id, b.id, c.id, e.id]
  {
    assert [a, b, c, e][1..] == [b, c, e];
    assert [b, c, e][1..] == [c, e];
    assert [c, e][1..] == [e];
    assert [e][1..] == [];
    assert Ids([e]) == [e.id];
    assert Ids([c, e]) == [c.id, e.id];
    assert Ids([b, c, e]) == [b.id, c.id, e.id];
  }

  /** The totals of a one-campaign list are that campaign's fields. */
  lemma TotalsOfOne(c: Campaign)
    ensures TotalsOf([c]) == Totals(c.clicks, c.cost, c.impressions)
  {
    assert [c][..0] == [];
    assert Sum([c], Clicks) == c.clicks;
    assert Sum([c], Cost) == c.cost;
    assert Sum([c], Impressions) == c.impressions;
  }

  lemma SumOfFour(a: Campaign, b: Campaign, c: Campaign, e: Campaign, m: Metric)
    ensures Sum([a, b, c, e], m) == Measure(a, m) + Measure(b, m) + Measure(c, m) + Measure(e, m)
  {
    assert [a, b, c, e][..3] == [a, b, c];
    assert [a, b, c][..2] == [a, b];
    assert [a, b][..1] == [a];
    assert [a][..0] == [];
    assert Sum([a], m) == Measure(a, m);
    assert Sum([a, b], m) == Sum([a], m) + Measure(b, m);
    assert Sum([a, b, c], m) == Sum([a, b], m) + Measure(c, m);
  }

  /** The totals of a four-campaign list, field by field. */
  lemma TotalsOfFour(a: Campaign, b: Campaign, c: Campaign, e: Campaign)
    ensures TotalsOf([a, b, c, e]) == Totals(a.clicks + b.clicks + c.clicks + e.clicks,
                                             a.cost + b.cost + c.cost + e.cost,
                                             a.impressions + b.impressions + c.impressions + e.impressions)
  {
    SumOfFour(a, b, c, e, Clicks);
    SumOfFour(a, b, c, e, Cost);
    SumOfFour(a, b, c, e, Impressions);
  }

  // ---- Active, empty query: the view the page opens on ----

  lemma ActiveBlankShown()
    ensures Visible(InitialData, Active, "") == [InitialData[0], InitialData[2], InitialData[4], InitialData[5]]
  {
    var d := InitialData;
    BlankMatches(d[0], Active);
    BlankMatches(d[1], Active);
    BlankMatches(d[2], Active);
    BlankMatches(d[3], Active);
    BlankMatches(d[4], Active);
    BlankMatches(d[5], Active);
    VisibleFourOfSix(d, Active, "");
  }

  /** The opening view shows campaigns 1, 3, 5 and 6, with 34227 clicks,
      a cost of 8562.94 and 1121579 impressions. */
  lemma ActiveWithEmptyQuery()
    ensures Ids(Visible(InitialData, Active, "")) == [1, 3, 5, 6]
    ensures TotalsOf(Visible(InitialData, Active, "")) == Totals(34227, 856294, 1121579)
  {
    ActiveBlankShown();
    IdsOfFour(InitialData[0], InitialData[2], InitialData[4], InitialData[5]);
    TotalsOfFour(InitialData[0], InitialData[2], InitialData[4], InitialData[5]);
  }

  // ---- The dataset's names, and the queries tried on them ----
  // Each concrete fact below (a name, a missing letter, a split into words, a
  // normal form) gets its own argument-free lemma, so that every scenario
  // proof calls for only the facts it uses and stays cheap for the verifier.

  lemma Names()
    ensures InitialData[0].name == "Spring Sale 2025" && InitialData[1].name == "Brand Awareness Q1"
    ensures InitialData[2].name == "Holiday Push" && InitialData[3].name == "New Product Launch"
    ensures InitialData[4].name == "Referral Promo" && InitialData[5].name == "Retargeting - Web"
  {
  }

  /** Letters some names lack in both cases. */
  lemma SpringSaleLacks()
    ensures 'z' !in "Spring Sale 2025" && 'Z' !in "Spring Sale 2025"
  {
  }

  lemma BrandLacks()
    ensures 'l' !in "Brand Awareness Q1" && 'L' !in "Brand Awareness Q1"
  {
  }

  lemma HolidayLacks()
    ensures 'r' !in "Holiday Push" && 'R' !in "Holiday Push"
    ensures 'e' !in "Holiday Push" && 'E' !in "Holiday Push"
    ensures 'z' !in "Holiday Push" && 'Z' !in "Holiday Push"
  {
  }

  lemma ReferralLacks()
    ensures 's' !in "Referral Promo" && 'S' !in "Referral Promo"
    ensures 'z' !in "Referral Promo" && 'Z' !in "Referral Promo"
  {
  }

  lemma RetargetingLacks()
    ensures 's' !in "Retargeting - Web" && 'S' !in "Retargeting - Web"
    ensures 'z' !in "Retargeting - Web" && 'Z' !in "Retargeting - Web"
  {
  }

  /** Words of the names, split out, and their lower-case forms. */
  lemma Words()
    ensures "New Product Launch" == "New Product " + "Launch" + ""
    ensures "Spring Sale 2025" == "" + "Spring" + " Sale 2025"
    ensures "Spring Sale 2025" == "Spring " + "Sale" + " 2025"
    ensures ToLower("Launch") == "launch" && ToLower("Spring") == "spring" && ToLower("Sale") == "sale"
  {
  }

  /** The queries below are already in normal form. */
  lemma LaunchNormal()
    ensures Normalize("launch") == "launch"
  {
    NormalQuery("launch");
  }

  lemma ZzzNormal()
    ensures Normalize("zzz") == "zzz"
  {
    NormalQuery("zzz");
  }

  lemma SpringNormal()
    ensures Normalize("spring") == "spring"
  {
    NormalQuery("spring");
  }

  lemma SaleNormal()
    ensures Normalize("sale") == "sale"
  {
    NormalQuery("sale");
  }

  // ---- Paused, query "launch" ----

  lemma LaunchMisses1()
    ensures !Matches(InitialData[1], Paused, "launch")
  {
    Names(); BrandLacks(); LaunchNormal();
    MissesLetter(InitialData[1], Paused, "launch", 0);
  }

  lemma LaunchMatches3()
    ensures Matches(InitialData[3], Paused, "launch")
  {
    Names(); Words(); LaunchNormal();
    HasWord(InitialData[3], Paused, "launch", "New Product ", "Launch", "");
  }

  lemma LaunchDecision(i: nat)
    requires i < |InitialData|
    ensures Matches(InitialData[i], Paused, "launch") <==> i == 3
  {
    if i == 1 { LaunchMisses1(); } else if i == 3 { LaunchMatches3(); }
  }

  lemma PausedLaunchShown()
    ensures Visible(InitialData, Paused, "launch") == [InitialData[3]]
  {
    forall i | 0 <= i < |InitialData|
      ensures Matches(InitialData[i], Paused, "launch") <==> i == 3
    {
      LaunchDecision(i);
    }
    VisibleOnly(InitialData, Paused, "launch", 3);
  }

  /** Searching paused campaigns for "launch" shows campaign 4 alone, with
      230 clicks, a cost of 120.50 and 12000 impressions. */
  lemma PausedLaunch()
    ensures Ids(Visible(InitialData, Paused, "launch")) == [4]
    ensures TotalsOf(Visible(InitialData, Paused, "launch")) == Totals(230, 12050, 12000)
  {
    PausedLaunchShown();
    TotalsOfOne(InitialData[3]);
  }

  // ---- Active, query "zzz" ----

  lemma ZzzMisses0()
    ensures !Matches(InitialData[0], Active, "zzz")
  {
    Names(); SpringSaleLacks(); ZzzNormal();
    MissesLetter(InitialData[0], Active, "zzz", 0);
  }

  lemma ZzzMisses2()
    ensures !Matches(InitialData[2], Active, "zzz")
  {
    Names(); HolidayLacks(); ZzzNormal();
    MissesLetter(InitialData[2], Active, "zzz", 0);
  }

  lemma ZzzMisses4()
    ensures !Matches(InitialData[4], Active, "zzz")
  {
    Names(); ReferralLacks(); ZzzNormal();
    MissesLetter(InitialData[4], Active, "zzz", 0);
  }

  lemma ZzzMisses5()
    ensures !Matches(InitialData[5], Active, "zzz")
  {
    Names(); RetargetingLacks(); ZzzNormal();
    MissesLetter(InitialData[5], Active, "zzz", 0);
  }

  lemma ZzzDecision(i: nat)
    requires i < |InitialData|
    ensures !Matches(InitialData[i], Active, "zzz")
  {
    if i == 0 { ZzzMisses0(); }
    else if i == 2 { ZzzMisses2(); }
    else if i == 4 { ZzzMisses4(); }
    else if i == 5 { ZzzMisses5(); }
  }

  /** A query no name contains shows nothing, and the totals are zero. */
  lemma ActiveNoMatch()
    ensures Visible(InitialData, Active, "zzz") == []
    ensures TotalsOf(Visible(InitialData, Active, "zzz")) == Totals(0, 0, 0)
  {
    forall i | 0 <= i < |InitialData|
      ensures !Matches(InitialData[i], Active, "zzz")
    {
      ZzzDecision(i);
    }
    VisibleNone(InitialData, Active, "zzz");
  }

  // ---- Active, query "spring" in either case ----

  // "Holiday Push" has no r; "Referral Promo" and "Retargeting - Web" have no s.
  lemma SpringMatches0()
    ensures Matches(InitialData[0], Active, "spring")
  {
    Names(); Words(); SpringNormal();
    HasWord(InitialData[0], Active, "spring", "", "Spring", " Sale 2025");
  }

  lemma SpringMisses2()
    ensures !Matches(InitialData[2], Active, "spring")
  {
    Names(); HolidayLacks(); SpringNormal();
    MissesLetter(InitialData[2], Active, "spring", 2);
  }

  lemma SpringMisses4()
    ensures !Matches(InitialData[4], Active, "spring")
  {
    Names(); ReferralLacks(); SpringNormal();
    MissesLetter(InitialData[4], Active, "spring", 0);
  }

  lemma SpringMisses5()
    ensures !Matches(InitialData[5], Active, "spring")
  {
    Names(); RetargetingLacks(); SpringNormal();
    MissesLetter(InitialData[5], Active, "spring", 0);
  }

  lemma SpringDecision(i: nat)
    requires i < |InitialData|
    ensures Matches(InitialData[i], Active, "spring") <==> i == 0
  {
    if i == 0 { SpringMatches0(); }
    else if i == 2 { SpringMisses2(); }
    else if i == 4 { SpringMisses4(); }
    else if i == 5 { SpringMisses5(); }
  }

  lemma SpringShown()
    ensures Visible(InitialData, Active, "spring") == [InitialData[0]]
  {
    forall i | 0 <= i < |InitialData|
      ensures Matches(InitialData[i], Active, "spring") <==> i == 0
    {
      SpringDecision(i);
    }
    VisibleOnly(InitialData, Active, "spring", 0);
  }

  lemma SameLetters()
    ensures ToLower("SPRING") == ToLower("spring")
  {
  }

  /** "spring" and "SPRING" both show "Spring Sale 2025" alone. */
  lemma SpringIgnoresCase()
    ensures Visible(InitialData, Active, "spring") == [InitialData[0]]
    ensures Visible(InitialData, Active, "SPRING") == Visible(InitialData, Active, "spring")
  {
    SpringShown();
    SameLetters();
    VisibleIgnoresCase(InitialData, Active, "SPRING", "spring");
  }

  // ---- Active, query "sale" with and without padding ----

  // "Holiday Push" has no e; "Referral Promo" and "Retargeting - Web" have no s.
  lemma SaleMatches0()
    ensures Matches(InitialData[0], Active, "sale")
  {
    Names(); Words(); SaleNormal();
    HasWord(InitialData[0], Active, "sale", "Spring ", "Sale", " 2025");
  }

  lemma SaleMisses2()
    ensures !Matches(InitialData[2], Active, "sale")
  {
    Names(); HolidayLacks(); SaleNormal();
    MissesLetter(InitialData[2], Active, "sale", 3);
  }

  lemma SaleMisses4()
    ensures !Matches(InitialData[4], Active, "sale")
  {
    Names(); ReferralLacks(); SaleNormal();
    MissesLetter(InitialData[4], Active, "sale", 0);
  }

  lemma SaleMisses5()
    ensures !Matches(InitialData[5], Active, "sale")
  {
    Names(); RetargetingLacks(); SaleNormal();
    MissesLetter(InitialData[5], Active, "sale", 0);
  }

  lemma SaleDecision(i: nat)
    requires i < |InitialData|
    ensures Matches(InitialData[i], Active, "sale") <==> i == 0
  {
    if i == 0 { SaleMatches0(); }
    else if i == 2 { SaleMisses2(); }
    else if i == 4 { SaleMisses4(); }
    else if i == 5 { SaleMisses5(); }
  }

  lemma SaleShown()
    ensures Visible(InitialData, Active, "sale") == [InitialData[0]]
  {
    forall i | 0 <= i < |InitialData|
      ensures Matches(InitialData[i], Active, "sale") <==> i == 0
    {
      SaleDecision(i);
    }
    VisibleOnly(InitialData, Active, "sale", 0);
  }

  lemma Padding()
    ensures "  sale " == "  " + "sale" + " "
    ensures AllWhitespace("  ") && AllWhitespace(" ")
  {
  }

  /** "sale" and "  sale " both show "Spring Sale 2025" alone. */
  lemma SaleIgnoresPadding()
    ensures Visible(InitialData, Active, "sale") == [InitialData[0]]
    ensures Visible(InitialData, Active, "  sale ") == Visible(InitialData, Active, "sale")
  {
    SaleShown();
    Padding();
    VisibleIgnoresPadding(InitialData, Active, "  ", "sale", " ");
  }
}
