/** The dashboard's data model: a campaign record and the static dataset the
    page displays. */
module Campaigns {

  /** The two values a campaign's status can take. */
  datatype Status = Active | Paused

  /** One marketing campaign. `cost` is a monetary amount held as a whole
      number of cents, so that sums of costs are exact. */
  datatype Campaign = Campaign(
    id: int,
    name: string,
    status: Status,
    clicks: int,
    cost: int,
    impressions: int)

  /** The numeric fields of a campaign are counts and amounts, never negative. */
  predicate WellFormed(c: Campaign) {
    c.clicks >= 0 && c.cost >= 0 && c.impressions >= 0
  }

  /** No two campaigns of `data` share an id. */
  ghost predicate UniqueIds(data: seq<Campaign>) {
    forall i, j :: 0 <= i < j < |data| ==> data[i].id != data[j].id
  }

  /** What the dashboard assumes of its dataset. */
  ghost predicate ValidDataset(data: seq<Campaign>) {
    UniqueIds(data) && forall c :: c in data ==> WellFormed(c)
  }

  /** The six campaigns the page is built with. */
  const InitialData: seq<Campaign> := [
    Campaign(1, "Spring Sale 2025", Active, 12456, 342175, 512345),
    Campaign(2, "Brand Awareness Q1", Paused, 842, 51200, 45000),
    Campaign(3, "Holiday Push", Active, 9800, 274020, 301234),
    Campaign(4, "New Product Launch", Paused, 230, 12050, 12000),
    Campaign(5, "Referral Promo", Active, 4321, 90000, 98000),
    Campaign(6, "Retargeting - Web", Active, 7650, 150099, 210000)
  ]

  /** The static dataset meets the dataset invariant. */
  lemma InitialDataValid()
    ensures ValidDataset(InitialData)
  {
    assert forall i :: 0 <= i < |InitialData| ==> InitialData[i].id == i + 1;
  }

  /** With unique ids, a campaign of the dataset occurs in it exactly once. */
  lemma {:induction false} UniqueIdsOccurOnce(data: seq<Campaign>, c: Campaign)
    requires UniqueIds(data) && c in data
    ensures multiset(data)[c] == 1
  {
    if data[0] == c {
      assert c !in data[1..];
    } else {
      UniqueIdsOccurOnce(data[1..], c);
    }
    assert data == [data[0]] + data[1..];
  }
}
