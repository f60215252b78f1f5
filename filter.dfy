/** The filter engine: the campaigns the page shows for a selected status and
    a free-text search query. */
module Filter {
  import opened JsString
  import opened Campaigns

  /** The search text as the filter compares it: trimmed, then lower-cased. */
  function Normalize(query: string): string {
    ToLower(Trim(query))
  }

  /** A campaign is shown when its status is the selected one and its
      lower-cased name contains the normalised query. */
  predicate Matches(c: Campaign, filter: Status, query: string) {
    c.status == filter && Includes(ToLower(c.name), Normalize(query))
  }

  /** The campaigns of `data` that match, in their original order. */
  function Visible(data: seq<Campaign>, filter: Status, query: string): (r: seq<Campaign>)
    ensures |r| <= |data|
  {
    if data == [] then []
    else if Matches(data[0], filter, query) then [data[0]] + Visible(data[1..], filter, query)
    else Visible(data[1..], filter, query)
  }

  /** Every shown campaign comes from `data` and matches. */
  lemma {:induction false} VisibleSound(data: seq<Campaign>, filter: Status, query: string)
    ensures forall c :: c in Visible(data, filter, query) ==> c in data && Matches(c, filter, query)
  {
    if data != [] {
      VisibleSound(data[1..], filter, query);
    }
  }

  /** Every matching campaign of `data` is shown. */
  lemma {:induction false} VisibleComplete(data: seq<Campaign>, filter: Status, query: string, c: Campaign)
    requires c in data && Matches(c, filter, query)
    ensures c in Visible(data, filter, query)
  {
    if data[0] != c {
      VisibleComplete(data[1..], filter, query, c);
    }
  }

  /** A campaign is shown exactly when it is in `data` and matches. */
  lemma VisibleMembership(data: seq<Campaign>, filter: Status, query: string)
    ensures forall c :: c in Visible(data, filter, query) <==> c in data && Matches(c, filter, query)
  {
    VisibleSound(data, filter, query);
    forall c | c in data && Matches(c, filter, query)
      ensures c in Visible(data, filter, query)
    {
      VisibleComplete(data, filter, query, c);
    }
  }

  /** When no campaign of `data` matches, nothing is shown. */
  lemma {:induction false} VisibleNone(data: seq<Campaign>, filter: Status, query: string)
    requires forall i :: 0 <= i < |data| ==> !Matches(data[i], filter, query)
    ensures Visible(data, filter, query) == []
  {
    if data != [] {
      assert !Matches(data[0], filter, query);
      VisibleNone(data[1..], filter, query);
    }
  }

  /** When exactly one campaign of `data` matches, it alone is shown. */
  lemma {:induction false} VisibleOnly(data: seq<Campaign>, filter: Status, query: string, k: nat)
    requires k < |data| && Matches(data[k], filter, query)
    requires forall i :: 0 <= i < |data| && i != k ==> !Matches(data[i], filter, query)
    ensures Visible(data, filter, query) == [data[k]]
  {
    if k == 0 {
      VisibleNone(data[1..], filter, query);
    } else {
      assert !Matches(data[0], filter, query);
      VisibleOnly(data[1..], filter, query, k - 1);
    }
  }

  /** A shown campaign occurs as often as it does in `data`; a hidden one not at all. */
  lemma {:induction false} VisibleCount(data: seq<Campaign>, filter: Status, query: string, c: Campaign)
    ensures multiset(Visible(data, filter, query))[c]
            == if Matches(c, filter, query) then multiset(data)[c] else 0
  {
    if data != [] {
      VisibleCount(data[1..], filter, query, c);
      assert data == [data[0]] + data[1..];
    }
  }

  /** Over a dataset with unique ids, each matching campaign is shown exactly once. */
  lemma VisibleExactlyOnce(data: seq<Campaign>, filter: Status, query: string, c: Campaign)
    requires UniqueIds(data) && c in data && Matches(c, filter, query)
    ensures multiset(Visible(data, filter, query))[c] == 1
  {
    VisibleCount(data, filter, query, c);
    UniqueIdsOccurOnce(data, c);
  }

  /** The indices `i` in `lo..|data|` at which `data[i]` matches, in increasing order. */
  function MatchingIndices(data: seq<Campaign>, filter: Status, query: string, lo: nat): seq<nat>
    requires lo <= |data|
    decreases |data| - lo
  {
    if lo == |data| then []
    else if Matches(data[lo], filter, query) then [lo] + MatchingIndices(data, filter, query, lo + 1)
    else MatchingIndices(data, filter, query, lo + 1)
  }

  /** The matching indices are increasing, lie in `lo..|data|`, and are exactly
      the indices there whose campaign matches. */
  lemma {:induction false} MatchingIndicesExact(data: seq<Campaign>, filter: Status, query: string, lo: nat)
    requires lo <= |data|
    ensures var idx := MatchingIndices(data, filter, query, lo);
      && (forall k :: 0 <= k < |idx| ==> lo <= idx[k] < |data|)
      && (forall k, l :: 0 <= k < l < |idx| ==> idx[k] < idx[l])
      && (forall i :: lo <= i < |data| ==> (i in idx <==> Matches(data[i], filter, query)))
    decreases |data| - lo
  {
    if lo < |data| {
      MatchingIndicesExact(data, filter, query, lo + 1);
      var idx' := MatchingIndices(data, filter, query, lo + 1);
      if Matches(data[lo], filter, query) {
        var idx := [lo] + idx';
        assert forall k :: 1 <= k < |idx| ==> idx[k] == idx'[k - 1];
      } else {
        assert lo !in idx';
      }
    }
  }

  /** Filtering `data[lo..]` decides on `data[lo]` and filters the rest. */
  lemma VisibleFrom(data: seq<Campaign>, filter: Status, query: string, lo: nat)
    requires lo < |data|
    ensures Visible(data[lo..], filter, query)
            == (if Matches(data[lo], filter, query) then [data[lo]] else []) + Visible(data[lo + 1..], filter, query)
  {
    assert data[lo..][1..] == data[lo + 1..];
  }

  /** Filtering is a stable selection: the shown list is `data` read at the
      matching indices, in order. */
  lemma {:induction false} VisibleIsStableSelection(data: seq<Campaign>, filter: Status, query: string, lo: nat)
    requires lo <= |data|
    ensures var r, idx := Visible(data[lo..], filter, query), MatchingIndices(data, filter, query, lo);
      |idx| == |r| && forall k :: 0 <= k < |idx| ==> idx[k] < |data| && r[k] == data[idx[k]]
    decreases |data| - lo
  {
    if lo < |data| {
      VisibleIsStableSelection(data, filter, query, lo + 1);
      VisibleFrom(data, filter, query, lo);
    }
  }

  /** The campaigns of `data` with the given status, whatever their names. */
  function WithStatus(data: seq<Campaign>, filter: Status): (r: seq<Campaign>)
    ensures forall c :: c in r ==> c.status == filter
  {
    if data == [] then []
    else if data[0].status == filter then [data[0]] + WithStatus(data[1..], filter)
    else WithStatus(data[1..], filter)
  }

  /** An empty or whitespace-only query filters by status alone. */
  lemma {:induction false} VisibleBlankQuery(data: seq<Campaign>, filter: Status, query: string)
    requires AllWhitespace(query)
    ensures Visible(data, filter, query) == WithStatus(data, filter)
  {
    if data != [] {
      TrimAllWhitespace(query);
      IncludesEmpty(ToLower(data[0].name));
      VisibleBlankQuery(data[1..], filter, query);
    }
  }

  /** Two queries with the same normal form show the same campaigns. */
  lemma {:induction false} VisibleNormalized(data: seq<Campaign>, filter: Status, q1: string, q2: string)
    requires Normalize(q1) == Normalize(q2)
    ensures Visible(data, filter, q1) == Visible(data, filter, q2)
  {
    if data != [] {
      VisibleNormalized(data[1..], filter, q1, q2);
    }
  }

  /** Leading and trailing whitespace in the query does not change what is shown. */
  lemma VisibleIgnoresPadding(data: seq<Campaign>, filter: Status, w1: string, query: string, w2: string)
    requires AllWhitespace(w1) && AllWhitespace(w2)
    ensures Visible(data, filter, w1 + query + w2) == Visible(data, filter, query)
  {
    TrimPadded(w1, query, w2);
    VisibleNormalized(data, filter, w1 + query + w2, query);
  }

  /** Queries that differ only in letter case show the same campaigns. */
  lemma VisibleIgnoresCase(data: seq<Campaign>, filter: Status, q1: string, q2: string)
    requires ToLower(q1) == ToLower(q2)
    ensures Visible(data, filter, q1) == Visible(data, filter, q2)
  {
    ToLowerTrim(q1);
    ToLowerTrim(q2);
    VisibleNormalized(data, filter, q1, q2);
  }

  /** Filtering a concatenation filters each part. */
  lemma {:induction false} VisibleAppend(a: seq<Campaign>, b: seq<Campaign>, filter: Status, query: string)
    ensures Visible(a + b, filter, query) == Visible(a, filter, query) + Visible(b, filter, query)
  {
    if a == [] {
      assert a + b == b;
    } else {
      assert (a + b)[1..] == a[1..] + b;
      VisibleAppend(a[1..], b, filter, query);
    }
  }

  /** Filtering an already filtered list changes nothing. */
  lemma {:induction false} VisibleIdempotent(data: seq<Campaign>, filter: Status, query: string)
    ensures Visible(Visible(data, filter, query), filter, query) == Visible(data, filter, query)
  {
    if data != [] {
      VisibleIdempotent(data[1..], filter, query);
    }
  }

  /** Ids stay unique under filtering. */
  lemma VisibleUniqueIds(data: seq<Campaign>, filter: Status, query: string)
    requires UniqueIds(data)
    ensures UniqueIds(Visible(data, filter, query))
  {
    VisibleIsStableSelection(data, filter, query, 0);
    MatchingIndicesExact(data, filter, query, 0);
    assert data[0..] == data;
  }
}
