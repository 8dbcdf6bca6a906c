/** The filtered-donations route: the backend's donation list, narrowed by
    the optional query parameters category, city and condition. */
module FilteredDonations {
  import opened Wrappers

  /** A donation record as the backend sends it: the three fields the filter
      looks at, and the identifier, which the gateway passes through. */
  datatype Donation = Donation(id: string, category: string, city: string, condition: string)

  /** The query parameters of the route; None when a parameter is absent. */
  datatype Criteria = Criteria(category: Option<string>, city: Option<string>, condition: Option<string>)

  /** A parameter constrains the result only when it is truthy in Python's
      sense: neither absent nor the empty string. */
  predicate Supplied(p: Option<string>)
  {
    p.Some? && p.value != ""
  }

  /** A field passes a parameter that is not supplied, or that it equals
      exactly (case-sensitive, no normalisation). */
  predicate Passes(p: Option<string>, field: string)
  {
    !Supplied(p) || field == p.value
  }

  predicate Matches(d: Donation, c: Criteria)
  {
    Passes(c.category, d.category) && Passes(c.city, d.city) && Passes(c.condition, d.condition)
  }

  predicate NoneSupplied(c: Criteria)
  {
    !Supplied(c.category) && !Supplied(c.city) && !Supplied(c.condition)
  }

  /** The specification of the route's loop: the matching donations, in the
      backend's order. */
  function Filter(ds: seq<Donation>, c: Criteria): (r: seq<Donation>)
    ensures |r| <= |ds|
  {
    if ds == [] then []
    else Filter(ds[..|ds| - 1], c) + (if Matches(ds[|ds| - 1], c) then [ds[|ds| - 1]] else [])
  }

  /** The route's body: one pass over the backend list, skipping a donation
      as soon as one supplied parameter differs from its field, appending
      it otherwise. The route always answers 200. */
  method GetFilteredDonations(donations: seq<Donation>, category: Option<string>, city: Option<string>, condition: Option<string>)
    returns (filtered: seq<Donation>, status: int)
    ensures filtered == Filter(donations, Criteria(category, city, condition))
    ensures status == 200
  {
    ghost var c := Criteria(category, city, condition);
    filtered := [];
    for i := 0 to |donations|
      invariant filtered == Filter(donations[..i], c)
    {
      var donation := donations[i];
      assert donations[..i + 1][..i] == donations[..i];
      if Supplied(category) && donation.category != category.value {
        continue;
      }
      if Supplied(city) && donation.city != city.value {
        continue;
      }
      if Supplied(condition) && donation.condition != condition.value {
        continue;
      }
      filtered := filtered + [donation];
    }
    assert donations[..|donations|] == donations;
    status := 200;
  }

  /** Filtering a list extended by one donation extends the filtered list by
      that donation exactly when it matches. */
  lemma FilterSnoc(ds: seq<Donation>, d: Donation, c: Criteria)
    ensures Filter(ds + [d], c) == Filter(ds, c) + (if Matches(d, c) then [d] else [])
  {
  }

  /** The result is a subsequence of the input picked at strictly increasing
      positions (so in the backend's order and with no donation repeated),
      and the positions picked are exactly those of the matching donations. */
  lemma {:induction false} FilterSubsequence(ds: seq<Donation>, c: Criteria) returns (ix: seq<nat>)
    ensures |ix| == |Filter(ds, c)|
    ensures forall k :: 0 <= k < |ix| ==> ix[k] < |ds| && Filter(ds, c)[k] == ds[ix[k]]
    ensures forall k, l :: 0 <= k < l < |ix| ==> ix[k] < ix[l]
    ensures forall i :: 0 <= i < |ds| ==> (i in ix <==> Matches(ds[i], c))
  {
    if ds == [] {
      ix := [];
    } else {
      var n := |ds| - 1;
      var front := ds[..n];
      var ix' := FilterSubsequence(front, c);
      assert forall k :: 0 <= k < |ix'| ==> ix'[k] < n;
      if Matches(ds[n], c) {
        ix := ix' + [n];
      } else {
        ix := ix';
      }
      forall i | 0 <= i < |ds|
        ensures i in ix <==> Matches(ds[i], c)
      {
        if i < n {
          assert ds[i] == front[i];
        }
      }
    }
  }

  /** Soundness: every donation returned agrees exactly with each supplied
      parameter. */
  lemma {:induction false} FilterSound(ds: seq<Donation>, c: Criteria)
    ensures forall d :: d in Filter(ds, c) ==>
      && (Supplied(c.category) ==> d.category == c.category.value)
      && (Supplied(c.city) ==> d.city == c.city.value)
      && (Supplied(c.condition) ==> d.condition == c.condition.value)
  {
    if ds != [] {
      FilterSound(ds[..|ds| - 1], c);
    }
  }

  /** Completeness: every donation of the input that matches is returned. */
  lemma {:induction false} FilterComplete(ds: seq<Donation>, c: Criteria)
    ensures forall d :: d in ds && Matches(d, c) ==> d in Filter(ds, c)
  {
    if ds != [] {
      var front := ds[..|ds| - 1];
      FilterComplete(front, c);
      assert ds == front + [ds[|ds| - 1]];
    }
  }

  /** Order-free statement of the result: each record occurs in it as often
      as in the input when it matches, and not at all otherwise. */
  lemma {:induction false} FilterCounts(ds: seq<Donation>, c: Criteria)
    ensures forall d :: multiset(Filter(ds, c))[d] == if Matches(d, c) then multiset(ds)[d] else 0
  {
    if ds != [] {
      var front := ds[..|ds| - 1];
      FilterCounts(front, c);
      assert ds == front + [ds[|ds| - 1]];
    }
  }

  /** With every parameter absent or empty the route returns the backend list
      unchanged. */
  lemma {:induction false} FilterNoCriteria(ds: seq<Donation>, c: Criteria)
    requires NoneSupplied(c)
    ensures Filter(ds, c) == ds
  {
    if ds != [] {
      var front := ds[..|ds| - 1];
      FilterNoCriteria(front, c);
      assert ds == front + [ds[|ds| - 1]];
    }
  }

  /** Filtering the result again with the same parameters changes nothing. */
  lemma {:induction false} FilterIdempotent(ds: seq<Donation>, c: Criteria)
    ensures Filter(Filter(ds, c), c) == Filter(ds, c)
  {
    if ds != [] {
      var n := |ds| - 1;
      var front := ds[..n];
      FilterIdempotent(front, c);
      if Matches(ds[n], c) {
        assert Filter(ds, c) == Filter(front, c) + [ds[n]];
        FilterSnoc(Filter(front, c), ds[n], c);
      } else {
        assert Filter(ds, c) == Filter(front, c);
      }
    }
  }

  /** The request GET /filteredDonations?city=Bogota against a two-record
      backend list keeps only the record from Bogota. */
  lemma BogotaExample()
    ensures
      var bogota := Donation("1", "ropa", "Bogota", "usado");
      var cali := Donation("2", "ropa", "Cali", "usado");
      Filter([bogota, cali], Criteria(None, Some("Bogota"), None)) == [bogota]
  {
  }
}
