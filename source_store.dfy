/**
 * The profile store and the range query of `fetch_new_profiles`: an inner
 * join of five tables keyed by customer id, restricted to rows created after
 * a threshold and ordered by creation timestamp.
 */
module SourceStore {
  import opened Wrappers
  import opened Timestamps

  /** A row of `customers`; `customer_id` is the SERIAL primary key, never NULL. */
  datatype Customer = Customer(
    customerId: int,
    name: Option<string>,
    lastName: Option<string>,
    gender: Option<string>,
    dateOfBirth: Option<CalendarDate>,
    homeAddress: Option<string>,
    homeCity: Option<string>,
    postalCode: Option<string>,
    country: Option<string>,
    isoCountryCode: Option<string>,
    mobilePhone: Option<string>,
    email: Option<string>)

  /** The columns the query selects from `retail_preferences`. */
  datatype RetailPreferences = RetailPreferences(
    favouriteColor: Option<string>,
    favouriteCategory: Option<string>,
    favouriteSubcategory: Option<string>,
    shirtSize: Option<string>,
    pantsSize: Option<string>,
    shoeSize: Option<int>)

  /** The columns the query selects from `marketing_preferences`. */
  datatype MarketingPreferences = MarketingPreferences(
    consent: Option<bool>,
    preferredCommunication: Option<string>)

  /** The columns the query selects from `loyalty_data`. */
  datatype LoyaltyData = LoyaltyData(
    loyaltyNumberId: Option<int>,
    dateJoined: Option<CalendarDate>,
    points: Option<int>)

  /** The column the query selects from `system_data`. */
  datatype SystemData = SystemData(profileCreationDate: Option<DateTime>)

  /**
   * One customer with the rows of the four other tables that refer to it;
   * a part that has not been inserted yet is None.
   */
  datatype StoreEntry = StoreEntry(
    customer: Customer,
    retail: Option<RetailPreferences>,
    marketing: Option<MarketingPreferences>,
    loyalty: Option<LoyaltyData>,
    system: Option<SystemData>)

  /** One row of the joined query result. */
  datatype ProfileRecord = ProfileRecord(
    customer: Customer,
    retail: RetailPreferences,
    marketing: MarketingPreferences,
    loyalty: LoyaltyData,
    profileCreationDate: Option<DateTime>)

  /** The inner join: an entry yields a row only when all five parts exist. */
  function Joined(e: StoreEntry): (r: Option<ProfileRecord>)
    ensures r.Some? <==> e.retail.Some? && e.marketing.Some? && e.loyalty.Some? && e.system.Some?
    ensures r.Some? ==>
      && r.value.customer == e.customer
      && r.value.retail == e.retail.value
      && r.value.marketing == e.marketing.value
      && r.value.loyalty == e.loyalty.value
      && r.value.profileCreationDate == e.system.value.profileCreationDate
  {
    if e.retail.Some? && e.marketing.Some? && e.loyalty.Some? && e.system.Some? then
      Some(ProfileRecord(e.customer, e.retail.value, e.marketing.value, e.loyalty.value,
                         e.system.value.profileCreationDate))
    else None
  }

  /** The WHERE clause: joined, and `profile_creation_date > threshold` holds. */
  predicate Matches(e: StoreEntry, threshold: Option<DateTime>) {
    Joined(e).Some? && After(Joined(e).value.profileCreationDate, threshold)
  }

  predicate Dated(r: ProfileRecord) {
    r.profileCreationDate.Some?
  }

  function Created(r: ProfileRecord): DateTime
    requires Dated(r)
  {
    r.profileCreationDate.value
  }

  predicate AllDated(s: seq<ProfileRecord>) {
    forall i :: 0 <= i < |s| ==> Dated(s[i])
  }

  /** Non-decreasing by creation timestamp. */
  predicate SortedByCreation(s: seq<ProfileRecord>)
    requires AllDated(s)
  {
    forall i, j :: 0 <= i < j < |s| ==> NotAfter(Created(s[i]), Created(s[j]))
  }

  /** The joined rows that satisfy the WHERE clause, in store order. */
  function Selected(store: seq<StoreEntry>, threshold: Option<DateTime>): (s: seq<ProfileRecord>)
    ensures AllDated(s)
    ensures forall i :: 0 <= i < |s| ==> After(s[i].profileCreationDate, threshold)
    ensures |s| <= |store|
  {
    if store == [] then []
    else
      var rest := Selected(store[..|store| - 1], threshold);
      var e := store[|store| - 1];
      if Matches(e, threshold) then rest + [Joined(e).value] else rest
  }

  lemma {:induction false} SelectedMembership(store: seq<StoreEntry>, threshold: Option<DateTime>)
    ensures forall i :: 0 <= i < |store| && Matches(store[i], threshold) ==>
              Joined(store[i]).value in Selected(store, threshold)
    ensures forall r :: r in Selected(store, threshold) ==>
              exists i :: 0 <= i < |store| && Matches(store[i], threshold) && Joined(store[i]) == Some(r)
  {
    if store != [] {
      var init := store[..|store| - 1];
      SelectedMembership(init, threshold);
      forall r | r in Selected(store, threshold)
        ensures exists i :: 0 <= i < |store| && Matches(store[i], threshold) && Joined(store[i]) == Some(r)
      {
        if r in Selected(init, threshold) {
          var i :| 0 <= i < |init| && Matches(init[i], threshold) && Joined(init[i]) == Some(r);
          assert store[i] == init[i];
        } else {
          assert Matches(store[|store| - 1], threshold) && Joined(store[|store| - 1]) == Some(r);
        }
      }
    }
  }

  /** `b` is not after the creation date of any element of `s`. */
  predicate LowerBound(b: DateTime, s: seq<ProfileRecord>)
    requires AllDated(s)
  {
    forall k :: 0 <= k < |s| ==> NotAfter(b, Created(s[k]))
  }

  lemma SortedCons(a: ProfileRecord, t: seq<ProfileRecord>)
    requires Dated(a) && AllDated(t) && SortedByCreation(t) && LowerBound(Created(a), t)
    ensures AllDated([a] + t) && SortedByCreation([a] + t)
  {
    var s := [a] + t;
    forall i, j | 0 <= i < j < |s| ensures NotAfter(Created(s[i]), Created(s[j])) {
      if i > 0 {
        assert s[i] == t[i - 1] && s[j] == t[j - 1];
      } else {
        assert s[j] == t[j - 1];
      }
    }
  }

  lemma LowerBoundOfMultiset(b: DateTime, s: seq<ProfileRecord>, u: seq<ProfileRecord>)
    requires AllDated(s) && AllDated(u) && multiset(u) <= multiset(s) && LowerBound(b, s)
    ensures LowerBound(b, u)
  {
    forall k | 0 <= k < |u| ensures NotAfter(b, Created(u[k])) {
      assert u[k] in multiset(s);
      var m :| 0 <= m < |s| && s[m] == u[k];
    }
  }

  /**
   * Places `x` before the first element created no earlier than it; since
   * later elements of the input follow `x` in store order, ties keep that order.
   */
  function Insert(x: ProfileRecord, s: seq<ProfileRecord>): (r: seq<ProfileRecord>)
    requires Dated(x) && AllDated(s) && SortedByCreation(s)
    ensures AllDated(r) && SortedByCreation(r)
    ensures multiset(r) == multiset(s) + multiset{x}
  {
    if s == [] || NotAfter(Created(x), Created(s[0])) then
      assert LowerBound(Created(x), s) by {
        forall k | 0 <= k < |s| ensures NotAfter(Created(x), Created(s[k])) {
          if k > 0 { assert NotAfter(Created(s[0]), Created(s[k])); }
        }
      }
      SortedCons(x, s);
      [x] + s
    else
      var rest := s[1..];
      assert s == [s[0]] + rest;
      var tail := Insert(x, rest);
      assert LowerBound(Created(s[0]), rest + [x]) by {
        forall k | 0 <= k < |rest + [x]| ensures NotAfter(Created(s[0]), Created((rest + [x])[k])) {
          if k < |rest| { assert (rest + [x])[k] == s[k + 1]; }
        }
      }
      assert multiset(rest + [x]) == multiset(rest) + multiset{x};
      LowerBoundOfMultiset(Created(s[0]), rest + [x], tail);
      SortedCons(s[0], tail);
      [s[0]] + tail
  }

  /** `ORDER BY profile_creation_date`, by insertion sort; equal keys keep store order. */
  function SortByCreation(s: seq<ProfileRecord>): (r: seq<ProfileRecord>)
    requires AllDated(s)
    ensures AllDated(r) && SortedByCreation(r)
    ensures multiset(r) == multiset(s)
  {
    if s == [] then []
    else
      assert s == [s[0]] + s[1..];
      Insert(s[0], SortByCreation(s[1..]))
  }

  /** The query of `fetch_new_profiles(conn, threshold)`. */
  function FetchNewProfiles(store: seq<StoreEntry>, threshold: Option<DateTime>): seq<ProfileRecord> {
    SortByCreation(Selected(store, threshold))
  }

  /**
   * What the fetch returns: joined rows created strictly after the threshold
   * (so every one has a creation date), each matching entry's row, nothing
   * else, as many as matched, in non-decreasing creation order.
   */
  lemma FetchNewProfilesSpec(store: seq<StoreEntry>, threshold: Option<DateTime>)
    ensures var f := FetchNewProfiles(store, threshold);
      && AllDated(f)
      && SortedByCreation(f)
      && (forall i :: 0 <= i < |f| ==> After(f[i].profileCreationDate, threshold))
      && multiset(f) == multiset(Selected(store, threshold))
      && (forall i :: 0 <= i < |store| && Matches(store[i], threshold) ==> Joined(store[i]).value in f)
      && (forall r :: r in f ==>
            exists i :: 0 <= i < |store| && Matches(store[i], threshold) && Joined(store[i]) == Some(r))
  {
    var f := FetchNewProfiles(store, threshold);
    var sel := Selected(store, threshold);
    SelectedMembership(store, threshold);
    assert forall r :: r in f <==> r in sel by {
      forall r ensures r in f <==> r in sel {
        assert r in f <==> r in multiset(f);
        assert r in sel <==> r in multiset(sel);
      }
    }
    forall i | 0 <= i < |f| ensures After(f[i].profileCreationDate, threshold) {
      assert f[i] in sel;
    }
  }

  /** A NULL threshold selects nothing: `x > NULL` is never true. */
  lemma NullThresholdFetchesNothing(store: seq<StoreEntry>)
    ensures FetchNewProfiles(store, None) == []
  {
  }

  /**
   * A threshold no earlier than every matching creation date selects nothing;
   * this is why a repeated poll over an unchanged store comes back empty.
   */
  lemma NothingAfterLatest(store: seq<StoreEntry>, t: DateTime, latest: DateTime)
    requires forall i :: 0 <= i < |store| && Matches(store[i], Some(t)) ==> NotAfter(Created(Joined(store[i]).value), latest)
    requires NotAfter(t, latest)
    ensures FetchNewProfiles(store, Some(latest)) == []
  {
    var f := FetchNewProfiles(store, Some(latest));
    if f != [] {
      FetchNewProfilesSpec(store, Some(latest));
      var i :| 0 <= i < |store| && Matches(store[i], Some(latest)) && Joined(store[i]) == Some(f[0]);
      assert Matches(store[i], Some(t));
    }
  }
}
