/** The nearby-store query over the fixed store catalog: every store is
    copied with a freshly computed distance from the user's location, then
    kept when it lies within the radius and, when item names are given,
    stocks one of them. */
module Stores {
  import opened Results
  import Seqs
  import Ascii
  import opened Geolocation

  datatype StockItem = StockItem(name: string, inStock: bool, price: Option<real>)

  datatype Store = Store(
    id: string,
    name: string,
    address: string,
    latitude: real,
    longitude: real,
    distance: int,   // metres
    availableItems: seq<StockItem>)

  /** `MOCK_STORES`. */
  const MockStores: seq<Store> := [
    Store("1", "Grocery Store", "123 Main St", 40.7128, -74.006, 50, [
      StockItem("Milk", true, Some(3.99)),
      StockItem("Bread", true, Some(2.49)),
      StockItem("Eggs", false, None)]),
    Store("2", "Supermarket", "456 Oak Ave", 40.7138, -74.007, 75, [
      StockItem("Coffee", true, Some(8.99)),
      StockItem("Tea", true, Some(4.99)),
      StockItem("Sugar", true, Some(2.99))])]

  const DefaultRadius: real := 100.0

  /** `Math.round(calculateDistance(lat1, lon1, lat2, lon2))`: the haversine
      distance in whole metres, left abstract. */
  type Distance = (real, real, real, real) -> int

  /** The catalog entry with its distance recomputed from `location`. */
  function Annotate(location: LocationData, dist: Distance, store: Store): Store
  {
    store.(distance := dist(location.latitude, location.longitude, store.latitude, store.longitude))
  }

  /** `storeItem.name.toLowerCase() === item.toLowerCase() && storeItem.inStock`. */
  predicate ItemMatches(item: string, storeItem: StockItem)
  {
    Ascii.Lower(storeItem.name) == Ascii.Lower(item) && storeItem.inStock
  }

  /** The filter callback of `getNearbyStores`. */
  predicate Retained(radius: real, items: Option<seq<string>>, store: Store)
  {
    if store.distance as real > radius then false
    else if items.Some? && |items.value| > 0 then
      Seqs.Any(items.value, (item: string) =>
        Seqs.Any(store.availableItems, (storeItem: StockItem) => ItemMatches(item, storeItem)))
    else true
  }

  /** Some requested name equals, lower-cased, the lower-cased name of an
      in-stock item of `store`. */
  ghost predicate StocksSomeOf(store: Store, items: seq<string>)
  {
    exists i, j :: 0 <= i < |items| && 0 <= j < |store.availableItems|
      && Ascii.Lower(items[i]) == Ascii.Lower(store.availableItems[j].name)
      && store.availableItems[j].inStock
  }

  /** `getNearbyStores` over an arbitrary catalog, with the radius already
      defaulted. */
  function NearbyStores(catalog: seq<Store>, location: LocationData, radius: real, items: Option<seq<string>>, dist: Distance): seq<Store>
  {
    Seqs.Filter(
      Seqs.Map(catalog, (store: Store) => Annotate(location, dist, store)),
      (store: Store) => Retained(radius, items, store))
  }

  /** `storeService.getNearbyStores(location, radius?, items?)`. */
  function GetNearbyStores(location: LocationData, radius: Option<real>, items: Option<seq<string>>, dist: Distance): seq<Store>
  {
    NearbyStores(MockStores, location, radius.GetOr(DefaultRadius), items, dist)
  }

  /** `storeService.getStoreDetails(id)`: the catalog entry as stored, with
      its catalog distance, or none. */
  function GetStoreDetails(id: string): Option<Store>
  {
    Seqs.Find(MockStores, (s: Store) => s.id == id)
  }

  /** The comparison ignores case on both sides: lower-casing a requested
      name first changes nothing, and names that differ only in case are
      matched alike. */
  lemma MatchIgnoresCase(item: string, other: string, storeItem: StockItem)
    requires Ascii.Lower(item) == Ascii.Lower(other)
    ensures ItemMatches(Ascii.Lower(item), storeItem) == ItemMatches(item, storeItem)
    ensures ItemMatches(other, storeItem) == ItemMatches(item, storeItem)
  {
    Ascii.LowerSpec(item);
  }

  /** The filter's decision: distance at most the radius (a store exactly at
      the radius is kept) and, when a non-empty item list is given, some
      requested name matches an in-stock item case-insensitively. */
  lemma {:induction false} RetainedIff(radius: real, items: Option<seq<string>>, store: Store)
    ensures Retained(radius, items, store) <==>
      && store.distance as real <= radius
      && (items.None? || |items.value| == 0 || StocksSomeOf(store, items.value))
  {
    if store.distance as real <= radius && items.Some? && |items.value| > 0 {
      var wanted := items.value;
      var inner := (item: string) => Seqs.Any(store.availableItems, (storeItem: StockItem) => ItemMatches(item, storeItem));
      if Seqs.Any(wanted, inner) {
        var i :| 0 <= i < |wanted| && inner(wanted[i]);
        var j :| 0 <= j < |store.availableItems| && ItemMatches(wanted[i], store.availableItems[j]);
        assert StocksSomeOf(store, wanted);
      }
      if StocksSomeOf(store, wanted) {
        var i, j :| 0 <= i < |wanted| && 0 <= j < |store.availableItems|
          && Ascii.Lower(wanted[i]) == Ascii.Lower(store.availableItems[j].name)
          && store.availableItems[j].inStock;
        assert ItemMatches(wanted[i], store.availableItems[j]);
        assert inner(wanted[i]);
      }
    }
  }

  /** Soundness: every returned store is a catalog entry with only its
      distance replaced by the computed one, lies within the radius and
      passes the item filter. */
  lemma NearbySound(catalog: seq<Store>, location: LocationData, radius: real, items: Option<seq<string>>, dist: Distance, r: Store)
    requires r in NearbyStores(catalog, location, radius, items, dist)
    ensures exists i :: 0 <= i < |catalog| && r == Annotate(location, dist, catalog[i])
    ensures r.distance == dist(location.latitude, location.longitude, r.latitude, r.longitude)
    ensures r.distance as real <= radius
    ensures items.None? || |items.value| == 0 || StocksSomeOf(r, items.value)
  {
    var annotated := Seqs.Map(catalog, (store: Store) => Annotate(location, dist, store));
    var k :| 0 <= k < |annotated| && annotated[k] == r;
    assert r == Annotate(location, dist, catalog[k]);
    RetainedIff(radius, items, r);
  }

  /** Completeness: every catalog store whose computed distance is within the
      radius and that passes the item filter is returned; with no item list,
      or an empty one, that is every store within the radius. */
  lemma NearbyComplete(catalog: seq<Store>, location: LocationData, radius: real, items: Option<seq<string>>, dist: Distance, i: int)
    requires 0 <= i < |catalog|
    requires Annotate(location, dist, catalog[i]).distance as real <= radius
    requires items.None? || |items.value| == 0 || StocksSomeOf(catalog[i], items.value)
    ensures Annotate(location, dist, catalog[i]) in NearbyStores(catalog, location, radius, items, dist)
  {
    var annotated := Seqs.Map(catalog, (store: Store) => Annotate(location, dist, store));
    RetainedIff(radius, items, annotated[i]);
    assert annotated[i].availableItems == catalog[i].availableItems;
  }

  /** Order: the result is a subsequence of the catalog (annotated), the
      catalog order kept and nothing sorted. */
  lemma NearbyInCatalogOrder(catalog: seq<Store>, location: LocationData, radius: real, items: Option<seq<string>>, dist: Distance)
    ensures Seqs.IsSubsequence(NearbyStores(catalog, location, radius, items, dist),
                               Seqs.Map(catalog, (store: Store) => Annotate(location, dist, store)))
  {
    Seqs.FilterIsSubsequence(
      Seqs.Map(catalog, (store: Store) => Annotate(location, dist, store)),
      (store: Store) => Retained(radius, items, store));
  }

  /** With no radius given the query uses 100 metres. */
  lemma DefaultRadiusIs100(location: LocationData, items: Option<seq<string>>, dist: Distance)
    ensures GetNearbyStores(location, None, items, dist) == GetNearbyStores(location, Some(100.0), items, dist)
  {
  }

  /** No catalog store has an in-stock item called "eggs" in any case. */
  lemma NoCatalogStoreStocksEggs(k: int)
    requires 0 <= k < |MockStores|
    ensures !StocksSomeOf(MockStores[k], ["eggs"])
  {
    var avail := MockStores[k].availableItems;
    LowerFirst("eggs");
    forall j | 0 <= j < |avail| && avail[j].inStock
      ensures Ascii.Lower(avail[j].name) != Ascii.Lower("eggs")
    {
      LowerFirst(avail[j].name);
    }
  }

  /** Eggs are listed only at a store that has none in stock, so asking for
      eggs never finds a store, wherever the user is and whatever the radius. */
  lemma EggsAreNeverFound(location: LocationData, radius: Option<real>, dist: Distance)
    ensures GetNearbyStores(location, radius, Some(["eggs"]), dist) == []
  {
    var found := GetNearbyStores(location, radius, Some(["eggs"]), dist);
    if found != [] {
      NearbySound(MockStores, location, radius.GetOr(DefaultRadius), Some(["eggs"]), dist, found[0]);
      var i :| 0 <= i < |MockStores| && found[0] == Annotate(location, dist, MockStores[i]);
      NoCatalogStoreStocksEggs(i);
      assert false;
    }
  }

  /** With no item list, a query that finds the first catalog store within
      the radius and the second beyond it returns exactly the first, carrying
      its computed distance. */
  lemma OnlyStoreWithinRadiusReturned(location: LocationData, radius: real, dist: Distance)
    requires Annotate(location, dist, MockStores[0]).distance as real <= radius
    requires Annotate(location, dist, MockStores[1]).distance as real > radius
    ensures GetNearbyStores(location, Some(radius), None, dist) == [Annotate(location, dist, MockStores[0])]
  {
    var annotated := Seqs.Map(MockStores, (store: Store) => Annotate(location, dist, store));
    var keep := (store: Store) => Retained(radius, None, store);
    assert annotated == [Annotate(location, dist, MockStores[0]), Annotate(location, dist, MockStores[1])];
    assert keep(annotated[0]) && !keep(annotated[1]);
    assert annotated[1..][1..] == [];
    assert Seqs.Filter(annotated[1..], keep) == [];
  }

  /** Names are compared case-insensitively: asking for "MILK" finds the
      first catalog store whenever it lies within the radius. */
  lemma MilkFoundInAnyCase(location: LocationData, radius: real, dist: Distance)
    requires Annotate(location, dist, MockStores[0]).distance as real <= radius
    ensures Annotate(location, dist, MockStores[0]) in GetNearbyStores(location, Some(radius), Some(["MILK"]), dist)
  {
    var milk := MockStores[0].availableItems[0];
    assert Ascii.Lower("MILK") == Ascii.Lower(milk.name) by {
      assert Ascii.Lower("MILK") == "milk";
      assert Ascii.Lower("Milk") == "milk";
    }
    var wanted := ["MILK"];
    assert Ascii.Lower(wanted[0]) == Ascii.Lower(MockStores[0].availableItems[0].name);
    assert StocksSomeOf(MockStores[0], wanted);
    NearbyComplete(MockStores, location, radius, Some(["MILK"]), dist, 0);
  }

  /** The first character of a lower-cased string. */
  lemma LowerFirst(s: string)
    requires |s| > 0
    ensures |Ascii.Lower(s)| > 0 && Ascii.Lower(s)[0] == Ascii.LowerChar(s[0])
  {
  }

  /** `getStoreDetails` returns the first catalog entry with the id, as
      stored, or none when no entry has it. */
  lemma StoreDetailsSpec(id: string)
    ensures GetStoreDetails(id).Some? ==>
      exists i :: Seqs.IsFirstMatch(MockStores, (s: Store) => s.id == id, i) && MockStores[i] == GetStoreDetails(id).value
    ensures GetStoreDetails(id).None? <==> forall i :: 0 <= i < |MockStores| ==> MockStores[i].id != id
  {
  }

  /** The two catalog ids. */
  lemma StoreDetailsOfCatalog()
    ensures GetStoreDetails("1") == Some(MockStores[0])
    ensures GetStoreDetails("2") == Some(MockStores[1])
    ensures GetStoreDetails("3") == None
  {
    assert MockStores[0].id == "1" && MockStores[1].id == "2";
  }
}
