/** The home screen's state: the shopping lists, the list being edited, the
    editor's visibility, the user's location and the nearby stores, with the
    handlers that change them. */
module Home {
  import opened Results
  import Seqs
  import opened ListEditor
  import opened Geolocation
  import opened SettingsStore
  import Stores

  datatype ShoppingList = ShoppingList(id: string, title: string, items: seq<ListItem>)

  /** The one list the screen starts with. */
  const InitialLists := [
    ShoppingList("1", "Grocery Shopping", [
      ListItem(None, "Milk", 1, Some("Grocery Store")),
      ListItem(None, "Bread", 2, None),
      ListItem(None, "Eggs", 12, Some("Supermarket"))])]

  /** `lists.filter((list) => list.id !== id)`. */
  function DeleteList(lists: seq<ShoppingList>, id: string): seq<ShoppingList>
  {
    Seqs.Filter(lists, (l: ShoppingList) => l.id != id)
  }

  /** `lists.map((l) => l.id === id ? { ...l, title, items } : l)`. */
  function ReplaceList(lists: seq<ShoppingList>, id: string, draft: ListDraft): seq<ShoppingList>
  {
    Seqs.Map(lists, (l: ShoppingList) => if l.id == id then l.(title := draft.title, items := draft.items) else l)
  }

  /** `[...lists, { id: freshId, title, items }]`. */
  function AppendList(lists: seq<ShoppingList>, freshId: string, draft: ListDraft): seq<ShoppingList>
  {
    lists + [ShoppingList(freshId, draft.title, draft.items)]
  }

  /** `lists.find((l) => l.id === id)`. */
  function FindList(lists: seq<ShoppingList>, id: string): Option<ShoppingList>
  {
    Seqs.Find(lists, (l: ShoppingList) => l.id == id)
  }

  function ItemName(item: ListItem): string
  {
    item.name
  }

  function ListItemNames(l: ShoppingList): seq<string>
  {
    Seqs.Map(l.items, ItemName)
  }

  /** `Array.from(new Set(lists.flatMap((l) => l.items.map((i) => i.name))))`. */
  function AllItemNames(lists: seq<ShoppingList>): seq<string>
  {
    Seqs.Distinct(Seqs.FlatMap(lists, ListItemNames))
  }

  /** Delete removes every list with the id and keeps the others, in order. */
  lemma DeleteListSpec(lists: seq<ShoppingList>, id: string)
    ensures forall i :: 0 <= i < |DeleteList(lists, id)| ==> DeleteList(lists, id)[i].id != id
    ensures forall i :: 0 <= i < |lists| && lists[i].id != id ==> lists[i] in DeleteList(lists, id)
    ensures Seqs.IsSubsequence(DeleteList(lists, id), lists)
    ensures forall l :: multiset(DeleteList(lists, id))[l] == if l.id != id then multiset(lists)[l] else 0
  {
    var keep := (l: ShoppingList) => l.id != id;
    Seqs.FilterIsSubsequence(lists, keep);
    forall l {
      Seqs.FilterMultiplicity(lists, keep, l);
    }
  }

  /** Saving an edit changes only the title and items of the lists with the
      edited id; ids, positions and all other lists stay as they were. */
  lemma ReplaceListSpec(lists: seq<ShoppingList>, id: string, draft: ListDraft)
    ensures |ReplaceList(lists, id, draft)| == |lists|
    ensures forall i :: 0 <= i < |lists| ==> ReplaceList(lists, id, draft)[i].id == lists[i].id
    ensures forall i :: 0 <= i < |lists| && lists[i].id == id ==>
      ReplaceList(lists, id, draft)[i].title == draft.title && ReplaceList(lists, id, draft)[i].items == draft.items
    ensures forall i :: 0 <= i < |lists| && lists[i].id != id ==> ReplaceList(lists, id, draft)[i] == lists[i]
    ensures (forall i :: 0 <= i < |lists| ==> lists[i].id != id) ==> ReplaceList(lists, id, draft) == lists
  {
  }

  /** Saving a new list appends one list with the fresh id after the
      unchanged existing ones. */
  lemma AppendListSpec(lists: seq<ShoppingList>, freshId: string, draft: ListDraft)
    ensures |AppendList(lists, freshId, draft)| == |lists| + 1
    ensures AppendList(lists, freshId, draft)[..|lists|] == lists
    ensures AppendList(lists, freshId, draft)[|lists|] == ShoppingList(freshId, draft.title, draft.items)
  {
  }

  /** Every name in the flattened name list is an item's name. */
  lemma FlatNameHasItem(lists: seq<ShoppingList>, k: int)
    requires 0 <= k < |Seqs.FlatMap(lists, ListItemNames)|
    ensures exists i, j :: 0 <= i < |lists| && 0 <= j < |lists[i].items| && lists[i].items[j].name == Seqs.FlatMap(lists, ListItemNames)[k]
  {
    var name := Seqs.FlatMap(lists, ListItemNames)[k];
    var i :| 0 <= i < |lists| && name in ListItemNames(lists[i]);
    var names := ListItemNames(lists[i]);
    var j :| 0 <= j < |names| && names[j] == name;
    assert lists[i].items[j].name == name;
  }

  /** Every item's name is in the flattened name list. */
  lemma ItemNameIsFlat(lists: seq<ShoppingList>, i: int, j: int)
    requires 0 <= i < |lists| && 0 <= j < |lists[i].items|
    ensures lists[i].items[j].name in Seqs.FlatMap(lists, ListItemNames)
  {
    assert ListItemNames(lists[i])[j] == lists[i].items[j].name;
  }

  /** Every collected name is an item's name. */
  lemma CollectedNameHasItem(lists: seq<ShoppingList>, k: int)
    requires 0 <= k < |AllItemNames(lists)|
    ensures exists i, j :: 0 <= i < |lists| && 0 <= j < |lists[i].items| && lists[i].items[j].name == AllItemNames(lists)[k]
  {
    var all := Seqs.FlatMap(lists, ListItemNames);
    var name := AllItemNames(lists)[k];
    assert name in all;
    var m :| 0 <= m < |all| && all[m] == name;
    FlatNameHasItem(lists, m);
  }

  /** The collected item names hold no duplicates; each is the name of an
      item of some list, and every item's name is among them. */
  lemma AllItemNamesSpec(lists: seq<ShoppingList>)
    ensures Seqs.NoDuplicates(AllItemNames(lists))
    ensures forall k :: 0 <= k < |AllItemNames(lists)| ==>
      exists i, j :: 0 <= i < |lists| && 0 <= j < |lists[i].items| && lists[i].items[j].name == AllItemNames(lists)[k]
    ensures forall i, j :: 0 <= i < |lists| && 0 <= j < |lists[i].items| ==> lists[i].items[j].name in AllItemNames(lists)
  {
    var all := Seqs.FlatMap(lists, ListItemNames);
    var names := AllItemNames(lists);
    Seqs.DistinctSpec(all);
    forall k | 0 <= k < |names|
      ensures exists i, j :: 0 <= i < |lists| && 0 <= j < |lists[i].items| && lists[i].items[j].name == names[k]
    {
      CollectedNameHasItem(lists, k);
    }
    forall i, j | 0 <= i < |lists| && 0 <= j < |lists[i].items|
      ensures lists[i].items[j].name in names
    {
      ItemNameIsFlat(lists, i, j);
    }
  }

  /** The home component's state. */
  class HomeScreen {
    var lists: seq<ShoppingList>
    var showListEditor: bool
    var editingList: Option<ShoppingList>
    var nearbyStores: seq<Stores.Store>
    var userLocation: LocationData

    /** `now` stands for `new Date().toISOString()`. */
    constructor (now: string)
      ensures lists == InitialLists && !showListEditor && editingList == None && nearbyStores == []
      ensures userLocation == LocationData(40.7128, -74.006, 0.0, now)
    {
      lists := InitialLists;
      showListEditor := false;
      editingList := None;
      nearbyStores := [];
      userLocation := LocationData(40.7128, -74.006, 0.0, now);
    }

    /** The `defaultValues` passed to the editor. */
    function EditorDefaultValues(): (d: EditorDefaults)
      reads this
      ensures editingList.None? ==> d == EditorDefaults(Some(""), Some([]))
      ensures editingList.Some? ==> d == EditorDefaults(Some(editingList.value.title), Some(editingList.value.items))
    {
      EditorDefaults(
        Some(if editingList.Some? then editingList.value.title else ""),
        Some(if editingList.Some? then editingList.value.items else []))
    }

    /** `handleCreateList`. */
    method HandleCreateList()
      modifies this
      ensures editingList == None && showListEditor
      ensures lists == old(lists) && nearbyStores == old(nearbyStores) && userLocation == old(userLocation)
    {
      editingList := None;
      showListEditor := true;
    }

    /** `handleEditList`: opens the editor on the first list with the id;
        with no such list nothing changes. */
    method HandleEditList(id: string)
      modifies this
      ensures FindList(old(lists), id).Some? ==> editingList == FindList(old(lists), id) && showListEditor
      ensures FindList(old(lists), id).None? ==> editingList == old(editingList) && showListEditor == old(showListEditor)
      ensures lists == old(lists) && nearbyStores == old(nearbyStores) && userLocation == old(userLocation)
    {
      var found := FindList(lists, id);
      if found.Some? {
        editingList := found;
        showListEditor := true;
      }
    }

    /** `handleDeleteList`. */
    method HandleDeleteList(id: string)
      modifies this
      ensures lists == DeleteList(old(lists), id)
      ensures editingList == old(editingList) && showListEditor == old(showListEditor)
      ensures nearbyStores == old(nearbyStores) && userLocation == old(userLocation)
    {
      lists := DeleteList(lists, id);
    }

    /** `handleSaveList`: replaces the edited list's title and items, or
        appends a new list with `freshId` (standing for
        `Date.now().toString()`); then closes the editor. */
    method HandleSaveList(draft: ListDraft, freshId: string)
      modifies this
      ensures old(editingList).Some? ==> lists == ReplaceList(old(lists), old(editingList).value.id, draft)
      ensures old(editingList).None? ==> lists == AppendList(old(lists), freshId, draft)
      ensures !showListEditor && editingList == None
      ensures nearbyStores == old(nearbyStores) && userLocation == old(userLocation)
    {
      if editingList.Some? {
        lists := ReplaceList(lists, editingList.value.id, draft);
      } else {
        lists := AppendList(lists, freshId, draft);
      }
      showListEditor := false;
      editingList := None;
    }

    /** The editor's save button wired to this screen: the editor's title and
        items reach `handleSaveList`, then `onOpenChange(false)` closes it. */
    method SaveFromEditor(editor: Editor, freshId: string)
      modifies this
      ensures var draft := ListDraft(editor.title, editor.items);
        && (old(editingList).Some? ==> lists == ReplaceList(old(lists), old(editingList).value.id, draft))
        && (old(editingList).None? ==> lists == AppendList(old(lists), freshId, draft))
      ensures !showListEditor && editingList == None
      ensures nearbyStores == old(nearbyStores) && userLocation == old(userLocation)
    {
      var draft, open := editor.HandleSave();
      HandleSaveList(draft, freshId);
      showListEditor := open;
    }

    /** `handleLocationUpdate`: the location is taken only while location
        sharing is on. */
    method HandleLocationUpdate(settings: SettingsService, location: LocationData)
      modifies this
      ensures Observed(settings.storage).locationSharing ==> userLocation == location
      ensures !Observed(settings.storage).locationSharing ==> userLocation == old(userLocation)
      ensures lists == old(lists) && nearbyStores == old(nearbyStores)
      ensures editingList == old(editingList) && showListEditor == old(showListEditor)
    {
      var current := settings.GetSettings();
      if current.locationSharing {
        userLocation := location;
      }
    }

    /** `fetchStores`: with location sharing off no query is made and the
        stores shown stay as they were; otherwise the stores near the user's
        location within the search radius that stock one of the names on any
        list. `queried` says whether the store service was asked. */
    method FetchStores(settings: SettingsService, dist: Stores.Distance) returns (queried: bool)
      modifies this
      ensures queried == Observed(settings.storage).locationSharing
      ensures !queried ==> nearbyStores == old(nearbyStores)
      ensures queried ==> nearbyStores == Stores.GetNearbyStores(userLocation,
        Some(Observed(settings.storage).searchRadius), Some(AllItemNames(lists)), dist)
      ensures lists == old(lists) && userLocation == old(userLocation)
      ensures editingList == old(editingList) && showListEditor == old(showListEditor)
    {
      var current := settings.GetSettings();
      if !current.locationSharing {
        return false;
      }
      var allItems := AllItemNames(lists);
      nearbyStores := Stores.GetNearbyStores(userLocation, Some(current.searchRadius), Some(allItems), dist);
      queried := true;
    }
  }
}
