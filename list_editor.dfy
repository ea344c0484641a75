/** The list editor dialog: a title, the items being edited and whether the
    add-item form is open; items are appended with a fresh id, removed by id,
    and the whole list is handed to the caller on save. */
module ListEditor {
  import opened Results
  import Seqs

  /** A list item. `id` is absent for items that never passed through the
      editor; `store` is the preferred store. */
  datatype ListItem = ListItem(id: Option<string>, name: string, quantity: int, store: Option<string>)

  /** What the item form submits. */
  datatype ItemDraft = ItemDraft(name: string, quantity: int, storePreference: Option<string>)

  /** What `onSave` receives. */
  datatype ListDraft = ListDraft(title: string, items: seq<ListItem>)

  /** The `defaultValues` prop; an absent title is taken as the empty one. */
  datatype EditorDefaults = EditorDefaults(title: Option<string>, items: Option<seq<ListItem>>)

  /** The value `defaultValues` takes when the prop is not passed at all. */
  const FallbackDefaults := EditorDefaults(Some(""), Some([
    ListItem(Some("1"), "Milk", 1, Some("grocery")),
    ListItem(Some("2"), "Bread", 2, None),
    ListItem(Some("3"), "Eggs", 12, Some("supermarket"))]))

  function ResolveDefaults(defaults: Option<EditorDefaults>): EditorDefaults
  {
    defaults.GetOr(FallbackDefaults)
  }

  /** `defaultValues.items || []`. */
  function InitialItems(defaults: EditorDefaults): (r: seq<ListItem>)
    ensures defaults.items.None? ==> r == []
    ensures defaults.items.Some? ==> r == defaults.items.value
  {
    defaults.items.GetOr([])
  }

  /** `[...items, { id: fresh, ...item }]`. */
  function AddItem(items: seq<ListItem>, draft: ItemDraft, freshId: string): seq<ListItem>
  {
    items + [ListItem(Some(freshId), draft.name, draft.quantity, draft.storePreference)]
  }

  /** `items.filter((item) => item.id !== id)`. */
  function RemoveItem(items: seq<ListItem>, id: Option<string>): seq<ListItem>
  {
    Seqs.Filter(items, (item: ListItem) => item.id != id)
  }

  /** The save button is enabled unless the title is empty or there are no
      items. */
  function SaveEnabled(title: string, items: seq<ListItem>): (enabled: bool)
    ensures enabled <==> title != "" && |items| > 0
  {
    !(title == "" || |items| == 0)
  }

  /** The store recommendations panel is shown when there are items. */
  function ShowsRecommendations(items: seq<ListItem>): bool
  {
    |items| > 0
  }

  /** Adding appends exactly one item, carrying the draft's fields and the
      fresh id, after the unchanged existing items. */
  lemma AddItemSpec(items: seq<ListItem>, draft: ItemDraft, freshId: string)
    ensures |AddItem(items, draft, freshId)| == |items| + 1
    ensures AddItem(items, draft, freshId)[..|items|] == items
    ensures var added := AddItem(items, draft, freshId)[|items|];
      && added.id == Some(freshId) && added.name == draft.name
      && added.quantity == draft.quantity && added.store == draft.storePreference
  {
  }

  /** Removing drops every item with the id and no other: the rest keep
      their order and their number of copies. Since items from outside the
      editor have no id, removing one of them removes all of them. */
  lemma RemoveItemSpec(items: seq<ListItem>, id: Option<string>)
    ensures forall i :: 0 <= i < |RemoveItem(items, id)| ==> RemoveItem(items, id)[i].id != id
    ensures Seqs.IsSubsequence(RemoveItem(items, id), items)
    ensures forall x :: multiset(RemoveItem(items, id))[x] == if x.id != id then multiset(items)[x] else 0
    ensures (forall i :: 0 <= i < |items| ==> items[i].id != id) ==> RemoveItem(items, id) == items
  {
    var keep := (item: ListItem) => item.id != id;
    Seqs.FilterIsSubsequence(items, keep);
    forall x {
      Seqs.FilterMultiplicity(items, keep, x);
    }
    if forall i :: 0 <= i < |items| ==> items[i].id != id {
      Seqs.FilterAllPass(items, keep);
    }
  }

  /** Whenever saving is possible the recommendations are on screen. */
  lemma SaveEnabledShowsRecommendations(title: string, items: seq<ListItem>)
    ensures SaveEnabled(title, items) ==> ShowsRecommendations(items)
  {
  }

  class Editor {
    var title: string
    var items: seq<ListItem>
    var showItemForm: bool

    /** The component's initial state, from `defaultValues` (or its own
        fallback when the prop is not passed). */
    constructor (defaults: Option<EditorDefaults>)
      ensures title == ResolveDefaults(defaults).title.GetOr("")
      ensures items == InitialItems(ResolveDefaults(defaults))
      ensures !showItemForm
    {
      var d := ResolveDefaults(defaults);
      title := d.title.GetOr("");
      items := InitialItems(d);
      showItemForm := false;
    }

    /** Typing in the title field. */
    method SetTitle(t: string)
      modifies this
      ensures title == t && items == old(items) && showItemForm == old(showItemForm)
    {
      title := t;
    }

    /** The "Add Item" button. */
    method OpenItemForm()
      modifies this
      ensures showItemForm && title == old(title) && items == old(items)
    {
      showItemForm := true;
    }

    /** `handleAddItem`: `freshId` stands for `Date.now().toString()`. */
    method HandleAddItem(draft: ItemDraft, freshId: string)
      modifies this
      ensures items == AddItem(old(items), draft, freshId)
      ensures !showItemForm && title == old(title)
    {
      items := AddItem(items, draft, freshId);
      showItemForm := false;
    }

    /** `handleRemoveItem`. */
    method HandleRemoveItem(id: Option<string>)
      modifies this
      ensures items == RemoveItem(old(items), id)
      ensures title == old(title) && showItemForm == old(showItemForm)
    {
      items := RemoveItem(items, id);
    }

    /** `handleSave`: hands the current title and items to `onSave` unchanged
        and then asks the parent to close the dialog (`open` is the value
        passed to `onOpenChange`). The editor's own state is untouched. */
    method HandleSave() returns (saved: ListDraft, open: bool)
      ensures saved.title == title && saved.items == items
      ensures !open
    {
      saved := ListDraft(title, items);
      open := false;
    }
  }
}
