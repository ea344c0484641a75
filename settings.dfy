/** The preferences store: one `Settings` record kept in browser storage under
    a single key, read with a fallback to the defaults, updated by a shallow
    merge and reset to the defaults. */
module SettingsStore {
  import opened Results

  datatype Accuracy = High | Balanced | Low

  datatype Notifications = Notifications(newStores: bool, itemAvailability: bool, priceAlerts: bool)

  datatype Settings = Settings(
    locationSharing: bool,
    locationAccuracy: Accuracy,
    notifications: Notifications,
    searchRadius: real)   // metres; never validated

  const DefaultSettings := Settings(true, Balanced, Notifications(true, true, false), 100.0)

  /** `Partial<Settings>`: `None` is a key absent from the object. */
  datatype SettingsPatch = SettingsPatch(
    locationSharing: Option<bool>,
    locationAccuracy: Option<Accuracy>,
    notifications: Option<Notifications>,
    searchRadius: Option<real>)

  const EmptyPatch := SettingsPatch(None, None, None, None)

  /** The patch that supplies every field of `s`, as when a whole `Settings`
      object is passed where a `Partial<Settings>` is expected. */
  function Whole(s: Settings): SettingsPatch
  {
    SettingsPatch(Some(s.locationSharing), Some(s.locationAccuracy), Some(s.notifications), Some(s.searchRadius))
  }

  /** `{ ...current, ...patch }`. */
  function Merge(current: Settings, patch: SettingsPatch): Settings
  {
    Settings(
      patch.locationSharing.GetOr(current.locationSharing),
      patch.locationAccuracy.GetOr(current.locationAccuracy),
      patch.notifications.GetOr(current.notifications),
      patch.searchRadius.GetOr(current.searchRadius))
  }

  /** A patch laid over another: `{ ...p, ...q }`. */
  function Overlay(p: SettingsPatch, q: SettingsPatch): SettingsPatch
  {
    SettingsPatch(
      if q.locationSharing.Some? then q.locationSharing else p.locationSharing,
      if q.locationAccuracy.Some? then q.locationAccuracy else p.locationAccuracy,
      if q.notifications.Some? then q.notifications else p.notifications,
      if q.searchRadius.Some? then q.searchRadius else p.searchRadius)
  }

  /** The storage cell under the settings key. JSON text is not modelled:
      `Malformed` is any stored string that `JSON.parse` rejects. */
  datatype StoredValue = Absent | Empty | Malformed | Stored(settings: Settings)

  /** What `getSettings` observes in a cell. */
  function Observed(cell: StoredValue): Settings
  {
    if cell.Stored? then cell.settings else DefaultSettings
  }

  /** Every supplied field overrides, every absent field keeps its current
      value; in particular a supplied `notifications` object replaces the old
      one whole (the merge is shallow). */
  lemma MergeFields(current: Settings, patch: SettingsPatch)
    ensures Merge(current, patch).locationSharing == if patch.locationSharing.Some? then patch.locationSharing.value else current.locationSharing
    ensures Merge(current, patch).locationAccuracy == if patch.locationAccuracy.Some? then patch.locationAccuracy.value else current.locationAccuracy
    ensures Merge(current, patch).notifications == if patch.notifications.Some? then patch.notifications.value else current.notifications
    ensures Merge(current, patch).searchRadius == if patch.searchRadius.Some? then patch.searchRadius.value else current.searchRadius
  {
  }

  /** Only supplied fields can change. */
  lemma MergeChangesOnlySupplied(current: Settings, patch: SettingsPatch)
    ensures Merge(current, patch).locationSharing != current.locationSharing ==> patch.locationSharing.Some?
    ensures Merge(current, patch).locationAccuracy != current.locationAccuracy ==> patch.locationAccuracy.Some?
    ensures Merge(current, patch).notifications != current.notifications ==> patch.notifications.Some?
    ensures Merge(current, patch).searchRadius != current.searchRadius ==> patch.searchRadius.Some?
  {
  }

  /** `updateSettings({})` and re-applying the current value change nothing;
      a whole patch replaces everything. */
  lemma MergeIdentities(current: Settings, s: Settings)
    ensures Merge(current, EmptyPatch) == current
    ensures Merge(current, Whole(current)) == current
    ensures Merge(current, Whole(s)) == s
  {
  }

  /** Two successive updates equal one update with the later patch laid over
      the earlier; so repeating an update is idempotent. */
  lemma MergeComposes(current: Settings, p: SettingsPatch, q: SettingsPatch)
    ensures Merge(Merge(current, p), q) == Merge(current, Overlay(p, q))
    ensures Merge(Merge(current, p), p) == Merge(current, p)
  {
  }

  /** The notification keys the settings drawer toggles one at a time. */
  datatype NotificationKey = NewStores | ItemAvailability | PriceAlerts

  function Flag(n: Notifications, key: NotificationKey): bool
  {
    match key
    case NewStores => n.newStores
    case ItemAvailability => n.itemAvailability
    case PriceAlerts => n.priceAlerts
  }

  /** `{ ...settings.notifications, [key]: value }`. */
  function SetFlag(n: Notifications, key: NotificationKey, value: bool): Notifications
  {
    match key
    case NewStores => n.(newStores := value)
    case ItemAvailability => n.(itemAvailability := value)
    case PriceAlerts => n.(priceAlerts := value)
  }

  /** The settings drawer's update of one notification flag. The drawer
      copies the other two flags from its own copy `drawer` of the
      notifications (its React state), not from storage, and the shallow
      merge stores that copy whole: the flag is set, the other two flags are
      the drawer's, and every other setting is kept. Only when the drawer's
      copy is current (`drawer == current.notifications`) are the other two
      stored flags kept; a stale copy overwrites them. */
  lemma ToggleKeepsOtherFlags(current: Settings, drawer: Notifications, key: NotificationKey, value: bool, other: NotificationKey)
    requires other != key
    ensures var r := Merge(current, EmptyPatch.(notifications := Some(SetFlag(drawer, key, value))));
      && Flag(r.notifications, key) == value
      && Flag(r.notifications, other) == Flag(drawer, other)
      && (drawer == current.notifications ==> Flag(r.notifications, other) == Flag(current.notifications, other))
      && r.(notifications := current.notifications) == current
  {
  }

  class SettingsService {
    /** `localStorage` under the key "shopping-list-settings". */
    var storage: StoredValue

    constructor (initial: StoredValue)
      ensures storage == initial
    {
      storage := initial;
    }

    /** Reads the cell; falls back to the defaults when nothing or the empty
        string is stored, or the stored text does not parse. Never writes. */
    method GetSettings() returns (s: Settings)
      ensures storage.Stored? ==> s == storage.settings
      ensures storage.Absent? || storage.Empty? ==> s == DefaultSettings
      ensures storage.Malformed? ==> s == DefaultSettings
      ensures s == Observed(storage)
    {
      match storage
      case Absent =>
        s := DefaultSettings;
      case Empty =>
        s := DefaultSettings;
      case Malformed =>
        s := DefaultSettings;
      case Stored(v) =>
        s := v;
    }

    /** Merges `patch` over the current settings, persists the merge and
        returns it. No field value is validated. */
    method UpdateSettings(patch: SettingsPatch) returns (r: Settings)
      modifies this
      ensures r == Merge(Observed(old(storage)), patch)
      ensures storage == Stored(r)
    {
      var current := GetSettings();
      r := Merge(current, patch);
      storage := Stored(r);
    }

    /** Persists and returns the defaults, whatever was stored. */
    method ResetSettings() returns (r: Settings)
      modifies this
      ensures r == DefaultSettings
      ensures storage == Stored(DefaultSettings)
    {
      storage := Stored(DefaultSettings);
      r := DefaultSettings;
    }
  }

  /** A caller's view: what `updateSettings` returns is what the next
      `getSettings` reads. */
  method UpdateThenGet(service: SettingsService, patch: SettingsPatch) returns (updated: Settings, read: Settings)
    modifies service
    ensures read == updated
    ensures updated == Merge(Observed(old(service.storage)), patch)
  {
    updated := service.UpdateSettings(patch);
    read := service.GetSettings();
  }

  /** A caller's view: `updateSettings(getSettings())` leaves the observed
      settings as they were, although a malformed or missing cell is now
      overwritten with the value it stood for. */
  method ReapplyCurrent(service: SettingsService) returns (read: Settings)
    modifies service
    ensures read == Observed(old(service.storage))
    ensures Observed(service.storage) == Observed(old(service.storage))
    ensures service.storage == Stored(read)
  {
    var current := service.GetSettings();
    var _ := service.UpdateSettings(Whole(current));
    read := service.GetSettings();
  }

  /** A caller's view: after `resetSettings` the next read yields the
      defaults, whatever was stored before. */
  method ResetThenGet(service: SettingsService) returns (read: Settings)
    modifies service
    ensures read == DefaultSettings
  {
    var _ := service.ResetSettings();
    read := service.GetSettings();
  }
}
