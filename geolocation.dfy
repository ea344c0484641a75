/** The geolocation service: the browser's geolocation and permission APIs
    reached through an oracle (`Navigator`), the bookkeeping of the one active
    watch, and the conversion of platform positions and errors. */
module Geolocation {
  import opened Results

  datatype LocationData = LocationData(latitude: real, longitude: real, accuracy: real, timestamp: string)

  datatype GeolocationError = GeolocationError(code: int, message: string)

  /** What the platform delivers: a position (its timestamp in epoch
      milliseconds) or a `GeolocationPositionError`. */
  datatype Coordinates = Coordinates(latitude: real, longitude: real, accuracy: real)
  datatype Position = Position(coords: Coordinates, timestamp: int)
  datatype PositionError = PositionError(code: int, message: string)

  const UnsupportedMessage := "Geolocation is not supported by this browser."
  const UnsupportedError := GeolocationError(-1, UnsupportedMessage)
  const UnknownErrorMessage := "Unknown location error"

  /** The fixed message of each platform error code. */
  const ErrorMessages: map<int, string> := map[
    1 := "Location access denied. Please enable location services.",
    2 := "Location unavailable. Please try again.",
    3 := "Location request timed out. Please try again."]

  /** `formatError`: the code is kept, the platform's own message is replaced
      by the fixed one for the code, or the unknown-error message. */
  function FormatError(error: PositionError): GeolocationError
  {
    var known := if error.code in ErrorMessages then ErrorMessages[error.code] else "";
    GeolocationError(error.code, if known != "" then known else UnknownErrorMessage)
  }

  /** The mapping is total, keeps the code, ignores the platform message, and
      gives a message of its own exactly to the codes 1, 2 and 3. */
  lemma FormatErrorSpec(error: PositionError)
    ensures FormatError(error).code == error.code
    ensures FormatError(error) == FormatError(PositionError(error.code, ""))
    ensures 1 <= error.code <= 3 ==> FormatError(error).message == ErrorMessages[error.code]
    ensures FormatError(error).message == UnknownErrorMessage <==> !(1 <= error.code <= 3)
  {
  }

  /** The three known errors are told apart by message, and none of the
      formatted errors is mistaken for the unsupported-platform error. */
  lemma FormatErrorDistinguishes(e1: PositionError, e2: PositionError)
    ensures 1 <= e1.code <= 3 && 1 <= e2.code <= 3 && e1.code != e2.code ==> FormatError(e1).message != FormatError(e2).message
    ensures FormatError(e1).message != UnsupportedMessage
  {
  }

  /** `formatPosition`: the coordinates are copied; `toIso` stands for
      `new Date(ms).toISOString()`. */
  function FormatPosition(position: Position, toIso: int -> string): (l: LocationData)
    ensures l.latitude == position.coords.latitude
    ensures l.longitude == position.coords.longitude
    ensures l.accuracy == position.coords.accuracy
    ensures l.timestamp == toIso(position.timestamp)
  {
    LocationData(position.coords.latitude, position.coords.longitude, position.coords.accuracy, toIso(position.timestamp))
  }

  datatype PermissionState = Granted | Prompt | Denied

  /** The outcome of `navigator.permissions.query`. */
  datatype PermissionQuery = QueryThrew | QueryResult(state: PermissionState)

  /** `requestPermission`'s decision. */
  function RequestPermission(supported: bool, query: PermissionQuery): (granted: bool)
    ensures granted <==> supported && query.QueryResult? && query.state != Denied
    ensures !supported || query.QueryThrew? ==> !granted
  {
    if !supported then false
    else
      match query
      case QueryThrew => false
      case QueryResult(state) => state != Denied
  }

  /** How `getCurrentLocation` rejects: a plain `Error` when the platform has
      no geolocation, a formatted error when the platform reports one. */
  datatype LocationFailure = NotSupported(message: string) | Failed(error: GeolocationError)

  /** What the platform's `getCurrentPosition` calls back with. */
  datatype PositionOutcome = Located(position: Position) | Failure(error: PositionError)

  /** `getCurrentLocation`. */
  function GetCurrentLocation(supported: bool, outcome: PositionOutcome, toIso: int -> string): (r: Result<LocationData, LocationFailure>)
    ensures !supported ==> r == Err(NotSupported(UnsupportedMessage))
    ensures supported && outcome.Located? ==> r == Ok(FormatPosition(outcome.position, toIso))
    ensures supported && outcome.Failure? ==> r == Err(Failed(FormatError(outcome.error)))
  {
    if !supported then Err(NotSupported(UnsupportedMessage))
    else
      match outcome
      case Located(p) => Ok(FormatPosition(p, toIso))
      case Failure(e) => Err(Failed(FormatError(e)))
  }

  /** The browser as the service sees it: whether it has geolocation, the ids
      `watchPosition` hands out, the watches still running and the log of
      `clearWatch` calls. */
  class Navigator {
    const supportsGeolocation: bool
    var nextWatchId: int
    var activeWatches: set<int>
    var clearedWatches: seq<int>

    constructor (supported: bool, firstId: int)
      ensures supportsGeolocation == supported && nextWatchId == firstId
      ensures activeWatches == {} && clearedWatches == []
    {
      supportsGeolocation := supported;
      nextWatchId := firstId;
      activeWatches := {};
      clearedWatches := [];
    }

    /** `navigator.geolocation.watchPosition`; it exists only where the
        platform has geolocation. */
    method WatchPosition() returns (id: int)
      requires supportsGeolocation
      modifies this
      ensures id == old(nextWatchId) && nextWatchId == old(nextWatchId) + 1
      ensures activeWatches == old(activeWatches) + {id}
      ensures clearedWatches == old(clearedWatches)
    {
      id := nextWatchId;
      nextWatchId := nextWatchId + 1;
      activeWatches := activeWatches + {id};
    }

    /** `navigator.geolocation.clearWatch`. */
    method ClearWatch(id: int)
      requires supportsGeolocation
      modifies this
      ensures activeWatches == old(activeWatches) - {id}
      ensures clearedWatches == old(clearedWatches) + [id]
      ensures nextWatchId == old(nextWatchId)
    {
      activeWatches := activeWatches - {id};
      clearedWatches := clearedWatches + [id];
    }
  }

  class GeolocationService {
    /** The id of the watch started last, or none after a stop. */
    var watchId: Option<int>

    constructor ()
      ensures watchId == None
    {
      watchId := None;
    }

    /** `startWatching`. Where the platform has no geolocation, `onError` (when
        the caller gave one) is called once, synchronously, with code -1 and
        nothing else happens; `reported` is that call. Otherwise a platform
        watch is started and its id recorded, overwriting a previous id
        without clearing that watch. */
    method StartWatching(nav: Navigator, hasOnError: bool) returns (reported: Option<GeolocationError>)
      modifies this, nav
      ensures !nav.supportsGeolocation ==>
        && reported == (if hasOnError then Some(UnsupportedError) else None)
        && watchId == old(watchId)
        && unchanged(nav)
      ensures nav.supportsGeolocation ==>
        && reported == None
        && watchId == Some(old(nav.nextWatchId))
        && nav.nextWatchId == old(nav.nextWatchId) + 1
        && nav.activeWatches == old(nav.activeWatches) + {old(nav.nextWatchId)}
        && nav.clearedWatches == old(nav.clearedWatches)
    {
      if !nav.supportsGeolocation {
        reported := if hasOnError then Some(UnsupportedError) else None;
        return;
      }
      reported := None;
      var id := nav.WatchPosition();
      watchId := Some(id);
    }

    /** `stopWatching`: clears the recorded watch, and only that one, when
        there is one; afterwards no id is recorded. A second call does
        nothing. */
    method StopWatching(nav: Navigator)
      requires watchId.Some? ==> nav.supportsGeolocation
      modifies this, nav
      ensures watchId == None
      ensures old(watchId).None? ==> unchanged(nav)
      ensures old(watchId).Some? ==>
        && nav.activeWatches == old(nav.activeWatches) - {old(watchId).value}
        && nav.clearedWatches == old(nav.clearedWatches) + [old(watchId).value]
        && nav.nextWatchId == old(nav.nextWatchId)
    {
      if watchId.Some? {
        nav.ClearWatch(watchId.value);
        watchId := None;
      }
    }
  }

  /** A caller's view: starting twice and then stopping twice (the second
      stop does nothing) leaves the first platform watch running, because the
      second start overwrote its id; only the second id is ever cleared. */
  method RestartThenStop(service: GeolocationService, nav: Navigator)
    requires nav.supportsGeolocation
    modifies service, nav
    ensures service.watchId == None
    ensures old(nav.nextWatchId) in nav.activeWatches
    ensures nav.clearedWatches == old(nav.clearedWatches) + [old(nav.nextWatchId) + 1]
  {
    var _ := service.StartWatching(nav, true);
    var _ := service.StartWatching(nav, true);
    service.StopWatching(nav);
    service.StopWatching(nav);
  }
}
