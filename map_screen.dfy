/**
 * The map screen: the current-location toggle and its authorisation guard,
 * the stored device location and the region the map shows around it, and the
 * map-side events that push the overlay card down.
 */
module MapScreen {
  import opened Wrappers
  import opened OverlayCard

  /** Latitude and longitude in degrees, compared exactly. */
  datatype Coordinate = Coordinate(latitude: real, longitude: real)

  /** A location delivered by the location manager; only its coordinate is used. */
  datatype Location = Location(coordinate: Coordinate)

  /** A map region: a centre and its north-south and east-west spans in metres. */
  datatype Region = Region(center: Coordinate, latitudinalMeters: real, longitudinalMeters: real)

  /** Both spans of the region the map shows around a location. */
  const REGION_SPAN_METERS: real := 1000.0

  function RegionAround(c: Coordinate): Region {
    Region(c, REGION_SPAN_METERS, REGION_SPAN_METERS)
  }

  /** The region around a coordinate is a square of 1000 m and tells its centre apart from every other. */
  lemma RegionAroundIdentifiesCentre(a: Coordinate, b: Coordinate)
    ensures RegionAround(a).latitudinalMeters == RegionAround(a).longitudinalMeters == 1000.0
    ensures RegionAround(a) == RegionAround(b) <==> a == b
  {
  }

  datatype AuthorizationStatus = NotDetermined | Restricted | Denied | AuthorizedAlways | AuthorizedWhenInUse

  /** Location access is granted for the two authorised statuses and no other. */
  predicate IsAuthorized(status: AuthorizationStatus) {
    status == AuthorizedAlways || status == AuthorizedWhenInUse
  }

  /** The calls the screen makes into the location manager, recorded in order. */
  datatype ManagerCall = StartUpdatingLocation | StopUpdatingLocation | RequestWhenInUseAuthorization

  /** Whether location updates are running after a log of calls: the last start or stop decides. */
  function IsUpdating(calls: seq<ManagerCall>): bool
    decreases |calls|
  {
    if calls == [] then false
    else match calls[|calls| - 1]
      case StartUpdatingLocation => true
      case StopUpdatingLocation => false
      case RequestWhenInUseAuthorization => IsUpdating(calls[..|calls| - 1])
  }

  /** Proof step for the request-flag store: the effect of appending one call to the log. */
  lemma UpdatingAfterCall(calls: seq<ManagerCall>, c: ManagerCall)
    ensures c == StartUpdatingLocation ==> IsUpdating(calls + [c])
    ensures c == StopUpdatingLocation ==> !IsUpdating(calls + [c])
    ensures c == RequestWhenInUseAuthorization ==> IsUpdating(calls + [c]) == IsUpdating(calls)
  {
  }

  /** Reference definition: some start in the log has no stop after it. */
  ghost predicate StartedSinceLastStop(calls: seq<ManagerCall>) {
    exists i :: 0 <= i < |calls| && calls[i] == StartUpdatingLocation &&
      forall j :: i < j < |calls| ==> calls[j] != StopUpdatingLocation
  }

  /** Updates are running exactly when some start has not been followed by a stop. */
  lemma {:induction false} IsUpdatingIffStartedSinceLastStop(calls: seq<ManagerCall>)
    ensures IsUpdating(calls) <==> StartedSinceLastStop(calls)
    decreases |calls|
  {
    if calls != [] {
      var n := |calls|;
      var prefix := calls[..n - 1];
      match calls[n - 1]
      case StartUpdatingLocation =>
        assert calls[n - 1] == StartUpdatingLocation;
      case StopUpdatingLocation =>
      case RequestWhenInUseAuthorization =>
        IsUpdatingIffStartedSinceLastStop(prefix);
        if StartedSinceLastStop(prefix) {
          var i :| 0 <= i < n - 1 && prefix[i] == StartUpdatingLocation &&
            forall j :: i < j < n - 1 ==> prefix[j] != StopUpdatingLocation;
          assert forall j :: i < j < n ==> calls[j] != StopUpdatingLocation by {
            forall j | i < j < n ensures calls[j] != StopUpdatingLocation {
              if j < n - 1 { assert calls[j] == prefix[j]; }
            }
          }
          assert calls[i] == StartUpdatingLocation;
        }
        if StartedSinceLastStop(calls) {
          var i :| 0 <= i < n && calls[i] == StartUpdatingLocation &&
            forall j :: i < j < n ==> calls[j] != StopUpdatingLocation;
          assert i < n - 1;
          assert prefix[i] == StartUpdatingLocation;
          assert forall j :: i < j < n - 1 ==> prefix[j] != StopUpdatingLocation by {
            forall j | i < j < n - 1 ensures prefix[j] != StopUpdatingLocation {
              assert prefix[j] == calls[j];
            }
          }
        }
    }
  }

  /** The one manager call a store to the location-request flag makes. */
  function LocationRequestCall(status: AuthorizationStatus, request: bool): (c: ManagerCall)
    ensures c == RequestWhenInUseAuthorization <==> !IsAuthorized(status)
    ensures IsAuthorized(status) ==> (c == StartUpdatingLocation <==> request)
  {
    if !IsAuthorized(status) then RequestWhenInUseAuthorization
    else if request then StartUpdatingLocation
    else StopUpdatingLocation
  }

  /** System image names of the current-location button. */
  const LOCATION_ICON: string := "location"
  const LOCATION_FILL_ICON: string := "location.fill"

  function IconFor(request: bool): (icon: string)
    ensures icon == "location.fill" <==> request
    ensures icon == "location" <==> !request
  {
    if request then LOCATION_FILL_ICON else LOCATION_ICON
  }

  function Last<T>(s: seq<T>): T
    requires s != []
  {
    s[|s| - 1]
  }

  /** The rule for accepting a new location: latitude and longitude must both have changed. */
  predicate BothCoordinatesDiffer(a: Coordinate, b: Coordinate) {
    a.latitude != b.latitude && a.longitude != b.longitude
  }

  /** The location stored after one batch of updates: the batch's last location, subject to the both-differ rule once one is stored. */
  function StoredAfter(stored: Option<Location>, locations: seq<Location>): (r: Option<Location>)
    ensures locations == [] ==> r == stored
    ensures locations != [] ==> r.Some?
    ensures r == stored || (locations != [] && r == Some(Last(locations)))
    ensures stored.None? && locations != [] ==> r == Some(Last(locations))
    ensures stored.Some? && locations != [] ==>
      (r != stored <==> BothCoordinatesDiffer(stored.value.coordinate, Last(locations).coordinate))
  {
    if locations == [] then stored
    else if stored.Some? then
      if BothCoordinatesDiffer(Last(locations).coordinate, stored.value.coordinate) then Some(Last(locations))
      else stored
    else Some(Last(locations))
  }

  /**
   * A move along one axis only is no move for the both-differ rule: the stored
   * location stays, and only the map is re-centred on it.
   */
  lemma MoveAlongOneAxisIsIgnored(stored: Location, latitude: real, longitude: real)
    ensures !BothCoordinatesDiffer(stored.coordinate, Coordinate(latitude, stored.coordinate.longitude))
    ensures !BothCoordinatesDiffer(stored.coordinate, Coordinate(stored.coordinate.latitude, longitude))
    ensures StoredAfter(Some(stored), [Location(Coordinate(latitude, stored.coordinate.longitude))]) == Some(stored)
    ensures StoredAfter(Some(stored), [Location(Coordinate(stored.coordinate.latitude, longitude))]) == Some(stored)
  {
  }

  /** The location stored after several batches, delivered first to last. */
  function StoredAfterBatches(stored: Option<Location>, batches: seq<seq<Location>>): Option<Location>
    decreases |batches|
  {
    if batches == [] then stored else StoredAfterBatches(StoredAfter(stored, batches[0]), batches[1..])
  }

  /** The stored location is the initial one or the last location of some delivered batch. */
  lemma {:induction false} StoredLocationWasDelivered(stored: Option<Location>, batches: seq<seq<Location>>)
    ensures var r := StoredAfterBatches(stored, batches);
      r == stored || exists i :: 0 <= i < |batches| && batches[i] != [] && r == Some(Last(batches[i]))
    decreases |batches|
  {
    if batches != [] {
      var first := StoredAfter(stored, batches[0]);
      var r := StoredAfterBatches(stored, batches);
      StoredLocationWasDelivered(first, batches[1..]);
      if r == first {
        if first != stored {
          assert batches[0] != [] && r == Some(Last(batches[0]));
        }
      } else {
        var j :| 0 <= j < |batches[1..]| && batches[1..][j] != [] && r == Some(Last(batches[1..][j]));
        assert batches[j + 1] == batches[1..][j];
      }
    }
  }

  /** Once a location has been stored, or any non-empty batch arrives, a location stays stored. */
  lemma {:induction false} StoredLocationIsNeverCleared(stored: Option<Location>, batches: seq<seq<Location>>)
    requires stored.Some? || exists i :: 0 <= i < |batches| && batches[i] != []
    ensures StoredAfterBatches(stored, batches).Some?
    decreases |batches|
  {
    if batches != [] {
      var first := StoredAfter(stored, batches[0]);
      if first.None? {
        var i :| 0 <= i < |batches| && batches[i] != [];
        assert i != 0;
        assert batches[1..][i - 1] == batches[i];
      }
      StoredLocationIsNeverCleared(first, batches[1..]);
    }
  }

  /**
   * The map screen's controller. The location manager is replaced by its
   * authorisation status and a log of the calls made on it; the map view by
   * the region it shows; the current-location button by its icon name.
   */
  class ViewController {
    const overlay: OverlayViewController
    var authorization: AuthorizationStatus
    var managerCalls: seq<ManagerCall>
    var requestCurrentLocation: bool
    var buttonIcon: string
    var location: Option<Location>
    var region: Region

    ghost predicate Valid()
      reads this, overlay
    {
      overlay.Valid()
    }

    constructor (overlay: OverlayViewController, authorization: AuthorizationStatus, buttonIcon: string, region: Region)
      requires overlay.Valid()
      ensures Valid()
      ensures this.overlay == overlay && this.authorization == authorization
      ensures this.buttonIcon == buttonIcon && this.region == region
      ensures managerCalls == [] && !requestCurrentLocation && location == None
    {
      this.overlay := overlay;
      this.authorization := authorization;
      this.buttonIcon := buttonIcon;
      this.region := region;
      managerCalls := [];
      requestCurrentLocation := false;
      location := None;
    }

    /** Reading access: true for an authorised status; otherwise it asks for when-in-use authorisation and is false. */
    method HasLocationAccess() returns (granted: bool)
      modifies this`managerCalls
      ensures granted == IsAuthorized(authorization)
      ensures managerCalls == if granted then old(managerCalls) else old(managerCalls) + [RequestWhenInUseAuthorization]
    {
      match authorization
      case AuthorizedWhenInUse => granted := true;
      case AuthorizedAlways => granted := true;
      case _ =>
        managerCalls := managerCalls + [RequestWhenInUseAuthorization];
        granted := false;
    }

    /**
     * A store to the location-request flag, with its property observer: with
     * access it starts or stops updates and sets the icon; without access it
     * only asks for authorisation. The flag takes the new value either way.
     */
    method SetRequestCurrentLocation(newValue: bool)
      modifies this`managerCalls, this`buttonIcon, this`requestCurrentLocation
      ensures requestCurrentLocation == newValue
      ensures managerCalls == old(managerCalls) + [LocationRequestCall(authorization, newValue)]
      ensures buttonIcon == if IsAuthorized(authorization) then IconFor(newValue) else old(buttonIcon)
      ensures IsAuthorized(authorization) ==> IsUpdating(managerCalls) == newValue
      ensures !IsAuthorized(authorization) ==> IsUpdating(managerCalls) == IsUpdating(old(managerCalls))
    {
      ghost var before := managerCalls;
      var access := HasLocationAccess();
      if access {
        if !newValue {
          managerCalls := managerCalls + [StopUpdatingLocation];
          buttonIcon := LOCATION_ICON;
        } else {
          managerCalls := managerCalls + [StartUpdatingLocation];
          buttonIcon := LOCATION_FILL_ICON;
        }
      }
      requestCurrentLocation := newValue;
      UpdatingAfterCall(before, LocationRequestCall(authorization, newValue));
    }

    /** The map is moved to show a region. */
    method UpdateRegion(newRegion: Region)
      modifies this`region
      ensures region == newRegion
    {
      region := newRegion;
    }

    /** A store to the location, with its property observer: a non-nil location re-centres the map on it. */
    method SetLocation(newValue: Option<Location>)
      modifies this`location, this`region
      ensures location == newValue
      ensures region == if newValue.Some? then RegionAround(newValue.value.coordinate) else old(region)
    {
      if newValue.Some? {
        UpdateRegion(RegionAround(newValue.value.coordinate));
      }
      location := newValue;
    }

    /**
     * A batch of location updates. The last one is stored when none is stored
     * yet or both its coordinates differ from the stored one; otherwise the map
     * is re-centred on the stored location.
     */
    method DidUpdateLocations(locations: seq<Location>)
      modifies this`location, this`region
      ensures location == StoredAfter(old(location), locations)
      ensures locations == [] ==> region == old(region)
      ensures locations != [] ==> location.Some? && region == RegionAround(location.value.coordinate)
    {
      if locations == [] {
        return;
      }
      var lastLocation := locations[|locations| - 1];
      if location.Some? {
        if lastLocation.coordinate.latitude != location.value.coordinate.latitude
           && lastLocation.coordinate.longitude != location.value.coordinate.longitude
        {
          SetLocation(Some(lastLocation));
        } else {
          UpdateRegion(RegionAround(location.value.coordinate));
        }
      } else {
        SetLocation(Some(lastLocation));
      }
    }

    /** The manager reports a new authorisation status; the request flag follows whether it grants access. */
    method DidChangeAuthorization(status: AuthorizationStatus)
      modifies this`authorization, this`managerCalls, this`buttonIcon, this`requestCurrentLocation
      ensures authorization == status
      ensures requestCurrentLocation == IsAuthorized(status)
      ensures managerCalls == old(managerCalls) +
        [if IsAuthorized(status) then StartUpdatingLocation else RequestWhenInUseAuthorization]
      ensures buttonIcon == if IsAuthorized(status) then LOCATION_FILL_ICON else old(buttonIcon)
      ensures IsUpdating(managerCalls) == (IsAuthorized(status) || IsUpdating(old(managerCalls)))
    {
      authorization := status;
      match status
      case AuthorizedAlways => SetRequestCurrentLocation(true);
      case AuthorizedWhenInUse => SetRequestCurrentLocation(true);
      case _ => SetRequestCurrentLocation(false);
    }

    /** The current-location button flips the request flag. */
    method CurrentLocationButtonAction()
      modifies this`managerCalls, this`buttonIcon, this`requestCurrentLocation
      ensures requestCurrentLocation == !old(requestCurrentLocation)
      ensures managerCalls == old(managerCalls) + [LocationRequestCall(authorization, requestCurrentLocation)]
      ensures buttonIcon == if IsAuthorized(authorization) then IconFor(requestCurrentLocation) else old(buttonIcon)
      ensures IsAuthorized(authorization) ==> IsUpdating(managerCalls) == requestCurrentLocation
    {
      SetRequestCurrentLocation(!requestCurrentLocation);
    }

    /** Before the screen appears, the current location is requested. */
    method ViewWillAppear()
      modifies this`managerCalls, this`buttonIcon, this`requestCurrentLocation
      ensures requestCurrentLocation
      ensures managerCalls == old(managerCalls) + [LocationRequestCall(authorization, true)]
      ensures buttonIcon == if IsAuthorized(authorization) then LOCATION_FILL_ICON else old(buttonIcon)
    {
      SetRequestCurrentLocation(true);
    }

    /** Once the screen has appeared, the request is withdrawn again. */
    method ViewDidAppear()
      modifies this`managerCalls, this`buttonIcon, this`requestCurrentLocation
      ensures !requestCurrentLocation
      ensures managerCalls == old(managerCalls) + [LocationRequestCall(authorization, false)]
      ensures buttonIcon == if IsAuthorized(authorization) then LOCATION_ICON else old(buttonIcon)
    {
      SetRequestCurrentLocation(false);
    }

    /** A touch moving over the screen withdraws an active location request and demotes a fully expanded card. */
    method TouchesMoved()
      requires Valid()
      modifies this`managerCalls, this`buttonIcon, this`requestCurrentLocation
      modifies overlay`currentCardState, overlay`searchFocused, overlay`showsCancelButton, overlay`runningAnimators
      ensures Valid() && !requestCurrentLocation
      ensures managerCalls ==
        if old(requestCurrentLocation) then old(managerCalls) + [LocationRequestCall(authorization, false)]
        else old(managerCalls)
      ensures buttonIcon ==
        if old(requestCurrentLocation) && IsAuthorized(authorization) then LOCATION_ICON else old(buttonIcon)
      ensures overlay.currentCardState == NextState(old(overlay.currentCardState), TouchMove)
      ensures old(overlay.currentCardState) == FullyExpanded ==> overlay.CardStateAssigned(Expanded)
      ensures old(overlay.currentCardState) != FullyExpanded ==> unchanged(overlay)
    {
      if requestCurrentLocation {
        SetRequestCurrentLocation(false);
      }
      if overlay.currentCardState == FullyExpanded {
        overlay.SetCardState(Expanded);
      }
    }

    /** A tap on the map demotes a fully expanded card and leaves every other state alone. */
    method MapViewTapGesture()
      requires Valid()
      modifies overlay`currentCardState, overlay`searchFocused, overlay`showsCancelButton, overlay`runningAnimators
      ensures Valid()
      ensures overlay.currentCardState == NextState(old(overlay.currentCardState), MapTap)
      ensures old(overlay.currentCardState) == FullyExpanded ==> overlay.CardStateAssigned(Expanded)
      ensures old(overlay.currentCardState) != FullyExpanded ==> unchanged(overlay)
    {
      if overlay.currentCardState == FullyExpanded {
        overlay.SetCardState(Expanded);
      }
    }
  }
}
