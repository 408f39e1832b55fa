/** The location-acquisition screen: a controller that asks the location manager
    for readings, keeps the best one as its fix, stops when the fix is good enough
    or a timer fires, and reverse-geocodes accepted fixes into a placemark.

    Each callback is specified by a pure transition function on `Acquisition`
    (the controller's fields plus the state of the location manager and the
    geocoder it owns); the class `CurrentLocationViewController` performs the same
    updates field by field and is proved to agree with those functions. */
module CurrentLocation {
  import opened Wrappers
  import opened Placemarks

  // ---------------------------------------------------------------- constants

  /** kCLLocationAccuracyBest: the location manager's default desired accuracy. */
  const AccuracyBest: real := -1.0
  /** kCLLocationAccuracyNearestTenMeters, set when updates start. */
  const AccuracyNearestTenMeters: real := 10.0
  /** Readings whose timestamp lies more than this many seconds in the past are cached ones. */
  const MaxReadingAge: real := 5.0
  /** A reading closer than this (metres) to the fix counts as the same place. */
  const SamePlaceDistance: real := 1.0
  /** Seconds after the fix at which a same-place reading ends the search. */
  const ForceDoneInterval: real := 10.0
  /** Seconds before the timeout timer fires. */
  const TimeOutInterval: real := 60.0
  /** Double.greatestFiniteMagnitude, the distance used while there is no fix. */
  const GreatestFiniteMagnitude: real := 179769313486231570814527423731704356798070567525844996598917476803157260780028538760589558632766878171540458953514382464234321326889464182768467546703537516986049910576551282076245490090389328944075868508455133942304583236903222948165808559332123348274797826204144723168738177180919299881250404026184124858368.0

  /** An NSError reduced to the two fields the controller inspects. */
  datatype NSError = NSError(domain: string, code: int)

  const CLErrorDomain := "kCLErrorDomain"
  const CLErrorLocationUnknown := 0
  const CLErrorDenied := 1
  /** The error recorded when the timer fires before any fix arrived. */
  const TimeOutError := NSError("MyLocationsErrorDomain", 1)

  // ---------------------------------------------------------------- entities

  /** A CLLocation: where, how precisely (radius in metres; negative means
      invalid) and when (seconds on the same clock as `now`). */
  datatype Reading = Reading(coordinate: Coordinate, horizontalAccuracy: real, timestamp: real)

  datatype AuthorizationStatus = NotDetermined | Restricted | Denied | AuthorizedAlways | AuthorizedWhenInUse

  /** The timer the `timer` field refers to: none yet, scheduled and waiting, spent
      (a one-shot timer that has fired), or invalidated. */
  datatype TimerState = NoTimer | Armed(interval: real) | Fired(interval: real) | Invalidated

  /** What `getLocation` does with the authorization status. */
  datatype AuthorizationOutcome = RequestAuthorization | ShowDeniedAlert | Proceed

  /** The controller's state together with the parts of the location manager and
      geocoder that its decisions depend on. */
  datatype Acquisition = Acquisition(
    location: Option<Reading>,
    updatingLocation: bool,
    lastLocationError: Option<NSError>,
    placemark: Option<Placemark>,
    performingReverseGeocoding: bool,
    lastGeocodingError: Option<NSError>,
    timer: TimerState,
    // the location manager: delivering updates to this controller, and its desired accuracy
    deliveringUpdates: bool,
    desiredAccuracy: real,
    // the geocoder: every reverse-geocode request issued, and how many have not completed
    geocodeRequests: seq<Reading>,
    pendingGeocodes: nat,
    // the run loop: earlier timers still waiting to fire after `timer` was overwritten
    strayTimers: nat)

  /** The state when the screen is created. */
  const Initial := Acquisition(None, false, None, None, false, None, NoTimer, false, AccuracyBest, [], 0, 0)

  // ---------------------------------------------------------------- frames

  predicate ManagerUnchanged(s: Acquisition, t: Acquisition)
  {
    && t.updatingLocation == s.updatingLocation
    && t.timer == s.timer
    && t.strayTimers == s.strayTimers
    && t.deliveringUpdates == s.deliveringUpdates
    && t.desiredAccuracy == s.desiredAccuracy
  }

  predicate FixUnchanged(s: Acquisition, t: Acquisition)
  {
    t.location == s.location && t.lastLocationError == s.lastLocationError
  }

  predicate GeocodeUnchanged(s: Acquisition, t: Acquisition)
  {
    && t.placemark == s.placemark
    && t.performingReverseGeocoding == s.performingReverseGeocoding
    && t.lastGeocodingError == s.lastGeocodingError
    && t.geocodeRequests == s.geocodeRequests
    && t.pendingGeocodes == s.pendingGeocodes
  }

  // ---------------------------------------------------------------- transitions

  /** startLocationManager: only when location services are enabled, attach to the
      manager with ten-metre accuracy and schedule a one-shot 60-second timer. A
      timer still waiting is not invalidated: overwriting `timer` leaves it stray. */
  function Started(s: Acquisition, servicesEnabled: bool): (t: Acquisition)
    ensures !servicesEnabled ==> t == s
    ensures servicesEnabled ==>
      && t.updatingLocation && t.deliveringUpdates
      && t.timer == Armed(TimeOutInterval)
      && t.desiredAccuracy == AccuracyNearestTenMeters
      && t.strayTimers == s.strayTimers + (if s.timer.Armed? then 1 else 0)
    ensures FixUnchanged(s, t) && GeocodeUnchanged(s, t)
  {
    if servicesEnabled then
      s.(deliveringUpdates := true, desiredAccuracy := AccuracyNearestTenMeters,
         updatingLocation := true, timer := Armed(TimeOutInterval),
         strayTimers := if s.timer.Armed? then s.strayTimers + 1 else s.strayTimers)
    else s
  }

  /** stopLocationManager: a no-op unless updating; otherwise detach from the
      manager and invalidate the timer, if there is one. */
  function Stopped(s: Acquisition): (t: Acquisition)
    ensures !t.updatingLocation
    ensures !s.updatingLocation ==> t == s
    ensures s.updatingLocation ==>
      && !t.deliveringUpdates
      && (t.timer.NoTimer? <==> s.timer.NoTimer?)
      && !t.timer.Armed?
    ensures FixUnchanged(s, t) && GeocodeUnchanged(s, t)
    ensures t.desiredAccuracy == s.desiredAccuracy && t.strayTimers == s.strayTimers
  {
    if s.updatingLocation then
      s.(deliveringUpdates := false, updatingLocation := false,
         timer := if s.timer.NoTimer? then NoTimer else Invalidated)
    else s
  }

  /** The permission gate at the start of getLocation. */
  function Authorize(status: AuthorizationStatus): (o: AuthorizationOutcome)
    ensures o == Proceed <==> status == AuthorizedAlways || status == AuthorizedWhenInUse
    ensures o == RequestAuthorization <==> status == NotDetermined
    ensures o == ShowDeniedAlert <==> status == Denied || status == Restricted
  {
    match status
    case NotDetermined => RequestAuthorization
    case Denied => ShowDeniedAlert
    case Restricted => ShowDeniedAlert
    case AuthorizedAlways => Proceed
    case AuthorizedWhenInUse => Proceed
  }

  /** getLocation: unless the gate stops it, forget the address found for the
      previous fix, keep the fix itself as the baseline, and start updating. */
  function OnGetLocation(s: Acquisition, status: AuthorizationStatus, servicesEnabled: bool): (t: Acquisition)
    ensures Authorize(status) != Proceed ==> t == s
    ensures Authorize(status) == Proceed ==>
      && t.placemark.None? && t.lastGeocodingError.None?
      && FixUnchanged(s, t)
      && t.performingReverseGeocoding == s.performingReverseGeocoding
      && t.geocodeRequests == s.geocodeRequests && t.pendingGeocodes == s.pendingGeocodes
      && ManagerUnchanged(Started(s, servicesEnabled), t)
  {
    if Authorize(status) != Proceed then s
    else Started(s.(placemark := None, lastGeocodingError := None), servicesEnabled)
  }

  /** A cached reading (timestamp more than five seconds before `now`) or an invalid one. */
  predicate Rejected(r: Reading, now: real)
  {
    r.timestamp - now < -MaxReadingAge || r.horizontalAccuracy < 0.0
  }

  /** The acceptance rule: there is no fix yet, or the reading is strictly more precise. */
  predicate Improves(fix: Option<Reading>, r: Reading)
  {
    fix.None? || fix.value.horizontalAccuracy > r.horizontalAccuracy
  }

  /** The `distance` variable of didUpdateLocations: the platform-computed distance
      to the fix, or the greatest finite Double while there is no fix. */
  function Distance(fix: Option<Reading>, distanceToFix: real): (d: real)
    ensures fix.None? ==> d > 0.0 && d >= SamePlaceDistance
    ensures fix.Some? ==> d == distanceToFix
  {
    if fix.None? then GreatestFiniteMagnitude else distanceToFix
  }

  /** Hands a reading to the geocoder. */
  function Geocoding(s: Acquisition, r: Reading): Acquisition
  {
    s.(performingReverseGeocoding := true,
       geocodeRequests := s.geocodeRequests + [r],
       pendingGeocodes := s.pendingGeocodes + 1)
  }

  predicate Issued(s: Acquisition, t: Acquisition)
  {
    |t.geocodeRequests| > |s.geocodeRequests|
  }

  /** didUpdateLocations with the last of `readings`; `distanceToFix` is what the
      platform reports as that reading's distance from the current fix. */
  function OnReadings(s: Acquisition, readings: seq<Reading>, now: real, distanceToFix: real): (t: Acquisition)
    requires |readings| > 0
    // cached and invalid readings change nothing
    ensures Rejected(Last(readings), now) ==> t == s
    // a valid reading is accepted exactly when it improves on the fix; acceptance clears the error
    ensures !Rejected(Last(readings), now) && Improves(s.location, Last(readings)) ==>
      t.location == Some(Last(readings)) && t.lastLocationError.None?
    ensures t.location != s.location ==>
      !Rejected(Last(readings), now) && Improves(s.location, Last(readings)) && t.location == Some(Last(readings))
    ensures t.location.Some? && s.location.Some? ==>
      t.location.value.horizontalAccuracy <= s.location.value.horizontalAccuracy
    // an accepted reading within the desired accuracy ends the search; otherwise the manager is untouched
    ensures !Rejected(Last(readings), now) && Improves(s.location, Last(readings)) ==>
      if Last(readings).horizontalAccuracy <= s.desiredAccuracy
      then !t.updatingLocation && ManagerUnchanged(Stopped(s), t)
      else ManagerUnchanged(s, t)
    // geocoding: at most one request per reading, only for accepted readings, always when none was in flight
    ensures t.geocodeRequests == s.geocodeRequests || t.geocodeRequests == s.geocodeRequests + [Last(readings)]
    ensures t.pendingGeocodes == s.pendingGeocodes + (if Issued(s, t) then 1 else 0)
    ensures Issued(s, t) ==> !Rejected(Last(readings), now) && Improves(s.location, Last(readings))
    ensures !Rejected(Last(readings), now) && Improves(s.location, Last(readings)) ==>
      t.performingReverseGeocoding && (!s.performingReverseGeocoding ==> Issued(s, t))
    // the one way round the in-flight guard: a terminal acceptance at a positive distance
    ensures Issued(s, t) && s.performingReverseGeocoding ==>
      Last(readings).horizontalAccuracy <= s.desiredAccuracy && Distance(s.location, distanceToFix) > 0.0
    ensures t.placemark == s.placemark && t.lastGeocodingError == s.lastGeocodingError
    // a reading that does not improve either forces the end of the search or changes nothing
    ensures !Rejected(Last(readings), now) && !Improves(s.location, Last(readings)) ==>
      if distanceToFix < SamePlaceDistance
         && Last(readings).timestamp - s.location.value.timestamp > ForceDoneInterval
      then t == Stopped(s)
      else t == s
  {
    var r := Last(readings);
    if Rejected(r, now) then s
    else
      var distance := Distance(s.location, distanceToFix);
      if Improves(s.location, r) then
        var accepted := s.(lastLocationError := None, location := Some(r));
        var settled :=
          if r.horizontalAccuracy <= s.desiredAccuracy then
            var stopped := Stopped(accepted);
            if distance > 0.0 then stopped.(performingReverseGeocoding := false) else stopped
          else accepted;
        if !settled.performingReverseGeocoding then Geocoding(settled, r) else settled
      else if distance < SamePlaceDistance && r.timestamp - s.location.value.timestamp > ForceDoneInterval then
        Stopped(s)
      else s
  }

  /** didFailWithError: "location unknown" is transient and ignored; any other
      error is recorded and stops the search. */
  function OnFailure(s: Acquisition, error: NSError): (t: Acquisition)
    ensures error.code == CLErrorLocationUnknown ==> t == s
    ensures error.code != CLErrorLocationUnknown ==>
      && t.lastLocationError == Some(error)
      && !t.updatingLocation
      && ManagerUnchanged(Stopped(s), t)
      && t.location == s.location
      && GeocodeUnchanged(s, t)
  {
    if error.code == CLErrorLocationUnknown then s
    else Stopped(s.(lastLocationError := Some(error)))
  }

  /** The run loop firing a timer before it calls didTimeOut: the one `timer`
      refers to, or a stray one. A one-shot timer is spent once it has fired. */
  function Fire(s: Acquisition, stray: bool): (t: Acquisition)
    requires if stray then s.strayTimers > 0 else s.timer.Armed?
    ensures stray ==> t.timer == s.timer && t.strayTimers + 1 == s.strayTimers
    ensures !stray ==> t.timer == Fired(s.timer.interval) && t.strayTimers == s.strayTimers
    ensures !t.timer.Armed? || t.strayTimers < s.strayTimers
    ensures FixUnchanged(s, t) && GeocodeUnchanged(s, t)
    ensures t.updatingLocation == s.updatingLocation && t.deliveringUpdates == s.deliveringUpdates
    ensures t.desiredAccuracy == s.desiredAccuracy
  {
    if stray then s.(strayTimers := s.strayTimers - 1) else s.(timer := Fired(s.timer.interval))
  }

  /** didTimeOut: only when no fix has arrived, stop and record the time-out error. */
  function OnTimeOut(s: Acquisition): (t: Acquisition)
    ensures s.location.Some? ==> t == s
    ensures s.location.None? ==>
      && t.lastLocationError == Some(TimeOutError)
      && !t.updatingLocation
      && ManagerUnchanged(Stopped(s), t)
      && t.location.None?
      && GeocodeUnchanged(s, t)
  {
    if s.location.None? then Stopped(s).(lastLocationError := Some(TimeOutError)) else s
  }

  /** The reverse-geocode completion handler, whatever the controller is doing by then. */
  function OnGeocoded(s: Acquisition, placemarks: Option<seq<Placemark>>, error: Option<NSError>): (t: Acquisition)
    requires s.pendingGeocodes > 0
    ensures !t.performingReverseGeocoding && t.lastGeocodingError == error
    ensures t.placemark.Some? <==> error.None? && placemarks.Some? && |placemarks.value| > 0
    ensures t.placemark.Some? ==> t.placemark == Some(Last(placemarks.value))
    ensures t.pendingGeocodes == s.pendingGeocodes - 1 && t.geocodeRequests == s.geocodeRequests
    ensures ManagerUnchanged(s, t) && FixUnchanged(s, t)
  {
    var found :=
      if error.None? && placemarks.Some? && |placemarks.value| > 0 then Some(Last(placemarks.value)) else None;
    s.(lastGeocodingError := error, placemark := found,
       performingReverseGeocoding := false, pendingGeocodes := s.pendingGeocodes - 1)
  }

  // ---------------------------------------------------------------- labels

  const SearchingForAddress := "Searching For Addess..."
  const ErrorFindingAddress := "Error Finding Address"
  const NoAddressFound := "No Address Found"
  const LocationServicesDisabled := "Location Services Disabled"
  const ErrorGettingLocation := "Error Getting Location"
  const Searching := "Searching..."
  const TapToStart := "Tap 'Get My Location' to start."
  const StopTitle := "Stop"
  const GetTitle := "Get My Location"

  /** The parts of the first address line: house number, then street. */
  function Line1Parts(p: Placemark): seq<Part>
  {
    [Part(p.subThoroughfare, " "), Part(p.thoroughfare, "")]
  }

  /** The parts of the second address line: city, state, postal code. */
  function Line2Parts(p: Placemark): seq<Part>
  {
    [Part(p.locality, " "), Part(p.administrativeArea, " "), Part(p.postalCode, "")]
  }

  /** The two-line address shown under the coordinates. */
  function TwoLineAddress(p: Placemark): (text: string)
    ensures '\n' in text
  {
    var text := Render(Line1Parts(p)) + "\n" + Render(Line2Parts(p));
    assert text[|Render(Line1Parts(p))|] == '\n';
    text
  }

  /** The first line of the address can be read back from the text, up to its
      newline, provided the house number and street contain no newline. */
  lemma TwoLineAddressLines(p: Placemark)
    requires PartsWithoutNewline(Line1Parts(p))
    ensures SplitAtNewline(TwoLineAddress(p)) == (Render(Line1Parts(p)), Render(Line2Parts(p)))
  {
    RenderWithoutNewline(Line1Parts(p));
    SplitAfterJoin(Render(Line1Parts(p)), Render(Line2Parts(p)));
  }

  /** string(from:), appending to `line1` and `line2` as the controller does. */
  method StringFromPlacemark(placemark: Placemark) returns (text: string)
    ensures text == TwoLineAddress(placemark)
  {
    ghost var l1, l2 := Line1Parts(placemark), Line2Parts(placemark);
    var line1 := "";
    if placemark.subThoroughfare.Some? {
      line1 := line1 + placemark.subThoroughfare.value + " ";
    }
    assert line1 == Piece(l1[0]);
    if placemark.thoroughfare.Some? {
      line1 := line1 + placemark.thoroughfare.value;
    }
    assert line1 == Piece(l1[0]) + Piece(l1[1]);
    var line2 := "";
    if placemark.locality.Some? {
      line2 := line2 + placemark.locality.value + " ";
    }
    assert line2 == Piece(l2[0]);
    if placemark.administrativeArea.Some? {
      line2 := line2 + placemark.administrativeArea.value + " ";
    }
    assert line2 == Piece(l2[0]) + Piece(l2[1]);
    if placemark.postalCode.Some? {
      line2 := line2 + placemark.postalCode.value;
    }
    assert line2 == Piece(l2[0]) + Piece(l2[1]) + Piece(l2[2]);
    text := line1 + "\n" + line2;
    RenderPair(l1[0], l1[1]);
    RenderTriple(l2[0], l2[1], l2[2]);
  }

  /** The address label while there is a fix. */
  function AddressMessage(placemark: Option<Placemark>, performing: bool, geocodingError: Option<NSError>): (m: string)
    ensures placemark.Some? ==> m == TwoLineAddress(placemark.value)
    ensures m == SearchingForAddress <==> placemark.None? && performing
    ensures m == ErrorFindingAddress <==> placemark.None? && !performing && geocodingError.Some?
    ensures m == NoAddressFound <==> placemark.None? && !performing && geocodingError.None?
  {
    if placemark.Some? then
      var address := TwoLineAddress(placemark.value);
      assert '\n' !in SearchingForAddress && '\n' !in ErrorFindingAddress && '\n' !in NoAddressFound;
      address
    else if performing then SearchingForAddress
    else if geocodingError.Some? then ErrorFindingAddress
    else NoAddressFound
  }

  predicate IsDenial(e: NSError)
  {
    e.domain == CLErrorDomain && e.code == CLErrorDenied
  }

  /** The message label while there is no fix. */
  function StatusMessage(error: Option<NSError>, servicesEnabled: bool, updating: bool): (m: string)
    ensures m == LocationServicesDisabled <==>
      (error.Some? && IsDenial(error.value)) || (error.None? && !servicesEnabled)
    ensures m == ErrorGettingLocation <==> error.Some? && !IsDenial(error.value)
    ensures m == Searching <==> error.None? && servicesEnabled && updating
    ensures m == TapToStart <==> error.None? && servicesEnabled && !updating
  {
    if error.Some? then
      if IsDenial(error.value) then LocationServicesDisabled else ErrorGettingLocation
    else if !servicesEnabled then LocationServicesDisabled
    else if updating then Searching
    else TapToStart
  }

  /** What updateLabels shows (the coordinate texts are left out). */
  datatype Labels = Labels(message: string, address: string, tagButtonHidden: bool, getButtonTitle: string)

  function UpdateLabels(s: Acquisition, servicesEnabled: bool): (v: Labels)
    ensures v.tagButtonHidden <==> s.location.None?
    ensures v.message == "" <==> s.location.Some?
    ensures v.address == "" <==> s.location.None?
    ensures s.location.Some? ==>
      v.address == AddressMessage(s.placemark, s.performingReverseGeocoding, s.lastGeocodingError)
    ensures s.location.None? ==>
      v.message == StatusMessage(s.lastLocationError, servicesEnabled, s.updatingLocation)
    ensures v.getButtonTitle == StopTitle <==> s.updatingLocation
  {
    var title := if s.updatingLocation then StopTitle else GetTitle;
    if s.location.Some? then
      var address := AddressMessage(s.placemark, s.performingReverseGeocoding, s.lastGeocodingError);
      assert address != "" by {
        if s.placemark.Some? { assert '\n' in address; }
      }
      Labels("", address, false, title)
    else
      Labels(StatusMessage(s.lastLocationError, servicesEnabled, s.updatingLocation), "", true, title)
  }

  // ---------------------------------------------------------------- the controller

  class CurrentLocationViewController {
    var location: Option<Reading>
    var updatingLocation: bool
    var lastLocationError: Option<NSError>
    var placemark: Option<Placemark>
    var performingReverseGeocoding: bool
    var lastGeocodingError: Option<NSError>
    var timer: TimerState
    // the owned location manager
    var deliveringUpdates: bool
    var desiredAccuracy: real
    // the owned geocoder
    var geocodeRequests: seq<Reading>
    var pendingGeocodes: nat
    // the run loop
    var strayTimers: nat

    function State(): Acquisition
      reads this
    {
      Acquisition(location, updatingLocation, lastLocationError, placemark,
                  performingReverseGeocoding, lastGeocodingError, timer,
                  deliveringUpdates, desiredAccuracy, geocodeRequests, pendingGeocodes, strayTimers)
    }

    constructor ()
      ensures State() == Initial
    {
      location, updatingLocation, lastLocationError := None, false, None;
      placemark, performingReverseGeocoding, lastGeocodingError := None, false, None;
      timer := NoTimer;
      deliveringUpdates, desiredAccuracy := false, AccuracyBest;
      geocodeRequests, pendingGeocodes := [], 0;
      strayTimers := 0;
    }

    method GetLocation(status: AuthorizationStatus, servicesEnabled: bool) returns (outcome: AuthorizationOutcome)
      modifies this
      ensures outcome == Authorize(status)
      ensures State() == OnGetLocation(old(State()), status, servicesEnabled)
    {
      if status == NotDetermined {
        outcome := RequestAuthorization;
        return;
      }
      if status == Denied || status == Restricted {
        outcome := ShowDeniedAlert;
        return;
      }
      placemark := None;
      lastGeocodingError := None;
      StartLocationManager(servicesEnabled);
      outcome := Proceed;
    }

    method DidFailWithError(error: NSError)
      modifies this
      ensures State() == OnFailure(old(State()), error)
    {
      if error.code == CLErrorLocationUnknown {
        return;
      }
      lastLocationError := Some(error);
      StopLocationManager();
    }

    method DidUpdateLocations(locations: seq<Reading>, now: real, distanceToFix: real)
      requires |locations| > 0
      modifies this
      ensures State() == OnReadings(old(State()), locations, now, distanceToFix)
    {
      var newLocation := locations[|locations| - 1];
      if newLocation.timestamp - now < -MaxReadingAge {
        return;
      }
      if newLocation.horizontalAccuracy < 0.0 {
        return;
      }
      var distance := GreatestFiniteMagnitude;
      if location.Some? {
        distance := distanceToFix;
      }
      if location.None? || location.value.horizontalAccuracy > newLocation.horizontalAccuracy {
        lastLocationError := None;
        location := Some(newLocation);
        if newLocation.horizontalAccuracy <= desiredAccuracy {
          StopLocationManager();
          if distance > 0.0 {
            performingReverseGeocoding := false;
          }
        }
        if !performingReverseGeocoding {
          performingReverseGeocoding := true;
          ReverseGeocodeLocation(newLocation);
        }
      } else if distance < SamePlaceDistance {
        var timeInterval := newLocation.timestamp - location.value.timestamp;
        if timeInterval > ForceDoneInterval {
          StopLocationManager();
        }
      }
    }

    /** Hands a reading to the geocoder; its completion arrives as ReverseGeocodeCompleted. */
    method ReverseGeocodeLocation(r: Reading)
      modifies this
      ensures State() == old(State()).(geocodeRequests := old(geocodeRequests) + [r],
                                       pendingGeocodes := old(pendingGeocodes) + 1)
    {
      geocodeRequests := geocodeRequests + [r];
      pendingGeocodes := pendingGeocodes + 1;
    }

    /** The completion closure passed to reverseGeocodeLocation. */
    method ReverseGeocodeCompleted(placemarks: Option<seq<Placemark>>, error: Option<NSError>)
      requires pendingGeocodes > 0
      modifies this
      ensures State() == OnGeocoded(old(State()), placemarks, error)
    {
      pendingGeocodes := pendingGeocodes - 1;
      lastGeocodingError := error;
      if error.None? && placemarks.Some? && |placemarks.value| > 0 {
        placemark := Some(placemarks.value[|placemarks.value| - 1]);
      } else {
        placemark := None;
      }
      performingReverseGeocoding := false;
    }

    method StartLocationManager(servicesEnabled: bool)
      modifies this
      ensures State() == Started(old(State()), servicesEnabled)
    {
      if servicesEnabled {
        deliveringUpdates := true;
        desiredAccuracy := AccuracyNearestTenMeters;
        updatingLocation := true;
        if timer.Armed? {
          strayTimers := strayTimers + 1;
        }
        timer := Armed(TimeOutInterval);
      }
    }

    method StopLocationManager()
      modifies this
      ensures State() == Stopped(old(State()))
    {
      if updatingLocation {
        deliveringUpdates := false;
        updatingLocation := false;
        if !timer.NoTimer? {
          timer := Invalidated;
        }
      }
    }

    /** A timer fires (the run loop spends it) and didTimeOut runs. */
    method DidTimeOut(stray: bool)
      requires if stray then strayTimers > 0 else timer.Armed?
      modifies this
      ensures State() == OnTimeOut(Fire(old(State()), stray))
    {
      if stray {
        strayTimers := strayTimers - 1;
      } else {
        timer := Fired(timer.interval);
      }
      if location.None? {
        StopLocationManager();
        lastLocationError := Some(TimeOutError);
      }
    }
  }
}
