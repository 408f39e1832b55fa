/** Sequences of callbacks delivered to the location-acquisition controller, the
    invariant every reachable state satisfies, and what holds along a sequence:
    the fix only ever improves, nothing changes the fix once the manager is
    detached until the next getLocation, and at most one geocode is in flight
    except after a terminal acceptance at a positive distance. */
module CurrentLocationTraces {
  import opened Wrappers
  import opened Placemarks
  import opened CurrentLocation

  /** A callback into the controller. */
  datatype Event =
    | GetLocationTapped(status: AuthorizationStatus, servicesEnabled: bool)
    | LocationsUpdated(readings: seq<Reading>, now: real, distanceToFix: real)
    | LocationFailed(error: NSError)
    | TimerFired(stray: bool)
    | GeocodeFinished(placemarks: Option<seq<Placemark>>, geocodingError: Option<NSError>)

  /** Whether the platform can deliver `e` in state `s`: location-manager callbacks
      reach the controller only while it is the attached delegate, and carry at
      least one reading; a geocode completion answers an issued request. The timer
      `timer` refers to fires while it waits, and so does any stray one left
      waiting when a second start overwrote `timer`. */
  predicate Deliverable(s: Acquisition, e: Event)
  {
    match e
    case LocationsUpdated(readings, _, _) => s.deliveringUpdates && |readings| > 0
    case LocationFailed(_) => s.deliveringUpdates
    case GeocodeFinished(_, _) => s.pendingGeocodes > 0
    case TimerFired(stray) => if stray then s.strayTimers > 0 else s.timer.Armed?
    case GetLocationTapped(_, _) => true
  }

  function Step(s: Acquisition, e: Event): Acquisition
    requires Deliverable(s, e)
  {
    match e
    case GetLocationTapped(status, enabled) => OnGetLocation(s, status, enabled)
    case LocationsUpdated(readings, now, d) => OnReadings(s, readings, now, d)
    case LocationFailed(error) => OnFailure(s, error)
    case TimerFired(stray) => OnTimeOut(Fire(s, stray))
    case GeocodeFinished(placemarks, error) => OnGeocoded(s, placemarks, error)
  }

  predicate Admissible(s: Acquisition, events: seq<Event>)
    decreases |events|
  {
    events == [] || (Deliverable(s, events[0]) && Admissible(Step(s, events[0]), events[1..]))
  }

  function Run(s: Acquisition, events: seq<Event>): Acquisition
    requires Admissible(s, events)
    decreases |events|
  {
    if events == [] then s else Run(Step(s, events[0]), events[1..])
  }

  // ---------------------------------------------------------------- invariant

  predicate StrictlyImproving(rs: seq<Reading>)
  {
    forall i, j :: 0 <= i < j < |rs| ==> rs[j].horizontalAccuracy < rs[i].horizontalAccuracy
  }

  /** What holds in every reachable state. */
  predicate Inv(s: Acquisition)
  {
    // the updatingLocation flag tells the truth about the manager and the timer:
    // updating has scheduled a 60-second timer, which may since have fired
    && s.deliveringUpdates == s.updatingLocation
    && (s.updatingLocation ==>
          && (s.timer == Armed(TimeOutInterval) || s.timer == Fired(TimeOutInterval))
          && s.desiredAccuracy == AccuracyNearestTenMeters)
    && (s.timer.Armed? ==> s.updatingLocation)
    // the in-flight flag is only set while some request is outstanding
    && (s.performingReverseGeocoding ==> s.pendingGeocodes > 0)
    && s.pendingGeocodes <= |s.geocodeRequests|
    // requests are issued only for fixes, each strictly better than the one before
    && (s.location.None? ==> s.geocodeRequests == [])
    && StrictlyImproving(s.geocodeRequests)
    && (|s.geocodeRequests| > 0 ==>
          s.location.Some? && s.location.value.horizontalAccuracy <= Last(s.geocodeRequests).horizontalAccuracy)
  }

  lemma InitialInv()
    ensures Inv(Initial)
  {
  }

  lemma ReadingsKeepInv(s: Acquisition, readings: seq<Reading>, now: real, d: real)
    requires Inv(s) && s.deliveringUpdates && |readings| > 0
    ensures Inv(OnReadings(s, readings, now, d))
  {
    var t := OnReadings(s, readings, now, d);
    var r := Last(readings);
    if Issued(s, t) {
      assert t.geocodeRequests == s.geocodeRequests + [r];
      forall i, j | 0 <= i < j < |t.geocodeRequests|
        ensures t.geocodeRequests[j].horizontalAccuracy < t.geocodeRequests[i].horizontalAccuracy
      {
        if j == |s.geocodeRequests| {
          assert s.location.Some? ==> r.horizontalAccuracy < s.location.value.horizontalAccuracy;
          assert t.geocodeRequests[i] == s.geocodeRequests[i];
          if i < j - 1 {
            assert s.geocodeRequests[j - 1] == Last(s.geocodeRequests);
          }
        }
      }
    }
  }

  lemma StepKeepsInv(s: Acquisition, e: Event)
    requires Inv(s) && Deliverable(s, e)
    ensures Inv(Step(s, e))
  {
    match e
    case LocationsUpdated(readings, now, d) => ReadingsKeepInv(s, readings, now, d);
    case _ =>
  }

  lemma {:induction false} RunKeepsInv(s: Acquisition, events: seq<Event>)
    requires Inv(s) && Admissible(s, events)
    ensures Inv(Run(s, events))
    decreases |events|
  {
    if events != [] {
      StepKeepsInv(s, events[0]);
      RunKeepsInv(Step(s, events[0]), events[1..]);
    }
  }

  // ---------------------------------------------------------------- properties along a run

  /** Once there is a fix, every later fix is either the same reading or a
      strictly more precise one: equal accuracies never replace it. */
  lemma {:induction false} FixOnlyImproves(s: Acquisition, events: seq<Event>)
    requires Admissible(s, events) && s.location.Some?
    ensures Run(s, events).location.Some?
    ensures Run(s, events).location == s.location
         || Run(s, events).location.value.horizontalAccuracy < s.location.value.horizontalAccuracy
    decreases |events|
  {
    if events != [] {
      var t := Step(s, events[0]);
      assert t.location.Some?;
      assert t.location == s.location || t.location.value.horizontalAccuracy < s.location.value.horizontalAccuracy;
      FixOnlyImproves(t, events[1..]);
    }
  }

  predicate NoGetLocation(events: seq<Event>)
  {
    forall i :: 0 <= i < |events| ==> !events[i].GetLocationTapped?
  }

  /** Once the controller has detached from the manager, no callback changes the
      fix until the user asks for a location again. `Deliverable` already keeps
      location callbacks away while detached; what this proves is that a timer
      firing and a geocode completion leave the fix alone and never restart updating. */
  lemma {:induction false} DetachedKeepsFix(s: Acquisition, events: seq<Event>)
    requires Inv(s) && !s.deliveringUpdates && Admissible(s, events) && NoGetLocation(events)
    ensures Run(s, events).location == s.location
    ensures !Run(s, events).updatingLocation
    decreases |events|
  {
    if events != [] {
      var t := Step(s, events[0]);
      StepKeepsInv(s, events[0]);
      assert !events[0].GetLocationTapped?;
      assert NoGetLocation(events[1..]) by {
        forall i | 0 <= i < |events[1..]| ensures !events[1..][i].GetLocationTapped? {
          assert events[1..][i] == events[i + 1];
        }
      }
      DetachedKeepsFix(t, events[1..]);
    }
  }

  /** An accepted reading within the desired accuracy is final: whatever the
      platform delivers afterwards, short of a new getLocation, it stays the fix. */
  lemma AcceptedWithinAccuracyIsFinal(s: Acquisition, readings: seq<Reading>, now: real, d: real, later: seq<Event>)
    requires Inv(s) && Deliverable(s, LocationsUpdated(readings, now, d))
    requires !Rejected(Last(readings), now) && Improves(s.location, Last(readings))
    requires Last(readings).horizontalAccuracy <= s.desiredAccuracy
    requires Admissible(OnReadings(s, readings, now, d), later) && NoGetLocation(later)
    ensures Run(OnReadings(s, readings, now, d), later).location == Some(Last(readings))
    ensures !Run(OnReadings(s, readings, now, d), later).updatingLocation
  {
    ReadingsKeepInv(s, readings, now, d);
    DetachedKeepsFix(OnReadings(s, readings, now, d), later);
  }

  /** A timeout before any fix, from either timer, leaves the search stopped with
      the time-out error, no timer waiting in `timer`, and nothing to geocode. */
  lemma TimeOutWithoutFix(s: Acquisition, stray: bool)
    requires Inv(s) && Deliverable(s, TimerFired(stray)) && s.location.None?
    ensures var t := Step(s, TimerFired(stray));
      && !t.updatingLocation && !t.deliveringUpdates && !t.timer.Armed?
      && t.lastLocationError == Some(TimeOutError)
      && t.pendingGeocodes == 0 && !t.performingReverseGeocoding && t.geocodeRequests == []
  {
  }

  /** When the timer fires after a fix has arrived, didTimeOut does nothing and the
      search goes on, but the one-shot timer is spent: `timer` no longer bounds it. */
  lemma TimeOutWithFixKeepsSearching(s: Acquisition)
    requires Inv(s) && Deliverable(s, TimerFired(false)) && s.location.Some?
    ensures var t := Step(s, TimerFired(false));
      && t.updatingLocation && t.deliveringUpdates
      && t.timer == Fired(TimeOutInterval)
      && t.location == s.location && t.lastLocationError == s.lastLocationError
      && t.strayTimers == s.strayTimers
  {
  }

  // ---------------------------------------------------------------- the in-flight guard

  /** At most one request outstanding, and the flag says whether there is one. */
  predicate OneInFlight(s: Acquisition)
  {
    s.pendingGeocodes == if s.performingReverseGeocoding then 1 else 0
  }

  /** The terminal acceptance that clears performingReverseGeocoding just before the
      guard tests it, while a request is still in flight. */
  predicate BypassesGuard(s: Acquisition, e: Event)
  {
    && e.LocationsUpdated? && |e.readings| > 0
    && s.performingReverseGeocoding
    && !Rejected(Last(e.readings), e.now)
    && Improves(s.location, Last(e.readings))
    && Last(e.readings).horizontalAccuracy <= s.desiredAccuracy
    && Distance(s.location, e.distanceToFix) > 0.0
  }

  lemma StepKeepsOneInFlight(s: Acquisition, e: Event)
    requires OneInFlight(s) && Deliverable(s, e) && !BypassesGuard(s, e)
    ensures OneInFlight(Step(s, e))
  {
  }

  /** When the guard is bypassed, a second request joins the one in flight. */
  lemma BypassAddsRequest(s: Acquisition, e: Event)
    requires Inv(s) && Deliverable(s, e) && BypassesGuard(s, e)
    ensures Step(s, e).pendingGeocodes == s.pendingGeocodes + 1 >= 2
    ensures Step(s, e).performingReverseGeocoding
  {
  }

  predicate GuardRespected(s: Acquisition, events: seq<Event>)
    requires Admissible(s, events)
    decreases |events|
  {
    events == [] || (!BypassesGuard(s, events[0]) && GuardRespected(Step(s, events[0]), events[1..]))
  }

  lemma {:induction false} SingleFlightAlongRun(s: Acquisition, events: seq<Event>)
    requires OneInFlight(s) && Admissible(s, events) && GuardRespected(s, events)
    ensures OneInFlight(Run(s, events))
    decreases |events|
  {
    if events != [] {
      StepKeepsOneInFlight(s, events[0]);
      SingleFlightAlongRun(Step(s, events[0]), events[1..]);
    }
  }

  // ---------------------------------------------------------------- worked runs

  /** A reading on the prime meridian; 0.000009 degrees of latitude is about one metre,
      so readings at different latitudes are that far apart. */
  function At(latitude: real, accuracy: real, timestamp: real): Reading
  {
    Reading(Coordinate(latitude, 0.0), accuracy, timestamp)
  }

  /** Two readings, the second within ten metres and 3 m away from the first, before
      the first geocode completes: two requests are in flight. */
  lemma GuardHoleExample()
    ensures var events := [GetLocationTapped(AuthorizedWhenInUse, true),
                           LocationsUpdated([At(0.0, 50.0, 100.0)], 100.0, 0.0),
                           LocationsUpdated([At(0.000027, 8.0, 101.0)], 101.0, 3.0)];
      && Admissible(Initial, events)
      && Run(Initial, events).pendingGeocodes == 2
      && Run(Initial, events).performingReverseGeocoding
      && !Run(Initial, events).updatingLocation
  {
    var e0 := GetLocationTapped(AuthorizedWhenInUse, true);
    var e1 := LocationsUpdated([At(0.0, 50.0, 100.0)], 100.0, 0.0);
    var e2 := LocationsUpdated([At(0.000027, 8.0, 101.0)], 101.0, 3.0);
    var s1 := Step(Initial, e0);
    assert s1.deliveringUpdates && s1.desiredAccuracy == 10.0;
    var s2 := Step(s1, e1);
    assert s2.pendingGeocodes == 1 && s2.performingReverseGeocoding && s2.deliveringUpdates;
    var s3 := Step(s2, e2);
    assert BypassesGuard(s2, e2);
    assert s3.pendingGeocodes == 2;
    assert [e0, e1, e2][1..] == [e1, e2] && [e1, e2][1..] == [e2] && [e2][1..] == [];
  }

  /** Readings of 50, 30 and 10 metres with no completion in between, the 10 m one
      2 m away from the fix: each is accepted, but only the first and the last are
      geocoded. */
  lemma ThreeReadingsExample()
    ensures var events := [GetLocationTapped(AuthorizedWhenInUse, true),
                           LocationsUpdated([At(0.0, 50.0, 100.0)], 100.0, 0.0),
                           LocationsUpdated([At(0.000018, 30.0, 101.0)], 101.0, 2.0),
                           LocationsUpdated([At(0.000036, 10.0, 102.0)], 102.0, 2.0)];
      && Admissible(Initial, events)
      && Run(Initial, events).location == Some(At(0.000036, 10.0, 102.0))
      && Run(Initial, events).geocodeRequests == [At(0.0, 50.0, 100.0), At(0.000036, 10.0, 102.0)]
      && !Run(Initial, events).updatingLocation
  {
    var e0 := GetLocationTapped(AuthorizedWhenInUse, true);
    var e1 := LocationsUpdated([At(0.0, 50.0, 100.0)], 100.0, 0.0);
    var e2 := LocationsUpdated([At(0.000018, 30.0, 101.0)], 101.0, 2.0);
    var e3 := LocationsUpdated([At(0.000036, 10.0, 102.0)], 102.0, 2.0);
    var s1 := Step(Initial, e0);
    assert s1.deliveringUpdates && s1.desiredAccuracy == 10.0;
    var s2 := Step(s1, e1);
    assert s2.geocodeRequests == [At(0.0, 50.0, 100.0)] && s2.performingReverseGeocoding;
    var s3 := Step(s2, e2);
    assert s3.geocodeRequests == [At(0.0, 50.0, 100.0)] && s3.deliveringUpdates;
    var s4 := Step(s3, e3);
    assert s4.geocodeRequests == [At(0.0, 50.0, 100.0), At(0.000036, 10.0, 102.0)];
    assert [e0, e1, e2, e3][1..] == [e1, e2, e3] && [e1, e2, e3][1..] == [e2, e3];
    assert [e2, e3][1..] == [e3] && [e3][1..] == [];
  }

  /** The same readings with the 10 m one at the very place of the 30 m fix: the flag
      is not cleared, the guard holds, and only the 50 m reading is geocoded. */
  lemma ThreeReadingsSamePlaceExample()
    ensures var events := [GetLocationTapped(AuthorizedWhenInUse, true),
                           LocationsUpdated([At(0.0, 50.0, 100.0)], 100.0, 0.0),
                           LocationsUpdated([At(0.000018, 30.0, 101.0)], 101.0, 2.0),
                           LocationsUpdated([At(0.000018, 10.0, 102.0)], 102.0, 0.0)];
      && Admissible(Initial, events)
      && Run(Initial, events).location == Some(At(0.000018, 10.0, 102.0))
      && Run(Initial, events).geocodeRequests == [At(0.0, 50.0, 100.0)]
      && Run(Initial, events).pendingGeocodes == 1
      && !Run(Initial, events).updatingLocation
  {
    var e0 := GetLocationTapped(AuthorizedWhenInUse, true);
    var e1 := LocationsUpdated([At(0.0, 50.0, 100.0)], 100.0, 0.0);
    var e2 := LocationsUpdated([At(0.000018, 30.0, 101.0)], 101.0, 2.0);
    var e3 := LocationsUpdated([At(0.000018, 10.0, 102.0)], 102.0, 0.0);
    var s1 := Step(Initial, e0);
    assert s1.deliveringUpdates && s1.desiredAccuracy == 10.0;
    var s2 := Step(s1, e1);
    assert s2.geocodeRequests == [At(0.0, 50.0, 100.0)] && s2.performingReverseGeocoding;
    var s3 := Step(s2, e2);
    assert s3.geocodeRequests == [At(0.0, 50.0, 100.0)] && s3.performingReverseGeocoding;
    var s4 := Step(s3, e3);
    assert s4.geocodeRequests == [At(0.0, 50.0, 100.0)] && s4.pendingGeocodes == 1;
    assert [e0, e1, e2, e3][1..] == [e1, e2, e3] && [e1, e2, e3][1..] == [e2, e3];
    assert [e2, e3][1..] == [e3] && [e3][1..] == [];
  }
}
