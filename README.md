# LocationTracker controllers, modelled in Dafny

LocationTracker is a small iOS app. It gets the device's position, reverse-geocodes it into an
address, and lets the user tag the place with a description, a category and a date. This project
models the decision logic of its three view controllers. The platform objects (CLLocationManager,
CLGeocoder, UIKit tables, CoreData records) are replaced by plain values and events.

- `CurrentLocation` (CurrentLocationViewController.swift) models the acquisition state machine.
  Each callback is a pure transition function on `Acquisition`: `getLocation`,
  `didUpdateLocations`, `didFailWithError`, `didTimeOut`, the reverse-geocode completion, and
  start/stop. `Acquisition` holds the controller's fields, plus the state of the location manager
  (delivering updates or not, desired accuracy), of the geocoder (requests issued, requests
  outstanding) and of the run loop (timers still waiting whose reference was overwritten). The class `CurrentLocationViewController` makes the same updates field by field,
  as the Swift code does, and each method is proved to agree with its function. This file also
  holds the label texts chosen by `updateLabels` and the two-line address formatter.
- `CurrentLocationTraces` runs sequences of callbacks. It proves an invariant of every reachable
  state and the properties that span several callbacks:
  - the fix only ever gets strictly more precise;
  - once the manager is detached, nothing changes the fix until the next `getLocation`;
  - an accepted reading within the desired accuracy stays the fix until the next `getLocation`;
  - at most one geocode request is in flight, with one exception. On a terminal acceptance at a
    positive distance, the code clears `performingReverseGeocoding` just before it tests the flag,
    so a second request can be issued while the first is outstanding. The model keeps this
    behaviour and shows it on a concrete run (`GuardHoleExample`).
- `CategoryPicker` (CategoryPickerViewController.swift) holds the fixed category list, the
  linear search with `break` in `viewDidLoad`, the checkmark rule, row selection and the
  "PickedCategory" segue.
- `LocationDetails` (LocationDetailsViewController.swift) holds the editor. Assigning
  `locationToEdit` copies a record's fields into the editor. `done()` writes them into the edited
  record or a new one. It also holds the category unwind, the one-line address formatter, and the
  row tests of `willSelectRowAt` and `hideKeyboard`.
- `Placemarks` holds what both formatters share: every present field is appended in a fixed
  order, followed by a fixed suffix (`Render`).

Numbers the app keeps as `Double` (accuracy, distance, time) are `real` here. Time is seconds on
one clock. The current time `now` and the distance from a reading to the fix come in with each
reading event.

Behaviours of the code worth knowing:
- A geocode completion is not ignored after acquisition has stopped. It always records its result
  and clears `performingReverseGeocoding`.
- With readings of 50, 30 and 10 metres and no completion in between, the code issues two
  geocode requests (for 50 and for 10), not three, when the 10 m reading is at a positive
  distance from the current fix (`ThreeReadingsExample`). At distance zero it issues only the
  one for 50 (`ThreeReadingsSamePlaceExample`).
- The time-out timer is one-shot. When it fires after a fix has arrived, `didTimeOut` does
  nothing and updating goes on with no timer waiting (`TimeOutWithFixKeepsSearching`).

## Model

| member | source | states |
|---|---|---|
| `CurrentLocation.Started` | Locations/CurrentLocationViewController.swift:232-240 | with services enabled: updating, attached to the manager, ten-metre accuracy, a 60-second timer armed, and a timer still waiting becomes stray rather than invalidated; with services disabled: nothing changes; the fix and the geocoding state are never touched |
| `CurrentLocation.Stopped` | Locations/CurrentLocationViewController.swift:241-250 | afterwards not updating; a no-op when not updating; otherwise detaches from the manager and invalidates the timer if there is one; nothing else changes |
| `CurrentLocation.Authorize` | Locations/CurrentLocationViewController.swift:37-45 | not determined: request authorization; denied or restricted: show the alert; authorized: proceed (each an if-and-only-if) |
| `CurrentLocation.OnGetLocation` | Locations/CurrentLocationViewController.swift:35-51 | when the gate stops it, nothing changes; otherwise placemark and geocoding error are cleared, the old fix and its error are kept as the baseline, and the manager is started as `Started` says |
| `CurrentLocation.Distance` | Locations/CurrentLocationViewController.swift:93-96 | with no fix the distance is positive and at least the same-place threshold; with a fix it is the platform's distance |
| `CurrentLocation.OnReadings` | Locations/CurrentLocationViewController.swift:81-134 | readings older than 5 s or with negative accuracy change nothing; a valid reading becomes the fix exactly when there is none or it is strictly more precise, and this clears the location error; the fix's accuracy never grows; a terminal acceptance (accuracy within the desired one) stops updating, and a non-terminal one leaves the manager untouched; at most one geocode request per reading, only for an accepted reading, always when none was in flight, and with one already in flight only on a terminal acceptance at positive distance; after an acceptance the in-flight flag is set; placemark and geocoding error are untouched; a non-improving reading less than 1 m away and more than 10 s after the fix stops the search, and any other non-improving reading changes nothing |
| `CurrentLocation.OnFailure` | Locations/CurrentLocationViewController.swift:72-80 | a `locationUnknown` code changes nothing; any other error is recorded and stops updating, keeping the fix and the geocoding state |
| `CurrentLocation.Fire` | Locations/CurrentLocationViewController.swift:238 | the one-shot timer that fires is spent: `timer` becomes fired, or one stray timer fewer waits; nothing else changes |
| `CurrentLocation.OnTimeOut` | Locations/CurrentLocationViewController.swift:252-258 | with a fix nothing changes; without one the search stops and the time-out error is recorded |
| `CurrentLocation.OnGeocoded` | Locations/CurrentLocationViewController.swift:115-124 | always clears the in-flight flag and records the error; a placemark is kept exactly when there is no error and a non-empty result, and it is the last one; one request fewer is outstanding; fix and manager untouched |
| `CurrentLocation.TwoLineAddress` | Locations/CurrentLocationViewController.swift:207-231 | the address text always contains the newline that separates its two lines |
| `CurrentLocation.TwoLineAddressLines` | Locations/CurrentLocationViewController.swift:207-231 | when the house number and street hold no newline, splitting the text at its first newline gives back line 1 (house number, street) and line 2 (city, state, postal code) |
| `CurrentLocation.StringFromPlacemark` | Locations/CurrentLocationViewController.swift:207-231 | the `line1`/`line2` appends produce `TwoLineAddress`, the two lines of present fields with their suffixes |
| `CurrentLocation.AddressMessage` | Locations/CurrentLocationViewController.swift:162-170 | the address label with a fix: the placemark's text if any; otherwise "Searching For Addess..." exactly while geocoding, then "Error Finding Address" exactly after a geocoding error, else "No Address Found" |
| `CurrentLocation.StatusMessage` | Locations/CurrentLocationViewController.swift:177-194 | the message without a fix: "Location Services Disabled" exactly for a denial error in the CoreLocation domain or no error with services off; "Error Getting Location" exactly for any other error; "Searching..." or the tap prompt otherwise, as updating is on or off |
| `CurrentLocation.UpdateLabels` | Locations/CurrentLocationViewController.swift:155-205 | the tag button is hidden, the message is non-empty and the address is empty, each exactly when there is no fix; the get button reads "Stop" exactly while updating |
| `CurrentLocation.CurrentLocationViewController.constructor` | Locations/CurrentLocationViewController.swift:15-23 | the controller starts in `Initial`: no fix, not updating, no errors, no placemark, no timer |
| `CurrentLocation.CurrentLocationViewController.GetLocation` | Locations/CurrentLocationViewController.swift:35-51 | returns the gate's outcome; the new state is `OnGetLocation` of the old |
| `CurrentLocation.CurrentLocationViewController.DidFailWithError` | Locations/CurrentLocationViewController.swift:72-80 | the new state is `OnFailure` of the old |
| `CurrentLocation.CurrentLocationViewController.DidUpdateLocations` | Locations/CurrentLocationViewController.swift:81-134 | the new state is `OnReadings` of the old for the last reading, including the in-flight flag cleared before its test |
| `CurrentLocation.CurrentLocationViewController.ReverseGeocodeLocation` | Locations/CurrentLocationViewController.swift:112-115 | the reading is appended to the requests issued and one more request is outstanding |
| `CurrentLocation.CurrentLocationViewController.ReverseGeocodeCompleted` | Locations/CurrentLocationViewController.swift:115-124 | the new state is `OnGeocoded` of the old |
| `CurrentLocation.CurrentLocationViewController.StartLocationManager` | Locations/CurrentLocationViewController.swift:232-240 | the new state is `Started` of the old |
| `CurrentLocation.CurrentLocationViewController.StopLocationManager` | Locations/CurrentLocationViewController.swift:241-250 | the new state is `Stopped` of the old |
| `CurrentLocation.CurrentLocationViewController.DidTimeOut` | Locations/CurrentLocationViewController.swift:238-258 | a waiting timer fires: the new state is `OnTimeOut` of `Fire` of the old |
| `CurrentLocationTraces.InitialInv` | Locations/CurrentLocationViewController.swift:15-23 | the initial state satisfies the invariant |
| `CurrentLocationTraces.ReadingsKeepInv` | Locations/CurrentLocationViewController.swift:99-124 | a delivered reading keeps the invariant: geocoded readings stay strictly improving and none is more precise than the fix |
| `CurrentLocationTraces.StepKeepsInv` | Locations/CurrentLocationViewController.swift:35-258 | every deliverable callback keeps the invariant: `updatingLocation` matches the manager and a scheduled 60 s timer, waiting or already fired, and a waiting timer means updating; the in-flight flag implies an outstanding request; no requests without a fix |
| `CurrentLocationTraces.RunKeepsInv` | Locations/CurrentLocationViewController.swift:35-258 | the invariant holds after any admissible sequence of callbacks |
| `CurrentLocationTraces.FixOnlyImproves` | Locations/CurrentLocationViewController.swift:99-102 | along any run, a fix is kept or replaced by a strictly more precise one, never by an equally precise one |
| `CurrentLocationTraces.DetachedKeepsFix` | Locations/CurrentLocationViewController.swift:241-250 | once detached from the manager, no callback short of a new getLocation changes the fix or restarts updating |
| `CurrentLocationTraces.AcceptedWithinAccuracyIsFinal` | Locations/CurrentLocationViewController.swift:104-110 | after a terminal acceptance, the reading remains the fix and updating stays off for every later run without getLocation |
| `CurrentLocationTraces.TimeOutWithoutFix` | Locations/CurrentLocationViewController.swift:252-258 | a time-out before any fix, from either timer, stops the search, records the time-out error, leaves no timer waiting in `timer` and no geocode outstanding |
| `CurrentLocationTraces.TimeOutWithFixKeepsSearching` | Locations/CurrentLocationViewController.swift:238-258 | the timer firing after a fix leaves the fix, its error and updating as they were, with the timer spent |
| `CurrentLocationTraces.StepKeepsOneInFlight` | Locations/CurrentLocationViewController.swift:112-124 | when at most one request is outstanding, and the flag says whether there is one, every callback but the guard bypass keeps it so |
| `CurrentLocationTraces.BypassAddsRequest` | Locations/CurrentLocationViewController.swift:104-115 | the bypass adds a second outstanding request and leaves the flag set |
| `CurrentLocationTraces.SingleFlightAlongRun` | Locations/CurrentLocationViewController.swift:107-124 | along a run that never bypasses the guard, at most one request is ever outstanding |
| `CurrentLocationTraces.GuardHoleExample` | Locations/CurrentLocationViewController.swift:104-124 | a 50 m reading and then an 8 m reading at a positive distance (3 m) from the fix, with no completion in between, leave two requests outstanding |
| `CurrentLocationTraces.ThreeReadingsExample` | Locations/CurrentLocationViewController.swift:99-124 | readings of 50, 30 and 10 m, the 10 m one at a positive distance (2 m) from the fix, end with the 10 m fix, updating off, and requests for the 50 m and 10 m readings only |
| `CurrentLocationTraces.ThreeReadingsSamePlaceExample` | Locations/CurrentLocationViewController.swift:99-124 | the same readings with the 10 m one at the place of the 30 m fix (distance zero) end with the 10 m fix, updating off, and a single request, for the 50 m reading |
| `Placemarks.Piece` | Locations/CurrentLocationViewController.swift:209-229 | a present field is appended unaltered, followed by its suffix; an absent one appends nothing |
| `Placemarks.Render` | Locations/LocationDetailsViewController.swift:133-155 | the appends of the present parts in order; with no field present the text is empty |
| `Placemarks.RenderPlacesPart` | Locations/LocationDetailsViewController.swift:133-155 | each present field appears unaltered, followed by its suffix, right where the text of the preceding fields ends |
| `CategoryPicker.CategoryList` | Locations/CategoryPickerViewController.swift:14-25 | 11 pairwise-distinct names with "No Category" first |
| `CategoryPicker.FirstIndexOf` | Locations/CategoryPickerViewController.swift:36-41 | the result is the first position holding the name, or none when no position holds it |
| `CategoryPicker.NumberOfRows` | Locations/CategoryPickerViewController.swift:45-47 | eleven rows in every section, and the row the search in `viewDidLoad` finds for any name is one of them, so the selected row is always a row the table shows |
| `CategoryPicker.AccessoryFor` | Locations/CategoryPickerViewController.swift:55-59 | a row is checkmarked exactly when it is the row the search finds for the selected name |
| `CategoryPicker.AtMostOneCheckmark` | Locations/CategoryPickerViewController.swift:55-59 | two checkmarked rows are the same row |
| `CategoryPicker.CategoryPickerViewController.constructor` | Locations/CategoryPickerViewController.swift:12-31 | an empty selected name and the empty index path |
| `CategoryPicker.CategoryPickerViewController.ViewDidLoad` | Locations/CategoryPickerViewController.swift:33-42 | selects row i of section 0 for the first i whose category is the selected name; with no match the selection is unchanged |
| `CategoryPicker.CategoryPickerViewController.DidSelectRow` | Locations/CategoryPickerViewController.swift:63-74 | a tap on another row selects it; a tap on the selected row changes nothing; with the empty path selected, reading its row traps |
| `CategoryPicker.SelectTwice` | Locations/CategoryPickerViewController.swift:63-74 | tapping a row twice gives the same selection as tapping it once |
| `CategoryPicker.CategoryPickerViewController.PrepareForSegue` | Locations/CategoryPickerViewController.swift:77-84 | on "PickedCategory" with a tapped row, the selected name becomes that row's category; otherwise it is unchanged |
| `LocationDetails.Location.constructor` | Locations/LocationDetailsViewController.swift:85 | `Location(context:)` makes a blank record: empty description and category, zero coordinates and date, no placemark; `done()` then writes all six |
| `LocationDetails.LocationDetailsViewController.constructor` | Locations/LocationDetailsViewController.swift:41-48 | nothing to edit, empty description, coordinate (0, 0), no placemark, "No Category", the creation time as date |
| `LocationDetails.LocationDetailsViewController.SetLocationToEdit` | Locations/LocationDetailsViewController.swift:30-39 | a record's description, category, date, coordinate and placemark are copied into the editor; nil leaves them unchanged |
| `LocationDetails.LocationDetailsViewController.Done` | Locations/LocationDetailsViewController.swift:75-93 | writes all six fields into the edited record with "Updated", or into a fresh record with "Tagged"; the description comes from the text view |
| `LocationDetails.LocationDetailsViewController.CategoryPickerDidPickCategory` | Locations/LocationDetailsViewController.swift:111-116 | the category becomes the picker's selected name |
| `LocationDetails.SaveAndReopen` | Locations/LocationDetailsViewController.swift:30-93 | saving with done() and then editing the saved record restores the editor's fields, with the text view's description |
| `LocationDetails.PickCategory` | Locations/LocationDetailsViewController.swift:111-116 | picking a row and unwinding sets the editor's category to that row's name |
| `LocationDetails.DefaultCategoryIsFirstRow` | Locations/LocationDetailsViewController.swift:46 | the editor's default category is the picker's first row |
| `LocationDetails.WillSelectRow` | Locations/LocationDetailsViewController.swift:119-125 | the index path itself for sections 0 and 1, nil for every other section |
| `LocationDetails.ResignsKeyboard` | Locations/LocationDetailsViewController.swift:161-169 | the keyboard stays up exactly for a tap on row 0 of section 0; any other tap, also one outside every row, resigns it |
| `LocationDetails.OneLineAddress` | Locations/LocationDetailsViewController.swift:133-155 | the address is a single line whenever the fields hold no newline |
| `LocationDetails.OneLineAddressEmpty` | Locations/LocationDetailsViewController.swift:133-155 | the address is empty exactly when no field is present, except possibly an empty country |
| `LocationDetails.OneLineAddressOfFullPlacemark` | Locations/LocationDetailsViewController.swift:133-155 | with every field present: house number " " street ", " city ", " state " " postal code ", " country |

## Left out

- CLLocationManager, CLGeocoder, the authorization query and `CLLocation.distance(from:)` are
  platform services. Readings, the distance to the fix, the authorization status, the
  location-services switch and geocoding results are inputs to the events.
- The clock and the 60-second wait. The timer `timer` refers to is a `TimerState` (waiting,
  fired or invalidated). Timers left waiting when a second `getLocation` overwrote `timer` are
  counted. A firing is the `TimerFired` event, which may come whenever some timer is waiting. The
  model does not order firings by time.
- `Double` rounding. Accuracy, distance, time and coordinates are exact reals.
- The coordinate texts (`%.8f`), the date text (`DateFormatter`), the labels set in `viewDidLoad`,
  alerts, `print`, the HUD, navigation (`popViewController`, the "TagLocation" and "PickCategory"
  segues) and `becomeFirstResponder` in the details screen's `didSelectRowAt`. These are UI
  effects. Only the chosen strings and flags are modelled.
- Cell accessories set directly in the picker's `didSelectRowAt` are UI state. The model keeps
  only `selectedIndexPath`.
- CoreData. `managedObjectContext.save()`, `fatalCoreDataError` and `fetchRequest` are
  persistence I/O. A record is a `Location` object with the six attributes of
  Location+CoreDataProperties.swift. The attribute defaults declared in the CoreData model file
  are not part of this model; a new record starts with empty texts and zeros. Functions.swift and HUDView.swift are not part of this model.
- The geocoder's own handling of a request made while another is in progress. Its completion can
  be any result.
