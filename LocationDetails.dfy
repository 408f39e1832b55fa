/** The tag/edit screen: editor state copied from a stored record when one is
    being edited, written back into that record (or a new one) on Done, the
    category chosen in the picker, the one-line address, and which taps select a
    row or dismiss the keyboard. */
module LocationDetails {
  import opened Wrappers
  import opened IndexPaths
  import opened Placemarks
  import CategoryPicker

  const DefaultCategoryName := "No Category"
  const UpdatedHudText := "Updated"
  const TaggedHudText := "Tagged"

  /** The stored record (the Location managed object). */
  class Location {
    var locationDescription: string
    var category: string
    var latitude: real
    var longitude: real
    var date: real
    var placemark: Option<Placemark>

    /** Location(context:): a new, blank record in the store. */
    constructor ()
      ensures locationDescription == "" && category == ""
      ensures latitude == 0.0 && longitude == 0.0 && date == 0.0
      ensures placemark.None?
    {
      locationDescription, category := "", "";
      latitude, longitude, date := 0.0, 0.0, 0.0;
      placemark := None;
    }
  }

  class LocationDetailsViewController {
    var locationToEdit: Location?
    var descriptionText: string
    var coordinate: Coordinate
    var placemark: Option<Placemark>
    var categoryName: string
    var date: real

    /** A fresh editor: nothing to edit, empty description, the default category,
        and the creation time `now` as its date. */
    constructor (now: real)
      ensures locationToEdit == null && descriptionText == ""
      ensures coordinate == Coordinate(0.0, 0.0) && placemark.None?
      ensures categoryName == DefaultCategoryName && date == now
    {
      locationToEdit := null;
      descriptionText := "";
      coordinate := Coordinate(0.0, 0.0);
      placemark := None;
      categoryName := DefaultCategoryName;
      date := now;
    }

    /** Assigning `locationToEdit`, with its didSet observer: a record's fields are
        copied into the editor; assigning nil leaves them as they were. */
    method SetLocationToEdit(location: Location?)
      modifies this
      ensures locationToEdit == location
      ensures location != null ==>
        && descriptionText == location.locationDescription
        && categoryName == location.category
        && date == location.date
        && coordinate == Coordinate(location.latitude, location.longitude)
        && placemark == location.placemark
      ensures location == null ==>
        && descriptionText == old(descriptionText)
        && categoryName == old(categoryName)
        && date == old(date)
        && coordinate == old(coordinate)
        && placemark == old(placemark)
    {
      locationToEdit := location;
      if location != null {
        descriptionText := location.locationDescription;
        categoryName := location.category;
        date := location.date;
        coordinate := Coordinate(location.latitude, location.longitude);
        placemark := location.placemark;
      }
    }

    /** done(): write all six fields into the record being edited ("Updated") or into
        a new record ("Tagged"). `textViewText` is what the description text view
        holds at that moment. */
    method Done(textViewText: string) returns (record: Location, hudText: string)
      modifies locationToEdit
      ensures old(locationToEdit) != null ==> record == old(locationToEdit) && hudText == UpdatedHudText
      ensures old(locationToEdit) == null ==> fresh(record) && hudText == TaggedHudText
      ensures record.locationDescription == textViewText
      ensures record.category == categoryName
      ensures record.latitude == coordinate.latitude && record.longitude == coordinate.longitude
      ensures record.date == date
      ensures record.placemark == placemark
    {
      if locationToEdit != null {
        hudText := UpdatedHudText;
        record := locationToEdit;
      } else {
        hudText := TaggedHudText;
        record := new Location();
      }
      record.locationDescription := textViewText;
      record.category := categoryName;
      record.latitude := coordinate.latitude;
      record.longitude := coordinate.longitude;
      record.date := date;
      record.placemark := placemark;
    }

    /** The unwind action from the picker: take the picker's chosen name. */
    method CategoryPickerDidPickCategory(picker: CategoryPicker.CategoryPickerViewController)
      modifies this`categoryName
      ensures categoryName == picker.selectedCategoryName
    {
      categoryName := picker.selectedCategoryName;
    }
  }

  /** Saving with done() and opening the saved record in a new editor gives back
      the editor's fields, with the description the text view held. */
  method SaveAndReopen(editor: LocationDetailsViewController, textViewText: string, now: real)
    returns (reopened: LocationDetailsViewController)
    modifies editor.locationToEdit
    ensures reopened.locationToEdit != null
    ensures old(editor.locationToEdit) != null ==> reopened.locationToEdit == old(editor.locationToEdit)
    ensures reopened.descriptionText == textViewText
    ensures reopened.categoryName == editor.categoryName
    ensures reopened.coordinate == editor.coordinate
    ensures reopened.date == editor.date
    ensures reopened.placemark == editor.placemark
  {
    var record, hudText := editor.Done(textViewText);
    reopened := new LocationDetailsViewController(now);
    reopened.SetLocationToEdit(record);
  }

  /** Picking row `row` in the picker and unwinding sets the editor's category to that row's name. */
  method PickCategory(editor: LocationDetailsViewController, picker: CategoryPicker.CategoryPickerViewController, row: nat)
    requires row < |CategoryPicker.Categories|
    modifies editor, picker
    ensures editor.categoryName == CategoryPicker.Categories[row]
  {
    picker.PrepareForSegue(CategoryPicker.PickedCategorySegue, Some(row));
    editor.CategoryPickerDidPickCategory(picker);
  }

  /** A new editor's category is the picker's first row. */
  lemma DefaultCategoryIsFirstRow()
    ensures CategoryPicker.FirstIndexOf(CategoryPicker.Categories, DefaultCategoryName) == Some(0)
  {
  }

  /** tableView(_:willSelectRowAt:): rows of the first two sections can be selected. */
  function WillSelectRow(indexPath: IndexPath): (r: Option<IndexPath>)
    requires indexPath.RowPath?
    ensures r == Some(indexPath) || r == None
    ensures r == Some(indexPath) <==> indexPath.section == 0 || indexPath.section == 1
  {
    if indexPath.section == 0 || indexPath.section == 1 then Some(indexPath) else None
  }

  /** hideKeyboard: a tap resigns the keyboard unless it lands on the description
      row (section 0, row 0); `tapped` is None for a tap outside every row. */
  function ResignsKeyboard(tapped: Option<IndexPath>): (resign: bool)
    ensures !resign <==> tapped == Some(RowPath(0, 0))
  {
    !(tapped.Some? && tapped.value.RowPath? && tapped.value.section == 0 && tapped.value.row == 0)
  }

  /** The parts of the one-line address. */
  function DetailParts(p: Placemark): seq<Part>
  {
    [Part(p.subThoroughfare, " "), Part(p.thoroughfare, ", "), Part(p.locality, ", "),
     Part(p.administrativeArea, " "), Part(p.postalCode, ", "), Part(p.country, "")]
  }

  /** string(from:) of this screen: a single line whenever the fields hold no newline. */
  function OneLineAddress(p: Placemark): (text: string)
    ensures PartsWithoutNewline(DetailParts(p)) ==> NoNewline(text)
  {
    var parts := DetailParts(p);
    RenderWithoutNewline(parts);
    Render(parts)
  }

  /** The address is empty exactly when no field is present but possibly an empty country. */
  lemma OneLineAddressEmpty(p: Placemark)
    ensures OneLineAddress(p) == "" <==>
      && p.subThoroughfare.None? && p.thoroughfare.None? && p.locality.None?
      && p.administrativeArea.None? && p.postalCode.None?
      && (p.country.None? || p.country.value == "")
  {
    var parts := DetailParts(p);
    assert OneLineAddress(p) == Render(parts);
    RenderEmpty(parts);
    forall i | 0 <= i < 5 ensures Piece(parts[i]) == "" <==> parts[i].field.None? {
      if parts[i].field.Some? {
        assert |Piece(parts[i])| >= |parts[i].suffix| > 0;
      }
    }
    assert Piece(parts[5]) == (if p.country.Some? then p.country.value else "");
    assert (forall i :: 0 <= i < |parts| ==> Piece(parts[i]) == "") <==>
      (forall i :: 0 <= i < 5 ==> parts[i].field.None?) && Piece(parts[5]) == "";
    assert parts[0].field == p.subThoroughfare && parts[1].field == p.thoroughfare;
    assert parts[2].field == p.locality && parts[3].field == p.administrativeArea;
    assert parts[4].field == p.postalCode;
  }

  /** With every field present, the fields appear in order with their separators. */
  lemma OneLineAddressOfFullPlacemark(sub: string, street: string, city: string, state: string, zip: string, country: string)
    ensures OneLineAddress(Placemark(Some(sub), Some(street), Some(city), Some(state), Some(zip), Some(country)))
         == sub + " " + street + ", " + city + ", " + state + " " + zip + ", " + country
  {
    var parts := DetailParts(Placemark(Some(sub), Some(street), Some(city), Some(state), Some(zip), Some(country)));
    assert parts == [parts[0], parts[1], parts[2]] + [parts[3], parts[4], parts[5]];
    RenderAppend([parts[0], parts[1], parts[2]], [parts[3], parts[4], parts[5]]);
    RenderTriple(parts[0], parts[1], parts[2]);
    RenderTriple(parts[3], parts[4], parts[5]);
  }
}
