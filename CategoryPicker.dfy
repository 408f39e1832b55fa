/** The category picker: a fixed list of category names shown one per row, the
    row of the current category found by a linear search when the screen loads,
    a single checkmark, and the chosen name handed back through a segue. */
module CategoryPicker {
  import opened Wrappers
  import opened IndexPaths

  const DefaultCategory := "No Category"

  /** The rows of the picker, in order. */
  const Categories: seq<string> := [
    "No Category",
    "Apple Store",
    "Bar",
    "Bookstore",
    "Club",
    "Grocery Store",
    "Historic Building",
    "House",
    "Icecream Vendor",
    "Landmark",
    "Park"]

  const PickedCategorySegue := "PickedCategory"

  predicate Distinct<T(==)>(s: seq<T>)
  {
    forall i, j :: 0 <= i < j < |s| ==> s[i] != s[j]
  }

  lemma CategoryList()
    ensures |Categories| == 11 && Categories[0] == DefaultCategory
    ensures Distinct(Categories)
  {
  }

  /** The first position of `x` in `s`, if any. */
  function FirstIndexOf<T(==)>(s: seq<T>, x: T): (r: Option<nat>)
    ensures r.Some? ==> r.value < |s| && s[r.value] == x && forall j :: 0 <= j < r.value ==> s[j] != x
    ensures r.None? ==> forall j :: 0 <= j < |s| ==> s[j] != x
  {
    if s == [] then None
    else if s[0] == x then Some(0)
    else match FirstIndexOf(s[1..], x)
      case None => None
      case Some(i) => Some(i + 1)
  }

  /** tableView(_:numberOfRowsInSection:): eleven rows, whatever the section, and
      the row the search in viewDidLoad finds for any name is one the table shows. */
  function NumberOfRows(section: int): (n: nat)
    ensures n == 11
    ensures forall name :: FirstIndexOf(Categories, name).Some? ==> FirstIndexOf(Categories, name).value < n
  {
    CategoryList();
    |Categories|
  }

  datatype Accessory = NoAccessory | Checkmark

  /** The accessory cellForRowAt gives a row: a checkmark when its name is the
      selected one, which, the names being distinct, is the row the search in
      viewDidLoad finds; no row is checked when the name is not in the list. */
  function AccessoryFor(row: nat, selectedCategoryName: string): (a: Accessory)
    requires row < NumberOfRows(0)
    ensures a == Checkmark <==> FirstIndexOf(Categories, selectedCategoryName) == Some(row)
  {
    CategoryList();
    if Categories[row] == selectedCategoryName then Checkmark else NoAccessory
  }

  /** At most one row carries the checkmark. */
  lemma AtMostOneCheckmark(i: nat, j: nat, selectedCategoryName: string)
    requires i < NumberOfRows(0) && j < NumberOfRows(0)
    requires AccessoryFor(i, selectedCategoryName) == Checkmark
    requires AccessoryFor(j, selectedCategoryName) == Checkmark
    ensures i == j
  {
  }

  class CategoryPickerViewController {
    var selectedCategoryName: string
    var selectedIndexPath: IndexPath

    constructor ()
      ensures selectedCategoryName == "" && selectedIndexPath == EmptyPath
    {
      selectedCategoryName := "";
      selectedIndexPath := EmptyPath;
    }

    /** Selects the row of the first category equal to the selected name; with no
        such category the selection stays as it was. */
    method ViewDidLoad()
      modifies this`selectedIndexPath
      ensures FirstIndexOf(Categories, selectedCategoryName).Some? ==>
        selectedIndexPath == RowPath(0, FirstIndexOf(Categories, selectedCategoryName).value)
      ensures FirstIndexOf(Categories, selectedCategoryName).None? ==>
        selectedIndexPath == old(selectedIndexPath)
    {
      for i := 0 to |Categories|
        invariant selectedIndexPath == old(selectedIndexPath)
        invariant forall j :: 0 <= j < i ==> Categories[j] != selectedCategoryName
      {
        if Categories[i] == selectedCategoryName {
          selectedIndexPath := RowPath(0, i);
          break;
        }
      }
    }

    /** didSelectRowAt: a tap on another row moves the selection there; a tap on the
        selected row changes nothing. Before any row was selected, `selectedIndexPath`
        is the empty path, whose row UIKit refuses to read: `trapped`. */
    method DidSelectRow(indexPath: IndexPath) returns (trapped: bool)
      requires indexPath.RowPath?
      modifies this`selectedIndexPath
      ensures trapped <==> old(selectedIndexPath).EmptyPath?
      ensures !trapped && indexPath.row != old(selectedIndexPath).row ==> selectedIndexPath == indexPath
      ensures trapped || indexPath.row == old(selectedIndexPath).row ==> selectedIndexPath == old(selectedIndexPath)
    {
      if selectedIndexPath.EmptyPath? {
        trapped := true;
        return;
      }
      trapped := false;
      if indexPath.row != selectedIndexPath.row {
        selectedIndexPath := indexPath;
      }
    }

    /** prepare(for:sender:): on the "PickedCategory" segue, take the name of the
        tapped cell's row (`tappedRow` is None when the table has no path for it). */
    method PrepareForSegue(identifier: string, tappedRow: Option<nat>)
      requires tappedRow.Some? ==> tappedRow.value < NumberOfRows(0)
      modifies this`selectedCategoryName
      ensures identifier == PickedCategorySegue && tappedRow.Some? ==>
        selectedCategoryName == Categories[tappedRow.value]
      ensures identifier != PickedCategorySegue || tappedRow.None? ==>
        selectedCategoryName == old(selectedCategoryName)
    {
      if identifier == PickedCategorySegue {
        if tappedRow.Some? {
          selectedCategoryName := Categories[tappedRow.value];
        }
      }
    }
  }

  /** Tapping the same row twice selects it exactly as tapping it once does. */
  method SelectTwice(picker: CategoryPickerViewController, indexPath: IndexPath)
    requires indexPath.RowPath? && picker.selectedIndexPath.RowPath?
    modifies picker
    ensures picker.selectedIndexPath ==
      if indexPath.row != old(picker.selectedIndexPath).row then indexPath else old(picker.selectedIndexPath)
  {
    var first := picker.DidSelectRow(indexPath);
    ghost var afterFirst := picker.selectedIndexPath;
    var second := picker.DidSelectRow(indexPath);
    assert picker.selectedIndexPath == afterFirst;
  }
}
