/** UIKit's IndexPath as the table views use it: the empty path `IndexPath()` or a
    two-index path holding a section and a row. */
module IndexPaths {

  datatype IndexPath = EmptyPath | RowPath(section: int, row: int)
}
