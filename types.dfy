/** The column types of the storage layer's metadata. */
module Metadata {
  datatype ColumnType = Uuid | Int | Long | Float | Double | Timestamp | Text | Bool
}
