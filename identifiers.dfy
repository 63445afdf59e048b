/** Typed identifiers and timestamps.  Every identifier wraps a 128-bit UUID
    value; two identifiers are equal exactly when their values are equal. */
module Identifiers {

  newtype Uuid = x: int | 0 <= x < 0x1_0000_0000_0000_0000_0000_0000_0000_0000

  datatype WorkspaceId = WorkspaceId(value: Uuid)
  datatype BoardId = BoardId(value: Uuid)
  datatype ColumnId = ColumnId(value: Uuid)
  datatype CardId = CardId(value: Uuid)

  /** A point in time; the clock itself is not modelled, callers pass `now`. */
  type Instant = int
}
