/**
 * What the record models share: pydantic's field validation, which rejects a
 * record naming every field whose constraint fails, and the default list of
 * available days.
 */
module Validation {

  /** A rejected record, with the names of the fields that failed validation, in declaration order. */
  datatype ValidationError = ValidationError(fields: seq<string>)

  /** `[name]` when the constraint on field `name` fails, otherwise nothing. */
  function Check(ok: bool, name: string): seq<string> {
    if ok then [] else [name]
  }

  /** The default of `available_days`: Monday to Friday. */
  const Weekdays: seq<string> := ["월", "화", "수", "목", "금"]
}
