/** Optional values, standing for TypeScript's `T | undefined` and `T | null`. */
module Wrappers {

  datatype Option<+T> = None | Some(value: T) {

    /** The wrapped value, or `default` when there is none (the `??` / `||` fallback). */
    function GetOr(default: T): T {
      match this
      case Some(v) => v
      case None => default
    }
  }

  /**
   * One key of a `Partial<Record>` patch object: either the key is absent
   * (`Keep`) or it is present with a value (`Put`), which then overrides the
   * record's value in an object spread `{ ...record, ...patch }`.
   */
  datatype Upd<+T> = Keep | Put(value: T) {

    function Over(current: T): T {
      match this
      case Keep => current
      case Put(v) => v
    }
  }
}
