/**
 * The severity ranks of the system. The enumeration itself is not part of
 * this model; its values are taken as given. CRITICAL and NOTSET are the
 * standard library's own ranks.
 */
module Levels {

  const NOTSET := 0
  const LOOP := 3
  const TRACE := 5
  const DEBUG := 10
  const INFO := 20
  const SUCCESS := 22
  const API := 25
  const WARNING := 30
  const ERROR := 40
  const CRITICAL := 50

  /**
   * The standard library's `Logger.isEnabledFor`: a record at `level` is
   * created when the process-wide `logging.disable` floor is below it and
   * the logger's effective level admits it.
   */
  predicate IsEnabledFor(level: int, effectiveLevel: int, disableFloor: int) {
    disableFloor < level && level >= effectiveLevel
  }

  /** A handler with minimum `floor` handles a record at `levelno`. */
  predicate Admits(floor: int, levelno: int) {
    levelno >= floor
  }
}
