/** Optional values: a Python value that may be None, a dictionary key that may be missing,
    or a computation that may raise. */
module Wrappers {

  datatype Option<+T> = None | Some(value: T) {

    /** The value, or `default` when absent (Python's `d.get(key, default)`). */
    function GetOr(default: T): (r: T)
      ensures Some? ==> r == value
      ensures None? ==> r == default
    {
      match this
      case Some(v) => v
      case None => default
    }
  }
}

/** Calendar months as the database and `datetime` report them. */
module Calendar {

  /** `datetime.month` and `strftime('%m')` always lie in 1..12. */
  type Month = m: int | 1 <= m <= 12 witness 1

  /** Chart labels for the months, January first. */
  const MonthNames: seq<string> :=
    ["Jan", "Feb", "Mar", "Apr", "May", "Jun", "Jul", "Aug", "Sep", "Oct", "Nov", "Dec"]
}
