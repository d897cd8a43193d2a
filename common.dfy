/** Values shared by the front end and the diary resource. */
module Common {

  datatype Option<+T> = None | Some(value: T)
  {
    function GetOr(default: T): T
    {
      match this
      case Some(v) => v
      case None => default
    }
  }

  /** Identifiers assigned by the database: auto-increment keys, so never 0
      (JavaScript would treat 0 as "no id"). */
  type Id = x: int | x >= 1 witness 1

  /** A calendar date, the value of a `YYYY-MM-DD` string. */
  datatype Date = Date(year: int, month: int, day: int)

  /** `a` is a strictly earlier day than `b` (chronological, i.e. lexicographic on
      year, month, day). */
  predicate Earlier(a: Date, b: Date)
  {
    a.year < b.year
    || (a.year == b.year && (a.month < b.month || (a.month == b.month && a.day < b.day)))
  }

  lemma EarlierIsStrictTotalOrder(a: Date, b: Date, c: Date)
    ensures !Earlier(a, a)
    ensures Earlier(a, b) ==> !Earlier(b, a)
    ensures Earlier(a, b) && Earlier(b, c) ==> Earlier(a, c)
    ensures a != b ==> Earlier(a, b) || Earlier(b, a)
  {
  }

  /** No element occurs twice. */
  predicate Distinct<T(==)>(s: seq<T>)
  {
    forall j, k :: 0 <= j < k < |s| ==> s[j] != s[k]
  }
}
