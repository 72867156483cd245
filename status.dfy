/** The three-tier status every sensor reading is classified into, with the
    severity order safe < warning < critical that the route's nested
    conditionals imply: each classifier tests the critical bound first, then the
    warning bound, and falls through to safe. */
module SensorStatus {

  datatype Status = Safe | Warning | Critical

  /** Position of a status in the severity order. */
  function Rank(s: Status): (n: nat)
    ensures n <= 2
    ensures n == 0 <==> s == Safe
    ensures n == 2 <==> s == Critical
  {
    match s
    case Safe => 0
    case Warning => 1
    case Critical => 2
  }

  /** `a` is no more severe than `b`. */
  function AtMost(a: Status, b: Status): (noWorse: bool)
    ensures noWorse <==> a == b || a == Safe || b == Critical
  {
    Rank(a) <= Rank(b)
  }

  /** Distinct statuses have distinct ranks, so the order is on statuses, not only on ranks. */
  lemma RankInjective(a: Status, b: Status)
    ensures Rank(a) == Rank(b) <==> a == b
  {
  }

  /** Safe is the least and Critical the greatest element of the severity order. */
  lemma SeverityBounds(s: Status)
    ensures AtMost(Safe, s) && AtMost(s, Critical)
    ensures AtMost(s, Safe) <==> s == Safe
    ensures AtMost(Critical, s) <==> s == Critical
  {
  }

  /** The severity order is a total order. */
  lemma AtMostTotalOrder(a: Status, b: Status, c: Status)
    ensures AtMost(a, a)
    ensures AtMost(a, b) && AtMost(b, a) ==> a == b
    ensures AtMost(a, b) && AtMost(b, c) ==> AtMost(a, c)
    ensures AtMost(a, b) || AtMost(b, a)
  {
  }
}
