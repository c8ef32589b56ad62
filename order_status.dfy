/** The closed, ordered enumeration of order statuses. */
module OrderStatuses {

  /** The six statuses, in declaration order: the cart, then the kitchen
      workflow, then the final state. */
  datatype OrderStatus = Draft | Received | InPreparation | Ready | OnTheWay | Delivered

  /** Position of a status in the declaration order (the enum's ordinal). */
  function Ordinal(s: OrderStatus): (n: nat)
    ensures n < 6
    ensures n == 0 <==> s == Draft
    ensures n == 5 <==> s == Delivered
  {
    match s
    case Draft => 0
    case Received => 1
    case InPreparation => 2
    case Ready => 3
    case OnTheWay => 4
    case Delivered => 5
  }

  /** The status at a position of the declaration order. */
  function FromOrdinal(n: nat): (s: OrderStatus)
    requires n < 6
    ensures Ordinal(s) == n
  {
    if n == 0 then Draft
    else if n == 1 then Received
    else if n == 2 then InPreparation
    else if n == 3 then Ready
    else if n == 4 then OnTheWay
    else Delivered
  }

  /** Every status, listed once. */
  const AllStatuses: set<OrderStatus> := {Draft, Received, InPreparation, Ready, OnTheWay, Delivered}

  /** The enumeration is closed and has exactly six values: Ordinal is a
      bijection between the statuses and 0..5. */
  lemma StatusesAreExactlySix(s: OrderStatus, t: OrderStatus)
    ensures s in AllStatuses
    ensures FromOrdinal(Ordinal(s)) == s
    ensures Ordinal(s) == Ordinal(t) ==> s == t
    ensures |AllStatuses| == 6
  {
  }

  /** Declaration order: s is declared strictly before t. */
  predicate Precedes(s: OrderStatus, t: OrderStatus) {
    Ordinal(s) < Ordinal(t)
  }

  /** Declaration order is a strict total order with Draft first and
      Delivered last. */
  lemma DeclarationOrderIsTotal(s: OrderStatus, t: OrderStatus, u: OrderStatus)
    ensures !Precedes(s, s)
    ensures Precedes(s, t) && Precedes(t, u) ==> Precedes(s, u)
    ensures s == t || Precedes(s, t) || Precedes(t, s)
    ensures s != Draft ==> Precedes(Draft, s)
    ensures s != Delivered ==> Precedes(s, Delivered)
    ensures !Precedes(s, Draft) && !Precedes(Delivered, s)
  {
  }
}
