/** The kitchen workflow: the strictly adjacent forward and backward moves
    over the declaration order, the one-way gate at ON_THE_WAY, and the
    kitchen board filter. */
module Kitchen {
  import opened Outcomes
  import opened OrderStatuses
  import opened OrderModel

  /** The statuses shown on the kitchen board. */
  const KitchenStatuses: set<OrderStatus> := {Received, InPreparation, Ready, OnTheWay}

  /** The board holds exactly the statuses strictly between the cart and the
      final state, positions 1 to 4 of the declaration order. */
  lemma KitchenStatusesAreTheMiddle(s: OrderStatus)
    ensures s in KitchenStatuses <==> s != Draft && s != Delivered
    ensures s in KitchenStatuses <==> 1 <= Ordinal(s) <= 4
  {
  }

  /** The status nextStep moves to, or the failure it raises. */
  function NextStatus(s: OrderStatus): (r: Result<OrderStatus>)
    ensures r.Ok? <==> s == Received || s == InPreparation || s == Ready
    ensures r.Ok? ==> Ordinal(r.value) == Ordinal(s) + 1
    ensures r.Ok? ==> r.value != Draft && r.value != Delivered
    ensures r.Err? ==> r.error == (if s == Draft then NotYetFinalized else AlreadyOutOfKitchen)
    ensures r.Err? ==> r.error.Kind() == IllegalState
  {
    match s
    case Received => Ok(InPreparation)
    case InPreparation => Ok(Ready)
    case Ready => Ok(OnTheWay)
    case OnTheWay => Err(AlreadyOutOfKitchen)
    case Delivered => Err(AlreadyOutOfKitchen)
    case Draft => Err(NotYetFinalized)
  }

  /** The status previousStep moves to, or the failure it raises. */
  function PreviousStatus(s: OrderStatus): (r: Result<OrderStatus>)
    ensures r.Ok? <==> s == Received || s == InPreparation || s == Ready
    ensures r.Ok? ==> Ordinal(r.value) + 1 == Ordinal(s)
    ensures r.Ok? ==> r.value != OnTheWay && r.value != Delivered
    ensures r.Err? ==> r.error == (if s == Draft then AlreadyAtStart else CannotRegressAfterDispatch)
    ensures r.Err? ==> r.error.Kind() == IllegalState
  {
    match s
    case OnTheWay => Err(CannotRegressAfterDispatch)
    case Delivered => Err(CannotRegressAfterDispatch)
    case Ready => Ok(InPreparation)
    case InPreparation => Ok(Received)
    case Received => Ok(Draft)
    case Draft => Err(AlreadyAtStart)
  }

  /** Each move is the declaration-order neighbour: the successor for
      nextStep and the predecessor for previousStep. */
  lemma MovesAreAdjacent(s: OrderStatus)
    ensures NextStatus(s).Ok? ==> NextStatus(s).value == FromOrdinal(Ordinal(s) + 1)
    ensures PreviousStatus(s).Ok? ==> PreviousStatus(s).value == FromOrdinal(Ordinal(s) - 1)
  {
  }

  /** nextStep on the loaded order: only the status changes. */
  function NextStep(o: OrderState): (r: Result<OrderState>)
    ensures r.Ok? <==> NextStatus(o.status).Ok?
    ensures r.Ok? ==> r.value == o.(status := NextStatus(o.status).value)
    ensures r.Err? ==> r.error == NextStatus(o.status).error
  {
    match NextStatus(o.status)
    case Ok(s) => Ok(o.(status := s))
    case Err(e) => Err(e)
  }

  /** previousStep on the loaded order: only the status changes. */
  function PreviousStep(o: OrderState): (r: Result<OrderState>)
    ensures r.Ok? <==> PreviousStatus(o.status).Ok?
    ensures r.Ok? ==> r.value == o.(status := PreviousStatus(o.status).value)
    ensures r.Err? ==> r.error == PreviousStatus(o.status).error
  {
    match PreviousStatus(o.status)
    case Ok(s) => Ok(o.(status := s))
    case Err(e) => Err(e)
  }

  /** nextStep followed by previousStep gives back the order on RECEIVED and
      IN_PREPARATION, and previousStep followed by nextStep on IN_PREPARATION
      and READY. Each status where the first move succeeds and the second
      is allowed is covered, so the two moves are inverse on the board. */
  lemma StepsAreInverse(o: OrderState)
    ensures o.status == Received || o.status == InPreparation ==>
      NextStep(o).Ok? && PreviousStep(NextStep(o).value) == Ok(o)
    ensures o.status == InPreparation || o.status == Ready ==>
      PreviousStep(o).Ok? && NextStep(PreviousStep(o).value) == Ok(o)
    ensures NextStep(o).Ok? && PreviousStep(NextStep(o).value).Ok? ==> PreviousStep(NextStep(o).value) == Ok(o)
    ensures PreviousStep(o).Ok? && NextStep(PreviousStep(o).value).Ok? ==> NextStep(PreviousStep(o).value) == Ok(o)
  {
  }

  /** A kitchen request: nextStep or previousStep. */
  datatype Move = Next | Previous

  /** The status after a series of kitchen requests; a rejected request
      leaves the status as it was. */
  function Run(s: OrderStatus, moves: seq<Move>): OrderStatus
    decreases |moves|
  {
    if moves == [] then s
    else
      var step := if moves[0] == Next then NextStatus(s) else PreviousStatus(s);
      Run(if step.Ok? then step.value else s, moves[1..])
  }

  /** The one-way gate: once an order is ON_THE_WAY or DELIVERED, no series
      of kitchen requests changes its status. */
  lemma {:induction false} GateIsFinal(s: OrderStatus, moves: seq<Move>)
    requires s == OnTheWay || s == Delivered
    ensures Run(s, moves) == s
    decreases |moves|
  {
    if moves != [] {
      GateIsFinal(s, moves[1..]);
    }
  }

  /** Kitchen requests never deliver an order: DELIVERED is reached only
      through the administrative status override. */
  lemma {:induction false} KitchenNeverDelivers(s: OrderStatus, moves: seq<Move>)
    requires s != Delivered
    ensures Run(s, moves) != Delivered
    decreases |moves|
  {
    if moves != [] {
      var step := if moves[0] == Next then NextStatus(s) else PreviousStatus(s);
      KitchenNeverDelivers(if step.Ok? then step.value else s, moves[1..]);
    }
  }

  /** Kitchen requests never leave the cart: from DRAFT every request is
      rejected. */
  lemma {:induction false} DraftIsStuckForKitchen(moves: seq<Move>)
    ensures Run(Draft, moves) == Draft
    decreases |moves|
  {
    if moves != [] {
      DraftIsStuckForKitchen(moves[1..]);
    }
  }

  /** findKitchenOrders on a view of the repository: exactly the orders whose
      status is on the board, so never a cart and never a delivered order. */
  function KitchenOrders(orders: map<OrderId, OrderState>): (r: map<OrderId, OrderState>)
    ensures forall id :: id in r <==> id in orders && orders[id].status in KitchenStatuses
    ensures forall id :: id in r ==> r[id] == orders[id] && r[id].status != Draft && r[id].status != Delivered
  {
    WithStatusIn(orders, KitchenStatuses)
  }

  /** The carts, the kitchen board and the history (delivered orders) split
      the orders of the repository: every order is in exactly one of them. */
  lemma BoardCartsAndHistoryPartition(orders: map<OrderId, OrderState>)
    ensures var carts := WithStatusIn(orders, {Draft});
      var board := KitchenOrders(orders);
      var history := WithStatusIn(orders, {Delivered});
      && carts.Keys + board.Keys + history.Keys == orders.Keys
      && carts.Keys !! board.Keys && board.Keys !! history.Keys && carts.Keys !! history.Keys
  {
    var carts := WithStatusIn(orders, {Draft});
    var board := KitchenOrders(orders);
    var history := WithStatusIn(orders, {Delivered});
    forall id | id in orders
      ensures id in carts.Keys + board.Keys + history.Keys
    {
      KitchenStatusesAreTheMiddle(orders[id].status);
    }
  }

  /** The snapshot rule under the kitchen moves: nextStep keeps it, and so
      does previousStep except from RECEIVED, which hands back a cart that
      still carries the snapshots taken at finalization. */
  lemma KitchenMovesAndSnapshots(o: OrderState)
    requires SnapshotConsistent(o)
    ensures NextStep(o).Ok? ==> SnapshotConsistent(NextStep(o).value)
    ensures PreviousStep(o).Ok? && o.status != Received ==> SnapshotConsistent(PreviousStep(o).value)
    ensures o.status == Received ==>
      PreviousStep(o).Ok? && PreviousStep(o).value.status == Draft
      && PreviousStep(o).value.clientSnapshotName == o.clientSnapshotName
      && !SnapshotConsistent(PreviousStep(o).value)
  {
  }
}
