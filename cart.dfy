/** The cart protocol on the value of one order: adding and removing lines
    while the order is a draft, and finalizing it into the kitchen workflow.
    The service methods load an Order entity, apply these steps in place and
    are proved to agree with these functions. */
module Cart {
  import opened Outcomes
  import opened OrderStatuses
  import opened OrderModel

  /** Some line of the order is for the dish. */
  predicate HasLine(items: seq<OrderItem>, dishId: DishId) {
    exists j :: 0 <= j < |items| && items[j].dishId == dishId
  }

  /** At most one line per dish. */
  predicate UniqueDishes(items: seq<OrderItem>) {
    forall i, j :: 0 <= i < j < |items| ==> items[i].dishId != items[j].dishId
  }

  /** Every line has a positive quantity. */
  predicate PositiveQuantities(items: seq<OrderItem>) {
    forall i :: 0 <= i < |items| ==> items[i].quantity > 0
  }

  /** The line-list invariant of a cart. */
  predicate CartInvariant(items: seq<OrderItem>) {
    UniqueDishes(items) && PositiveQuantities(items)
  }

  /** Position of the first line for the dish, None when there is none. */
  function LineIndex(items: seq<OrderItem>, dishId: DishId): (r: Option<nat>)
    ensures r.Some? ==> r.value < |items| && items[r.value].dishId == dishId
    ensures r.Some? ==> forall j :: 0 <= j < r.value ==> items[j].dishId != dishId
    ensures r.None? <==> !HasLine(items, dishId)
  {
    if |items| == 0 then None
    else if items[0].dishId == dishId then Some(0)
    else match LineIndex(items[1..], dishId)
      case None =>
        assert forall j :: 1 <= j < |items| ==> items[j] == items[1..][j - 1];
        None
      case Some(k) => Some(k + 1)
  }

  /** In a cart without duplicate dishes, the line found for a dish is the
      only line for it. */
  lemma LineIndexInUniqueCart(items: seq<OrderItem>, dishId: DishId, k: nat)
    requires UniqueDishes(items) && k < |items| && items[k].dishId == dishId
    ensures LineIndex(items, dishId) == Some(k)
  {
  }

  /** addItemToOrder on the loaded order: the new order value and the line it
      returns (the merged line or the new one). */
  function AddItem(o: OrderState, dishes: map<DishId, Dish>, dishId: DishId, quantity: int): (r: Result<(OrderState, OrderItem)>)
    ensures o.status != Draft ==> r == Err(AddToNonDraft)
    ensures o.status == Draft && dishId !in dishes ==> r == Err(DishNotFound)
    ensures o.status == Draft && dishId in dishes ==> r.Ok?
    ensures r.Ok? ==> r.value.0 == o.(items := r.value.0.items)
    ensures r.Ok? ==> r.value.1.dishId == dishId && r.value.1 in r.value.0.items
    ensures r.Ok? ==> |r.value.0.items| == if HasLine(o.items, dishId) then |o.items| else |o.items| + 1
  {
    if o.status != Draft then Err(AddToNonDraft)
    else if dishId !in dishes then Err(DishNotFound)
    else match LineIndex(o.items, dishId)
      case Some(k) =>
        var merged := o.items[k].(quantity := o.items[k].quantity + quantity);
        var items' := o.items[k := merged];
        assert items'[k] == merged;
        Ok((o.(items := items'), merged))
      case None =>
        var line := OrderItem(dishId, quantity, dishes[dishId].price);
        Ok((o.(items := o.items + [line]), line))
  }

  /** Adding a dish that already has a line adds the requested quantity to
      that line and changes nothing else: not the number of lines, not the
      other lines, not the price stored on the line. */
  lemma AddMergesExistingLine(o: OrderState, dishes: map<DishId, Dish>, dishId: DishId, quantity: int, k: nat)
    requires o.status == Draft && dishId in dishes
    requires UniqueDishes(o.items) && k < |o.items| && o.items[k].dishId == dishId
    ensures AddItem(o, dishes, dishId, quantity).Ok?
    ensures AddItem(o, dishes, dishId, quantity).value.1 == OrderItem(dishId, o.items[k].quantity + quantity, o.items[k].price)
    ensures AddItem(o, dishes, dishId, quantity).value.0.items == o.items[k := AddItem(o, dishes, dishId, quantity).value.1]
  {
  }

  /** Adding a dish without a line appends exactly one line, with the
      requested quantity and the dish's current price; earlier lines stay. */
  lemma AddAppendsNewLine(o: OrderState, dishes: map<DishId, Dish>, dishId: DishId, quantity: int)
    requires o.status == Draft && dishId in dishes && !HasLine(o.items, dishId)
    ensures AddItem(o, dishes, dishId, quantity) ==
      var line := OrderItem(dishId, quantity, dishes[dishId].price);
      Ok((o.(items := o.items + [line]), line))
  {
  }

  /** Adding a positive quantity keeps at most one line per dish and every
      quantity positive. */
  lemma AddPreservesCartInvariant(o: OrderState, dishes: map<DishId, Dish>, dishId: DishId, quantity: int)
    requires CartInvariant(o.items) && quantity > 0
    requires AddItem(o, dishes, dishId, quantity).Ok?
    ensures CartInvariant(AddItem(o, dishes, dishId, quantity).value.0.items)
  {
  }

  /** Adding keeps at most one line per dish whatever the quantity's sign:
      an existing line is merged into, and a line is appended only when the
      dish has none. */
  lemma AddPreservesUniqueDishes(o: OrderState, dishes: map<DishId, Dish>, dishId: DishId, quantity: int)
    requires UniqueDishes(o.items)
    requires AddItem(o, dishes, dishId, quantity).Ok?
    ensures UniqueDishes(AddItem(o, dishes, dishId, quantity).value.0.items)
  {
  }

  /** The quantity is not validated on add: a non-positive quantity for a new
      dish is stored as is, and the cart loses its positive-quantity
      invariant. */
  lemma AddAcceptsNonPositiveQuantity(o: OrderState, dishes: map<DishId, Dish>, dishId: DishId, quantity: int)
    requires o.status == Draft && dishId in dishes && !HasLine(o.items, dishId) && quantity <= 0
    ensures AddItem(o, dishes, dishId, quantity).Ok?
    ensures !PositiveQuantities(AddItem(o, dishes, dishId, quantity).value.0.items)
  {
  }

  /** Two adds of the same dish merge into one line whose quantity is the sum,
      and the line keeps the price read at the first add even when the dish's
      price has changed before the second. */
  lemma {:induction false} AddTwiceMerges(o: OrderState, dishes: map<DishId, Dish>, later: map<DishId, Dish>, dishId: DishId, q1: int, q2: int)
    requires o.status == Draft && dishId in dishes && dishId in later
    ensures AddItem(o, dishes, dishId, q1).Ok?
    ensures AddItem(AddItem(o, dishes, dishId, q1).value.0, later, dishId, q2) == AddItem(o, dishes, dishId, q1 + q2)
  {
    var first := AddItem(o, dishes, dishId, q1).value.0;
    match LineIndex(o.items, dishId)
    case Some(k) =>
      assert first.items[k].dishId == dishId;
      assert forall i :: 0 <= i < k ==> first.items[i] == o.items[i];
      var line := o.items[k];
      assert first.items[k := first.items[k].(quantity := first.items[k].quantity + q2)]
          == o.items[k := line.(quantity := line.quantity + (q1 + q2))];
    case None =>
      var line := OrderItem(dishId, q1, dishes[dishId].price);
      assert first.items == o.items + [line];
      assert first.items[|o.items|] == line;
      assert forall i :: 0 <= i < |o.items| ==> first.items[i] == o.items[i];
      assert first.items[|o.items| := line.(quantity := q1 + q2)]
          == o.items + [OrderItem(dishId, q1 + q2, dishes[dishId].price)];
  }

  /** removeItemFromOrder on the loaded order: the new order value. The
      checks run in the source's order: the status, then the line's
      existence, then the quantity. */
  function RemoveItem(o: OrderState, dishId: DishId, quantity: int): (r: Result<OrderState>)
    ensures o.status != Draft ==> r == Err(RemoveFromNonDraft)
    ensures o.status == Draft && !HasLine(o.items, dishId) ==> r == Err(LineNotFound)
    ensures o.status == Draft && HasLine(o.items, dishId) && quantity <= 0 ==> r == Err(NonPositiveRemoval)
    ensures o.status == Draft && HasLine(o.items, dishId) && quantity > 0 ==> r.Ok?
    ensures r.Ok? ==> r.value == o.(items := r.value.items)
    ensures r.Ok? ==> |o.items| - 1 <= |r.value.items| <= |o.items|
  {
    if o.status != Draft then Err(RemoveFromNonDraft)
    else match LineIndex(o.items, dishId)
      case None => Err(LineNotFound)
      case Some(k) =>
        if quantity <= 0 then Err(NonPositiveRemoval)
        else if quantity >= o.items[k].quantity then Ok(o.(items := o.items[..k] + o.items[k + 1..]))
        else Ok(o.(items := o.items[k := o.items[k].(quantity := o.items[k].quantity - quantity)]))
  }

  /** The lines left after deleting position k. */
  lemma DeleteAt(items: seq<OrderItem>, k: nat)
    requires k < |items|
    ensures |items[..k] + items[k + 1..]| == |items| - 1
    ensures forall j :: 0 <= j < |items| - 1 ==> (items[..k] + items[k + 1..])[j] == if j < k then items[j] else items[j + 1]
  {
  }

  /** Removing q > 0 units of a dish whose line holds Q <= q units deletes
      that line, and no line for the dish is left. */
  lemma RemoveDeletesLine(o: OrderState, dishId: DishId, quantity: int, k: nat)
    requires o.status == Draft && UniqueDishes(o.items)
    requires k < |o.items| && o.items[k].dishId == dishId && quantity >= o.items[k].quantity && quantity > 0
    ensures RemoveItem(o, dishId, quantity) == Ok(o.(items := o.items[..k] + o.items[k + 1..]))
    ensures !HasLine(RemoveItem(o, dishId, quantity).value.items, dishId)
  {
  }

  /** Removing q units of a dish whose line holds Q > q > 0 units leaves that
      line with Q - q units, in the same place and with the same price. */
  lemma RemoveDecrementsLine(o: OrderState, dishId: DishId, quantity: int, k: nat)
    requires o.status == Draft && UniqueDishes(o.items)
    requires k < |o.items| && o.items[k].dishId == dishId && 0 < quantity < o.items[k].quantity
    ensures RemoveItem(o, dishId, quantity) ==
      Ok(o.(items := o.items[k := OrderItem(dishId, o.items[k].quantity - quantity, o.items[k].price)]))
  {
  }

  /** A removal leaves every line for another dish exactly as it was, and
      adds none. */
  lemma RemoveKeepsOtherLines(o: OrderState, dishId: DishId, quantity: int)
    requires RemoveItem(o, dishId, quantity).Ok?
    ensures forall e: OrderItem :: e.dishId != dishId ==> (e in RemoveItem(o, dishId, quantity).value.items <==> e in o.items)
  {
    var k := LineIndex(o.items, dishId).value;
    var items' := RemoveItem(o, dishId, quantity).value.items;
    if quantity >= o.items[k].quantity {
      DeleteAt(o.items, k);
      forall e: OrderItem | e.dishId != dishId && e in o.items
        ensures e in items'
      {
        var i :| 0 <= i < |o.items| && o.items[i] == e;
        if i < k { assert items'[i] == e; } else { assert items'[i - 1] == e; }
      }
    } else {
      forall e: OrderItem | e.dishId != dishId && e in o.items
        ensures e in items'
      {
        var i :| 0 <= i < |o.items| && o.items[i] == e;
        assert items'[i] == e;
      }
    }
  }

  /** Removal keeps at most one line per dish and every quantity positive. */
  lemma RemovePreservesCartInvariant(o: OrderState, dishId: DishId, quantity: int)
    requires CartInvariant(o.items)
    requires RemoveItem(o, dishId, quantity).Ok?
    ensures CartInvariant(RemoveItem(o, dishId, quantity).value.items)
  {
  }

  /** Removal keeps at most one line per dish whatever quantities the cart
      holds. */
  lemma RemovePreservesUniqueDishes(o: OrderState, dishId: DishId, quantity: int)
    requires UniqueDishes(o.items)
    requires RemoveItem(o, dishId, quantity).Ok?
    ensures UniqueDishes(RemoveItem(o, dishId, quantity).value.items)
  {
    var k := LineIndex(o.items, dishId).value;
    if quantity >= o.items[k].quantity {
      DeleteAt(o.items, k);
    }
  }

  /** Adding q > 0 units of a dish and then removing q units of it gives back
      the cart as it was, whether the dish had a line before or not. */
  lemma {:induction false} AddThenRemoveRestoresCart(o: OrderState, dishes: map<DishId, Dish>, dishId: DishId, quantity: int)
    requires o.status == Draft && dishId in dishes && PositiveQuantities(o.items) && quantity > 0
    ensures AddItem(o, dishes, dishId, quantity).Ok?
    ensures RemoveItem(AddItem(o, dishes, dishId, quantity).value.0, dishId, quantity) == Ok(o)
  {
    var added := AddItem(o, dishes, dishId, quantity).value.0;
    match LineIndex(o.items, dishId)
    case Some(k) =>
      assert added.items[k].dishId == dishId;
      assert forall i :: 0 <= i < k ==> added.items[i] == o.items[i];
      assert quantity < added.items[k].quantity;
      assert added.items[k := added.items[k].(quantity := added.items[k].quantity - quantity)] == o.items;
    case None =>
      var n := |o.items|;
      assert added.items[n].dishId == dishId;
      assert forall i :: 0 <= i < n ==> added.items[i] == o.items[i];
      assert added.items[..n] + added.items[n + 1..] == o.items;
  }

  /** The delivery address snapshot: "street, number, neighborhood -
      city/state. CEP: postal code. Complemento: complement", with an empty
      complement when the client has none. */
  function FormatAddress(a: Address, number: string, complement: Option<string>): (s: string)
    ensures a.street + ", " + number + ", " <= s
    ensures var tail := ". Complemento: " + (if complement.Some? then complement.value else "");
      |tail| <= |s| && s[|s| - |tail|..] == tail
  {
    var c := if complement.Some? then complement.value else "";
    a.street + ", " + number + ", " + a.neighborhood + " - " + a.city + "/" + a.state
      + ". CEP: " + a.postalCode + ". Complemento: " + c
  }

  /** finalizeOrder on the loaded order, given the profile of its client as
      it reads at that moment (None when the order has no client). */
  function Finalize(o: OrderState, client: Option<ClientProfile>): (r: Result<OrderState>)
    ensures o.status != Draft ==> r == Err(FinalizeNonDraft)
    ensures o.status == Draft && (client.None? || client.value.address.None?) ==> r == Err(MissingClientOrAddress)
    ensures o.status == Draft && client.Some? && client.value.address.Some? ==> r.Ok?
    ensures r.Err? ==> r.error.Kind() == IllegalState
    ensures r.Ok? ==> r.value == o.(status := Received, clientSnapshotName := r.value.clientSnapshotName, addressSnapshot := r.value.addressSnapshot)
    ensures r.Ok? ==> r.value.clientSnapshotName == Some(client.value.name)
    ensures r.Ok? ==> r.value.addressSnapshot == Some(FormatAddress(client.value.address.value, client.value.addressNumber, client.value.complement))
  {
    if o.status != Draft then Err(FinalizeNonDraft)
    else if client.None? || client.value.address.None? then Err(MissingClientOrAddress)
    else
      var p := client.value;
      Ok(o.(clientSnapshotName := Some(p.name),
            addressSnapshot := Some(FormatAddress(p.address.value, p.addressNumber, p.complement)),
            status := Received))
  }

  /** updateStatus on the loaded order: the status is overwritten. */
  function SetStatus(o: OrderState, s: OrderStatus): (r: OrderState)
    ensures r.status == s
    ensures r.(status := o.status) == o
  {
    o.(status := s)
  }

  /** The override bypasses the cart protocol: it can move a fresh cart to any
      later status without the snapshots that finalization takes, and a later
      override simply replaces an earlier one. */
  lemma OverrideBypassesFinalize(o: OrderState, client: Client?, moment: Instant, s: OrderStatus, t: OrderStatus)
    requires s != Draft
    ensures !SnapshotConsistent(SetStatus(NewDraft(client, moment), s))
    ensures SetStatus(NewDraft(client, moment), s).items == []
    ensures SetStatus(SetStatus(o, s), t) == SetStatus(o, t)
    ensures SetStatus(o, s).items == o.items && SetStatus(o, s).addressSnapshot == o.addressSnapshot
  {
  }

  /** A finalized order is no longer a cart: it sets both snapshots, and every
      cart operation on it, including a second finalization, fails with an
      illegal-state error. */
  lemma FinalizedCartIsFrozen(o: OrderState, client: Option<ClientProfile>, later: Option<ClientProfile>,
                              dishes: map<DishId, Dish>, dishId: DishId, quantity: int)
    requires Finalize(o, client).Ok?
    ensures SnapshotConsistent(Finalize(o, client).value)
    ensures AddItem(Finalize(o, client).value, dishes, dishId, quantity) == Err(AddToNonDraft)
    ensures RemoveItem(Finalize(o, client).value, dishId, quantity) == Err(RemoveFromNonDraft)
    ensures Finalize(Finalize(o, client).value, later) == Err(FinalizeNonDraft)
  {
  }
}
