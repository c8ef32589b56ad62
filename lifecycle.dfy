/** The order lifecycle end to end, on order values: a cart is filled,
    trimmed, finalized and moved through the kitchen up to the gate. */
module Lifecycle {
  import opened Outcomes
  import opened OrderStatuses
  import opened OrderModel
  import Cart
  import Kitchen

  /** Two adds of one dish (the price changing in between), a partial
      removal, finalization and three forward moves: the cart holds one line
      at the first price, the order reaches ON_THE_WAY with the client's
      snapshots, and a move back is then refused. */
  lemma CartToDoorScenario(client: Client?, moment: Instant, profile: ClientProfile,
                           dishes: map<DishId, Dish>, later: map<DishId, Dish>, dish: DishId)
    requires ProfileOf(client) == Some(profile)
    requires profile.address.Some? && dish in dishes && dish in later
    ensures
      var a1 := Cart.AddItem(NewDraft(client, moment), dishes, dish, 2);
      a1.Ok? &&
      var a2 := Cart.AddItem(a1.value.0, later, dish, 3);
      a2.Ok? && a2.value.0.items == [OrderItem(dish, 5, dishes[dish].price)] &&
      var r := Cart.RemoveItem(a2.value.0, dish, 4);
      r.Ok? && r.value.items == [OrderItem(dish, 1, dishes[dish].price)] &&
      var f := Cart.Finalize(r.value, ProfileOf(client));
      f.Ok? && f.value.status == Received && f.value.client == client &&
      f.value.clientSnapshotName == Some(client.name) &&
      f.value.addressSnapshot == Some(Cart.FormatAddress(profile.address.value, profile.addressNumber, profile.complement)) &&
      var n1 := Kitchen.NextStep(f.value);
      n1.Ok? && n1.value.status == InPreparation &&
      var n2 := Kitchen.NextStep(n1.value);
      n2.Ok? && n2.value.status == Ready &&
      var n3 := Kitchen.NextStep(n2.value);
      n3.Ok? && n3.value.status == OnTheWay && n3.value.addressSnapshot == f.value.addressSnapshot &&
      Kitchen.PreviousStep(n3.value) == Err(CannotRegressAfterDispatch)
  {
  }
}
