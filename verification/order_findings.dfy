/**
 * Two places where the order controller does something its own comments
 * say it should not, each modelled twice: as written (`OrderLifecycle`) with
 * a lemma exhibiting the discrepancy, and corrected with the intended
 * property proved.
 *
 * 1. `updateOrder` frees the volunteer's slot whenever the new status is
 *    `delivered` or `cancelled` and the old one is neither, so an order that
 *    `cancelOrder` already marked `failed` (freeing the slot) frees it again.
 * 2. `verifyOtp` accepts the handover code of a self-pickup order whatever its
 *    status, so a cancelled (already refunded, portions restocked) order can
 *    still be delivered.
 */
module OrderFindings {
  import opened Wrappers
  import opened OrderModel
  import opened OrderLifecycle

  /** An order that occupies one of its volunteer's concurrent slots. */
  predicate HoldsSlot(o: Order) {
    o.volunteerId.Some? && !IsTerminal(o.status)
  }

  /** The ledger counts the order's slot: its volunteer has at least one active order. */
  predicate SlotAccounted(o: Order, ledger: Ledger) {
    HoldsSlot(o) && o.volunteerId.value in ledger ==> ledger[o.volunteerId.value].activeOrders >= 1
  }

  /** The patch a client sends to mark an order delivered. */
  const DeliveredPatch := OrderPatch(Some("delivered"), None, None)

  // ---------------------------------------------------------------------------
  // Finding 1: updateOrder after a failed cancellation
  // ---------------------------------------------------------------------------

  /** As written: a `failed` order patched to `delivered` frees its volunteer's slot. */
  lemma UpdateReleasesAfterFailure(o: Order, v: UserId, ledger: Ledger)
    requires o.status == Failed && o.volunteerId == Some(v) && v in ledger
    ensures UpdateOrder(Some(o), DeliveredPatch, ledger).Success?
    ensures UpdateOrder(Some(o), DeliveredPatch, ledger).value.ledger[v].activeOrders
            == ledger[v].activeOrders - 1
  {
    assert ParseStatus("delivered") == Delivered;
  }

  /**
   * As written, end to end: a volunteer carrying their only order has it
   * cancelled (the order fails and the slot is freed), then the order is
   * patched to `delivered` and the slot is freed a second time, leaving a
   * negative active-order count.
   */
  lemma FailedThenDeliveredBreaksCapacity(o: Order, v: UserId, role: Role, reason: string,
                                          listing: Option<Listing>, history: seq<Order>,
                                          ledger: Ledger, now: Millis)
    requires Carrying(o.status) && o.volunteerId == Some(v)
    requires v in ledger && ledger[v].activeOrders == 1
    requires CancelOrder(Some(o), role, reason, listing, history, ledger, now).Success?
    ensures
      var c := CancelOrder(Some(o), role, reason, listing, history, ledger, now).value;
      var u := UpdateOrder(Some(c.order), DeliveredPatch, c.ledger);
      && c.order.status == Failed
      && c.ledger[v].activeOrders == 0
      && u.Success?
      && u.value.ledger[v].activeOrders == -1
      && !LedgerWithinCapacity(u.value.ledger)
  {
    var c := CancelOrder(Some(o), role, reason, listing, history, ledger, now).value;
    assert c.kind == MarkedFailed;
    UpdateReleasesAfterFailure(c.order, v, c.ledger);
    var u := UpdateOrder(Some(c.order), DeliveredPatch, c.ledger);
    assert !WithinCapacity(u.value.ledger[v]);
  }

  /**
   * Corrected `updateOrder`: the slot is freed only when the order leaves an
   * active status (not `delivered`, `cancelled` or `failed`); everything else,
   * including the throw on a missing stored payment, is as written.
   */
  function UpdateOrderCorrected(order: Option<Order>, patch: OrderPatch, ledger: Ledger)
    : (r: Result<Updated, UpdateError>)
    ensures r.Success? <==> UpdateOrder(order, patch, ledger).Success?
    ensures order.None? ==> r == Failure(UpdateError.OrderNotFound)
    ensures order.Some? ==>
      var releases := patch.status.Some? && UpdateTerminal(ParseStatus(patch.status.value))
                      && !IsTerminal(order.value.status);
      CommittedLedger(r, ledger) == if releases then ReleaseSlot(ledger, order.value.volunteerId) else ledger
    ensures r.Success? ==>
      var written := UpdateOrder(order, patch, ledger).value;
      r.value.order == written.order && r.value.effects == written.effects
  {
    if order.None? then Failure(UpdateError.OrderNotFound)
    else
      var o := order.value;
      var releases := patch.status.Some? && UpdateTerminal(ParseStatus(patch.status.value))
                      && !IsTerminal(o.status);
      var ledger' := if releases then ReleaseSlot(ledger, o.volunteerId) else ledger;
      match UpdateOrder(order, patch, ledger)
      case Failure(e) => Failure(PaymentMissing(ledger'))
      case Success(u) => Success(u.(ledger := ledger'))
  }

  /** Corrected: a slot is freed only for an order that held one. */
  lemma CorrectedReleasesOnlyHeldSlots(o: Order, patch: OrderPatch, ledger: Ledger)
    requires CommittedLedger(UpdateOrderCorrected(Some(o), patch, ledger), ledger) != ledger
    ensures HoldsSlot(o)
  {
  }

  /** Corrected: the capacity ledger stays within capacity when the order's slot was counted,
      whether the update returns or throws. */
  lemma CorrectedPreservesCapacity(o: Order, patch: OrderPatch, ledger: Ledger)
    requires LedgerWithinCapacity(ledger) && SlotAccounted(o, ledger)
    ensures LedgerWithinCapacity(CommittedLedger(UpdateOrderCorrected(Some(o), patch, ledger), ledger))
  {
    if CommittedLedger(UpdateOrderCorrected(Some(o), patch, ledger), ledger) != ledger {
      CorrectedReleasesOnlyHeldSlots(o, patch, ledger);
      ReleasePreservesCapacity(ledger, o.volunteerId);
    }
  }

  /** Corrected, end to end: the same failed-then-delivered sequence leaves the count at zero. */
  lemma FailedThenDeliveredCorrected(o: Order, v: UserId, role: Role, reason: string,
                                     listing: Option<Listing>, history: seq<Order>,
                                     ledger: Ledger, now: Millis)
    requires Carrying(o.status) && o.volunteerId == Some(v)
    requires v in ledger && ledger[v].activeOrders == 1
    requires CancelOrder(Some(o), role, reason, listing, history, ledger, now).Success?
    ensures
      var c := CancelOrder(Some(o), role, reason, listing, history, ledger, now).value;
      var u := UpdateOrderCorrected(Some(c.order), DeliveredPatch, c.ledger);
      && u.Success?
      && u.value.ledger == c.ledger
      && u.value.ledger[v].activeOrders == 0
  {
    var c := CancelOrder(Some(o), role, reason, listing, history, ledger, now).value;
    assert c.kind == MarkedFailed;
  }

  // ---------------------------------------------------------------------------
  // Finding 2: verifyOtp on a terminal self-pickup order
  // ---------------------------------------------------------------------------

  /** As written: a cancelled self-pickup order accepts its handover code and is delivered. */
  lemma CancelledSelfPickupDelivered(o: Order, ledger: Ledger, now: Millis)
    requires o.fulfillment == SelfPickup && o.status == Cancelled
    ensures VerifyOtp(Some(o), o.handoverOtp, ledger, now).Success?
    ensures VerifyOtp(Some(o), o.handoverOtp, ledger, now).value.order.status == Delivered
  {
  }

  /**
   * As written, end to end: a self-pickup order the seller cancels (portions
   * restocked, payment refunded) is afterwards delivered on the buyer's code.
   */
  lemma CancelThenHandoverDelivers(o: Order, reason: string, l: Listing, history: seq<Order>,
                                   ledger: Ledger, t1: Millis, t2: Millis)
    requires o.fulfillment == SelfPickup && o.status == Placed
    requires CancelOrder(Some(o), Seller, reason, Some(l), history, ledger, t1).Success?
    ensures
      var c := CancelOrder(Some(o), Seller, reason, Some(l), history, ledger, t1).value;
      var d := VerifyOtp(Some(c.order), o.handoverOtp, c.ledger, t2);
      && c.order.status == Cancelled
      && c.listing == Some(RestoreListing(l, o.quantityOrdered))
      && d.Success? && d.value.order.status == Delivered
  {
    var c := CancelOrder(Some(o), Seller, reason, Some(l), history, ledger, t1).value;
    assert c.kind == StandardCancelled;
    CancelledSelfPickupDelivered(c.order, c.ledger, t2);
  }

  /** Corrected `verifyOtp`: a delivered, cancelled or failed order accepts no code. */
  function VerifyOtpCorrected(order: Option<Order>, otp: string, ledger: Ledger, now: Millis)
    : (r: Result<Verified, VerifyError>)
    ensures order.None? ==> r == Failure(VerifyError.OrderNotFound)
    ensures order.Some? && IsTerminal(order.value.status) ==> r == Failure(InvalidOtp)
    ensures order.Some? && !IsTerminal(order.value.status) ==>
      r == VerifyOtp(order, otp, ledger, now)
  {
    if order.Some? && IsTerminal(order.value.status) then Failure(InvalidOtp)
    else VerifyOtp(order, otp, ledger, now)
  }

  /** Corrected: a code moves an order only forward from an active status. */
  lemma CorrectedTerminalIsFinal(o: Order, otp: string, ledger: Ledger, now: Millis)
    requires VerifyOtpCorrected(Some(o), otp, ledger, now).Success?
    ensures !IsTerminal(o.status)
    ensures AcceptsCode(o, otp, VerifyOtpCorrected(Some(o), otp, ledger, now).value.order.status)
  {
  }

  /** Corrected, end to end: after the seller's cancellation the handover code is refused. */
  lemma CancelThenHandoverCorrected(o: Order, reason: string, l: Listing, history: seq<Order>,
                                    ledger: Ledger, t1: Millis, t2: Millis)
    requires o.fulfillment == SelfPickup && o.status == Placed
    requires CancelOrder(Some(o), Seller, reason, Some(l), history, ledger, t1).Success?
    ensures
      var c := CancelOrder(Some(o), Seller, reason, Some(l), history, ledger, t1).value;
      VerifyOtpCorrected(Some(c.order), o.handoverOtp, c.ledger, t2) == Failure(InvalidOtp)
  {
    var c := CancelOrder(Some(o), Seller, reason, Some(l), history, ledger, t1).value;
    assert c.kind == StandardCancelled;
  }
}
