/**
 * Properties that relate several order-lifecycle transitions: reservation and
 * restoration of listing quantity, taking and freeing capacity slots, the
 * passcode stages, and the cap on volunteer drops.
 */
module OrderProperties {
  import opened Wrappers
  import opened OrderModel
  import opened OrderLifecycle
  import opened Matching

  /** Creating an order and then cancelling it before pickup (as the seller, with
      no recent cancellations) gives the listing back its quantity, and reopens
      it whenever that quantity is positive. */
  lemma CreateThenCancelRestoresListing(l: Listing, orderId: string, buyerId: UserId,
                                        q: int, scheduledAt: Option<Millis>, now: Millis,
                                        d1: real, d2: real, ledger: Ledger)
    requires 0.0 <= d1 < 1.0 && 0.0 <= d2 < 1.0
    requires l.status == Active && l.remainingQuantity >= q && !Expired(l, now)
    ensures
      var c := CreateOrder(Some(l), orderId, buyerId, q, SelfPickup, scheduledAt, now, d1, d2);
      && c.Success?
      && var k := CancelOrder(Some(c.value.order), Seller, "", Some(c.value.listing), [], ledger, now);
      && k.Success? && k.value.kind == StandardCancelled
      && k.value.order.status == Cancelled
      && k.value.listing.Some?
      && k.value.listing.value.remainingQuantity == l.remainingQuantity
      && (l.remainingQuantity > 0 ==> k.value.listing.value.status == Active)
  {
    var c := CreateOrder(Some(l), orderId, buyerId, q, SelfPickup, scheduledAt, now, d1, d2);
    assert !RateLimited(c.value.order, Seller, [], now);
  }

  /** The five-portion scenario: ordering all five completes the listing, and
      cancelling that order reopens it with five. */
  lemma FivePortionScenario(l: Listing, buyerId: UserId, now: Millis, d1: real, d2: real)
    requires 0.0 <= d1 < 1.0 && 0.0 <= d2 < 1.0
    requires l.status == Active && l.remainingQuantity == 5 && !Expired(l, now)
    ensures
      var c := CreateOrder(Some(l), "o1", buyerId, 5, SelfPickup, None, now, d1, d2);
      && c.Success? && c.value.listing.status == Completed && c.value.listing.remainingQuantity == 0
      && var k := CancelOrder(Some(c.value.order), Seller, "", Some(c.value.listing), [], map[], now);
      && k.Success? && k.value.listing == Some(l)
  {
    CreateThenCancelRestoresListing(l, "o1", buyerId, 5, None, now, d1, d2, map[]);
  }

  /** `createOrder` accepts a zero or negative quantity: nothing checks `quantityOrdered > 0`. */
  lemma NonPositiveQuantityAccepted(l: Listing, q: int, now: Millis)
    requires l.status == Active && l.remainingQuantity >= 0 && q <= 0 && !Expired(l, now)
    ensures
      var c := CreateOrder(Some(l), "o", "b", q, SelfPickup, None, now, 0.0, 0.0);
      c.Success? && c.value.listing.remainingQuantity >= l.remainingQuantity
  {
  }

  /** A volunteer who accepts and then drops an order (before the attempt cap)
      gets back exactly the slot it took, and the order waits for a volunteer again. */
  lemma AcceptThenDropRestoresSlot(o: Order, v: UserId, ledger: Ledger, now: Millis)
    requires o.status == AwaitingVolunteer && o.volunteerMatchAttempts + 1 < MaxMatchAttempts
    requires v in ledger && ledger[v].activeOrders < ledger[v].maxConcurrentOrders
    ensures
      var a := AcceptRescueRequest(Some(o), v, ledger, now);
      && a.Success?
      && var k := CancelOrder(Some(a.value.order), Volunteer, "", None, [], a.value.ledger, now);
      && k.Success? && k.value.kind == VolunteerRequeued
      && k.value.order.status == AwaitingVolunteer && k.value.order.volunteerId.None?
      && k.value.ledger.Keys == ledger.Keys
      && k.value.ledger[v].activeOrders == ledger[v].activeOrders
      && k.value.ledger[v].isAvailable
      && (forall u :: u in ledger && u != v ==> k.value.ledger[u] == ledger[u])
  {
    var a := AcceptRescueRequest(Some(o), v, ledger, now);
    assert !RateLimited(a.value.order, Volunteer, [], now);
  }

  /** Each drop below the cap re-queues; the drop that reaches the cap cancels
      the order for the system. */
  lemma DropOutcomeByAttempts(o: Order, listing: Option<Listing>, ledger: Ledger, now: Millis)
    requires o.status == VolunteerAssigned
    ensures
      var k := CancelOrder(Some(o), Volunteer, "", listing, [], ledger, now);
      && k.Success?
      && (o.volunteerMatchAttempts < MaxMatchAttempts - 1 ==>
            k.value.kind == VolunteerRequeued && k.value.order.status == AwaitingVolunteer)
      && (o.volunteerMatchAttempts >= MaxMatchAttempts - 1 ==>
            k.value.kind == NoVolunteerCancelled && k.value.order.status == Cancelled)
      && k.value.listing == listing
  {
    assert !RateLimited(o, Volunteer, [], now);
  }

  /** Three drops in a row end in a system cancellation, never a fourth search. */
  lemma ThreeDropsCancel(o: Order, v1: UserId, v2: UserId, v3: UserId, ledger: Ledger, now: Millis)
    requires o.status == AwaitingVolunteer && o.volunteerMatchAttempts == 0
    requires v1 in ledger && ledger[v1].activeOrders + 1 < ledger[v1].maxConcurrentOrders
    requires v2 in ledger && ledger[v2].activeOrders + 1 < ledger[v2].maxConcurrentOrders
    requires v3 in ledger && ledger[v3].activeOrders + 1 < ledger[v3].maxConcurrentOrders
    ensures
      var a1 := AcceptRescueRequest(Some(o), v1, ledger, now);
      && a1.Success?
      && var k1 := CancelOrder(Some(a1.value.order), Volunteer, "", None, [], a1.value.ledger, now);
      && k1.Success? && k1.value.kind == VolunteerRequeued
      && var a2 := AcceptRescueRequest(Some(k1.value.order), v2, k1.value.ledger, now);
      && a2.Success?
      && var k2 := CancelOrder(Some(a2.value.order), Volunteer, "", None, [], a2.value.ledger, now);
      && k2.Success? && k2.value.kind == VolunteerRequeued
      && var a3 := AcceptRescueRequest(Some(k2.value.order), v3, k2.value.ledger, now);
      && a3.Success?
      && var k3 := CancelOrder(Some(a3.value.order), Volunteer, "", None, [], a3.value.ledger, now);
      && k3.Success? && k3.value.kind == NoVolunteerCancelled
      && k3.value.order.status == Cancelled
      && k3.value.order.cancellation.value.cancelledBy == System
  {
    var a1 := AcceptRescueRequest(Some(o), v1, ledger, now);
    DropOutcomeByAttempts(a1.value.order, None, a1.value.ledger, now);
    var k1 := CancelOrder(Some(a1.value.order), Volunteer, "", None, [], a1.value.ledger, now);
    var a2 := AcceptRescueRequest(Some(k1.value.order), v2, k1.value.ledger, now);
    DropOutcomeByAttempts(a2.value.order, None, a2.value.ledger, now);
    var k2 := CancelOrder(Some(a2.value.order), Volunteer, "", None, [], a2.value.ledger, now);
    var a3 := AcceptRescueRequest(Some(k2.value.order), v3, k2.value.ledger, now);
    DropOutcomeByAttempts(a3.value.order, None, a3.value.ledger, now);
  }

  /** Cancelling an order whose food is already with the volunteer fails it,
      whoever cancels, and never touches the listing. */
  lemma CarryingCancelFails(o: Order, role: Role, listing: Option<Listing>, history: seq<Order>,
                            ledger: Ledger, now: Millis)
    requires Carrying(o.status)
    requires !RateLimited(o, role, history, now) && !TooCloseForBuyer(o, role, now)
    ensures
      var k := CancelOrder(Some(o), role, "", listing, history, ledger, now);
      && k.Success? && k.value.order.status == Failed && k.value.order.status != Cancelled
      && k.value.listing == listing
  {
  }

  /** The happy path of volunteer delivery: accept, present the pickup code, then
      the handover code. The order is delivered and the volunteer's slot count is
      back where it started. */
  lemma VolunteerDeliveryHappyPath(o: Order, v: UserId, ledger: Ledger, t1: Millis, t2: Millis, t3: Millis)
    requires o.fulfillment == VolunteerDelivery && o.status == AwaitingVolunteer && o.pickupOtp.Some?
    requires v in ledger && WithinCapacity(ledger[v])
    requires ledger[v].activeOrders < ledger[v].maxConcurrentOrders
    ensures
      var a := AcceptRescueRequest(Some(o), v, ledger, t1);
      && a.Success?
      && var p := VerifyOtp(Some(a.value.order), o.pickupOtp.value, a.value.ledger, t2);
      && p.Success? && p.value.order.status == PickedUp
      && var d := VerifyOtp(Some(p.value.order), o.handoverOtp, p.value.ledger, t3);
      && d.Success? && d.value.order.status == Delivered
      && d.value.order.timeline.deliveredAt == Some(t3)
      && d.value.ledger[v].activeOrders == ledger[v].activeOrders
      && d.value.ledger[v].isAvailable
      && WithinCapacity(d.value.ledger[v])
  {
    var a := AcceptRescueRequest(Some(o), v, ledger, t1);
    assert AcceptsCode(a.value.order, o.pickupOtp.value, PickedUp);
    var p := VerifyOtp(Some(a.value.order), o.pickupOtp.value, a.value.ledger, t2);
    assert AcceptsCode(p.value.order, o.handoverOtp, Delivered);
  }

  /** Stage correctness: while an order awaits a volunteer, its handover code is
      refused (unless it happens to coincide with the pickup code). */
  lemma HandoverCodeRefusedBeforePickup(o: Order, ledger: Ledger, now: Millis)
    requires o.fulfillment == VolunteerDelivery && BeforePickup(o.status)
    requires o.pickupOtp != Some(o.handoverOtp)
    ensures VerifyOtp(Some(o), o.handoverOtp, ledger, now) == Failure(VerifyError.InvalidOtp)
  {
  }

  /** A pickup code is refused once the food is on its way. */
  lemma PickupCodeRefusedWhileCarrying(o: Order, ledger: Ledger, now: Millis)
    requires o.fulfillment == VolunteerDelivery && Carrying(o.status)
    requires o.pickupOtp.Some? && o.pickupOtp.value != o.handoverOtp
    ensures VerifyOtp(Some(o), o.pickupOtp.value, ledger, now) == Failure(VerifyError.InvalidOtp)
  {
  }

  /** A volunteer-delivery order in a terminal status accepts no code at all. */
  lemma VolunteerTerminalRefusesCodes(o: Order, otp: string, ledger: Ledger, now: Millis)
    requires o.fulfillment == VolunteerDelivery && IsTerminal(o.status)
    ensures VerifyOtp(Some(o), otp, ledger, now).Failure?
  {
  }

  /** `updateOrder` to `failed` keeps the volunteer's slot taken: only
      `delivered` and `cancelled` free it. */
  lemma UpdateToFailedKeepsSlot(o: Order, ledger: Ledger)
    requires !UpdateTerminal(o.status)
    ensures
      var u := UpdateOrder(Some(o), OrderPatch(Some("failed"), None, None), ledger);
      u.Success? && u.value.order.status == Failed && u.value.ledger == ledger
  {
  }

  /** A volunteer who accepts before the fallback timer fires keeps the order:
      the timer then changes nothing and notifies nobody. */
  lemma AcceptThenFallbackKeepsVolunteer(o: Order, v: UserId, ledger: Ledger, now: Millis)
    requires AcceptRescueRequest(Some(o), v, ledger, now).Success?
    ensures
      var a := AcceptRescueRequest(Some(o), v, ledger, now).value.order;
      FallbackStep(Some(a)) == FallbackResult(Some(a), [])
  {
  }

  /** Once the fallback has switched an order to self-pickup, a late acceptance is refused. */
  lemma FallbackThenAcceptRefused(o: Order, v: UserId, ledger: Ledger, now: Millis)
    requires o.status == AwaitingVolunteer
    ensures
      var f := FallbackStep(Some(o)).order;
      && f.Some? && f.value.fulfillment == SelfPickup
      && AcceptRescueRequest(f, v, ledger, now) == Failure(NotAwaitingVolunteer(Placed))
  {
  }
}
