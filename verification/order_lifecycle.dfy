/**
 * The order state machine of the order controller: `createOrder`,
 * `acceptRescueRequest`, `verifyOtp`, `cancelOrder` and `updateOrder`, as pure
 * transitions over immutable records. The store lookups each operation makes
 * (the listing, the capacity ledger, the order history) are parameters, and so
 * are the clock (`now`) and the `Math.random()` draws behind the passcodes.
 */
module OrderLifecycle {
  import opened Wrappers
  import opened OrderModel

  // ---------------------------------------------------------------------------
  // createOrder
  // ---------------------------------------------------------------------------

  datatype CreateError =
    | ListingNotFound
    | ListingNotActive(status: ListingStatus)
    | InsufficientQuantity(remaining: int)
    | ListingExpired

  datatype Created = Created(order: Order, listing: Listing, effects: Effects)

  /** `new Date(pickupWindow.to) < new Date()`; a missing end time compares false. */
  predicate Expired(l: Listing, now: Millis) {
    l.pickupWindowTo.Some? && l.pickupWindowTo.value < now
  }

  /** The state a successful creation must leave behind, as the controller promises it. */
  predicate CreatedFrom(before: Listing, buyerId: UserId, quantityOrdered: int,
                        fulfillment: Fulfillment, now: Millis, c: Created)
  {
    var o := c.order;
    && c.listing.remainingQuantity == before.remainingQuantity - quantityOrdered
    && (c.listing.status == Completed <==> c.listing.remainingQuantity == 0)
    && (c.listing.status == Active <==> c.listing.remainingQuantity != 0)
    && c.listing.id == before.id && c.listing.sellerId == before.sellerId
    && c.listing.pickupWindowTo == before.pickupWindowTo
    && o.listingId == before.id && o.sellerId == before.sellerId && o.buyerId == buyerId
    && o.quantityOrdered == quantityOrdered && o.fulfillment == fulfillment
    && (o.status == AwaitingVolunteer <==> fulfillment == VolunteerDelivery)
    && (o.status == Placed <==> fulfillment == SelfPickup)
    && (o.pickupOtp.Some? <==> fulfillment == VolunteerDelivery)
    && IsOtp(o.handoverOtp) && (o.pickupOtp.Some? ==> IsOtp(o.pickupOtp.value))
    && o.volunteerId.None? && o.volunteerMatchAttempts == 0 && o.cancellation.None?
    && o.timeline == Timeline(Some(now), None, None, None, None)
    && c.effects.notify == [before.sellerId, buyerId]
    && c.effects.recompute == []
    && (c.effects.startMatching <==> fulfillment == VolunteerDelivery)
  }

  /**
   * `createOrder`: reserve `quantityOrdered` of an active, unexpired listing.
   * The checks run in the controller's order; the quantity is never checked to
   * be positive.
   */
  function CreateOrder(listing: Option<Listing>, orderId: string, buyerId: UserId,
                       quantityOrdered: int, fulfillment: Fulfillment,
                       scheduledAt: Option<Millis>, now: Millis,
                       handoverDraw: real, pickupDraw: real): (r: Result<Created, CreateError>)
    requires 0.0 <= handoverDraw < 1.0 && 0.0 <= pickupDraw < 1.0
    ensures listing.None? ==> r == Failure(ListingNotFound)
    ensures listing.Some? && listing.value.status != Active ==>
      r == Failure(ListingNotActive(listing.value.status))
    ensures (listing.Some? && listing.value.status == Active
             && listing.value.remainingQuantity < quantityOrdered) ==>
      r == Failure(InsufficientQuantity(listing.value.remainingQuantity))
    ensures (listing.Some? && listing.value.status == Active
             && listing.value.remainingQuantity >= quantityOrdered && Expired(listing.value, now)) ==>
      r == Failure(ListingExpired)
    ensures r.Success? <==>
      && listing.Some? && listing.value.status == Active
      && listing.value.remainingQuantity >= quantityOrdered
      && !Expired(listing.value, now)
    ensures r.Success? ==>
      CreatedFrom(listing.value, buyerId, quantityOrdered, fulfillment, now, r.value)
      && r.value.order.id == orderId && r.value.order.scheduledAt == scheduledAt
  {
    if listing.None? then Failure(ListingNotFound)
    else
      var l := listing.value;
      if l.status != Active then Failure(ListingNotActive(l.status))
      else if l.remainingQuantity < quantityOrdered then Failure(InsufficientQuantity(l.remainingQuantity))
      else if Expired(l, now) then Failure(ListingExpired)
      else
        var byVolunteer := fulfillment == VolunteerDelivery;
        var order := Order(
          id := orderId, listingId := l.id, sellerId := l.sellerId, buyerId := buyerId,
          volunteerId := None, quantityOrdered := quantityOrdered, fulfillment := fulfillment,
          status := if byVolunteer then AwaitingVolunteer else Placed,
          scheduledAt := scheduledAt,
          pickupOtp := if byVolunteer then Some(OtpFromDraw(pickupDraw)) else None,
          handoverOtp := OtpFromDraw(handoverDraw),
          timeline := Timeline(Some(now), None, None, None, None),
          volunteerAssignedAt := None, cancellation := None, payment := None,
          volunteerMatchAttempts := 0);
        var remaining := l.remainingQuantity - quantityOrdered;
        var l' := l.(remainingQuantity := remaining,
                     status := if remaining == 0 then Completed else l.status);
        Success(Created(order, l', Effects([l.sellerId, buyerId], [], byVolunteer)))
  }

  // ---------------------------------------------------------------------------
  // acceptRescueRequest
  // ---------------------------------------------------------------------------

  datatype AcceptError =
    | OrderNotFound
    | NotAwaitingVolunteer(status: Status)
    | ProfileNotFound
    | AtCapacity

  datatype Accepted = Accepted(order: Order, ledger: Ledger, effects: Effects)

  /**
   * `acceptRescueRequest`: a volunteer with a free slot takes an order that is
   * still awaiting a volunteer; the slot is taken and the volunteer stops being
   * offered once full.
   */
  function AcceptRescueRequest(order: Option<Order>, volunteerId: UserId, ledger: Ledger,
                               now: Millis): (r: Result<Accepted, AcceptError>)
    ensures order.None? ==> r == Failure(AcceptError.OrderNotFound)
    ensures order.Some? && order.value.status != AwaitingVolunteer ==>
      r == Failure(NotAwaitingVolunteer(order.value.status))
    ensures order.Some? && order.value.status == AwaitingVolunteer && volunteerId !in ledger ==>
      r == Failure(ProfileNotFound)
    ensures r.Success? <==>
      && order.Some? && order.value.status == AwaitingVolunteer && volunteerId in ledger
      && ledger[volunteerId].activeOrders < ledger[volunteerId].maxConcurrentOrders
    ensures r.Success? ==> r.value.ledger.Keys == ledger.Keys
    ensures r.Success? ==>
      var o := r.value.order;
      var p := ledger[volunteerId];
      var p' := r.value.ledger[volunteerId];
      && o == order.value.(status := VolunteerAssigned, volunteerId := Some(volunteerId),
                           volunteerAssignedAt := Some(now),
                           timeline := order.value.timeline.(acceptedAt := Some(now)))
      && (forall u :: u in ledger && u != volunteerId ==> r.value.ledger[u] == ledger[u])
      && p'.activeOrders == p.activeOrders + 1
      && p'.maxConcurrentOrders == p.maxConcurrentOrders
      && p'.isAvailable == (p.isAvailable && p'.activeOrders < p.maxConcurrentOrders)
      && r.value.effects.notify == [order.value.buyerId, order.value.sellerId, volunteerId]
  {
    if order.None? then Failure(AcceptError.OrderNotFound)
    else
      var o := order.value;
      if o.status != AwaitingVolunteer then Failure(NotAwaitingVolunteer(o.status))
      else if volunteerId !in ledger then Failure(ProfileNotFound)
      else
        var p := ledger[volunteerId];
        if p.activeOrders >= p.maxConcurrentOrders then Failure(AtCapacity)
        else
          var o' := o.(status := VolunteerAssigned, volunteerId := Some(volunteerId),
                       volunteerAssignedAt := Some(now),
                       timeline := o.timeline.(acceptedAt := Some(now)));
          var active := p.activeOrders + 1;
          var p' := p.(activeOrders := active,
                       isAvailable := if active >= p.maxConcurrentOrders then false else p.isAvailable);
          Success(Accepted(o', ledger[volunteerId := p'],
                           Effects([o.buyerId, o.sellerId, volunteerId], [], false)))
  }

  /** Accepting keeps every volunteer within capacity. */
  lemma AcceptPreservesCapacity(order: Option<Order>, volunteerId: UserId, ledger: Ledger, now: Millis)
    requires LedgerWithinCapacity(ledger)
    ensures var r := AcceptRescueRequest(order, volunteerId, ledger, now);
      r.Success? ==> LedgerWithinCapacity(r.value.ledger)
  {
  }

  // ---------------------------------------------------------------------------
  // verifyOtp
  // ---------------------------------------------------------------------------

  datatype VerifyError = OrderNotFound | InvalidOtp

  datatype Verified = Verified(order: Order, ledger: Ledger, effects: Effects)

  /** Statuses in which the seller hands food to the volunteer. */
  predicate BeforePickup(st: Status) {
    st == Placed || st == VolunteerAssigned || st == AwaitingVolunteer
  }

  /** Statuses in which the volunteer carries the food. */
  predicate Carrying(st: Status) {
    st == PickedUp || st == InTransit
  }

  /** The stage rule: which code a given order accepts, and where it leads. */
  predicate AcceptsCode(o: Order, otp: string, next: Status) {
    || (o.fulfillment == SelfPickup && otp == o.handoverOtp && next == Delivered)
    || (o.fulfillment == VolunteerDelivery && BeforePickup(o.status)
        && o.pickupOtp == Some(otp) && next == PickedUp)
    || (o.fulfillment == VolunteerDelivery && Carrying(o.status)
        && otp == o.handoverOtp && next == Delivered)
  }

  /** Some status accepts the code: a passcode only ever leads to `picked_up` or `delivered`. */
  predicate AcceptsSomeCode(o: Order, otp: string) {
    AcceptsCode(o, otp, PickedUp) || AcceptsCode(o, otp, Delivered)
  }

  lemma AcceptedCodesLeadForward(o: Order, otp: string, next: Status)
    requires AcceptsCode(o, otp, next)
    ensures next == PickedUp || next == Delivered
  {
  }

  /** The status a presented code leads to, if any. */
  function NextStatusForCode(o: Order, otp: string): (next: Option<Status>)
    ensures next.Some? <==> AcceptsSomeCode(o, otp)
    ensures next.Some? ==> AcceptsCode(o, otp, next.value)
  {
    if o.fulfillment == SelfPickup then
      if otp == o.handoverOtp then Some(Delivered) else None
    else if BeforePickup(o.status) then
      if o.pickupOtp == Some(otp) then Some(PickedUp) else None
    else if Carrying(o.status) then
      if otp == o.handoverOtp then Some(Delivered) else None
    else None
  }

  /**
   * `verifyOtp`: present a passcode. A code that fits the order's stage moves
   * it one step (to `picked_up` or `delivered`); delivery by a volunteer frees
   * the volunteer's slot and every delivery recomputes the parties' trust.
   */
  function VerifyOtp(order: Option<Order>, otp: string, ledger: Ledger, now: Millis)
    : (r: Result<Verified, VerifyError>)
    ensures order.None? ==> r == Failure(VerifyError.OrderNotFound)
    ensures order.Some? ==>
      (r.Success? <==> AcceptsSomeCode(order.value, otp))
    ensures order.Some? && r.Failure? ==> r.error == InvalidOtp
    ensures r.Success? ==>
      var o := order.value;
      var o' := r.value.order;
      && AcceptsCode(o, otp, o'.status)
      && (o'.status == PickedUp ==>
            && o' == o.(status := PickedUp, timeline := o.timeline.(pickedUpAt := Some(now)))
            && r.value.ledger == ledger
            && r.value.effects.recompute == [])
      && (o'.status == Delivered ==>
            && o' == o.(status := Delivered, timeline := o.timeline.(deliveredAt := Some(now)))
            && r.value.ledger == ReleaseSlot(ledger,
                 if o.fulfillment == VolunteerDelivery then o.volunteerId else None)
            && r.value.effects.notify == [o.buyerId, o.sellerId]
            && r.value.effects.recompute == PartiesOf(o))
  {
    if order.None? then Failure(VerifyError.OrderNotFound)
    else
      var o := order.value;
      match NextStatusForCode(o, otp)
      case None => Failure(InvalidOtp)
      case Some(next) =>
        if next == PickedUp then
          var o' := o.(status := PickedUp, timeline := o.timeline.(pickedUpAt := Some(now)));
          var notify := [o.buyerId] + (if o.volunteerId.Some? then [o.volunteerId.value] else []);
          Success(Verified(o', ledger, Effects(notify, [], false)))
        else
          var o' := o.(status := Delivered, timeline := o.timeline.(deliveredAt := Some(now)));
          var freed := if o.fulfillment == VolunteerDelivery then o.volunteerId else None;
          Success(Verified(o', ReleaseSlot(ledger, freed),
                           Effects([o.buyerId, o.sellerId], PartiesOf(o), false)))
  }

  /** Buyer, seller and (when assigned) volunteer: the parties whose trust is recomputed. */
  function PartiesOf(o: Order): (ts: seq<TrustTarget>)
    ensures |ts| == if o.volunteerId.Some? then 3 else 2
    ensures ts[0] == TrustTarget(Buyer, o.buyerId) && ts[1] == TrustTarget(Seller, o.sellerId)
    ensures o.volunteerId.Some? ==> ts[2] == TrustTarget(Volunteer, o.volunteerId.value)
  {
    [TrustTarget(Buyer, o.buyerId), TrustTarget(Seller, o.sellerId)]
    + (if o.volunteerId.Some? then [TrustTarget(Volunteer, o.volunteerId.value)] else [])
  }

  // ---------------------------------------------------------------------------
  // cancelOrder
  // ---------------------------------------------------------------------------

  const CancelLimit: nat := 3
  const CancelWindowMs: int := 24 * 60 * 60 * 1000
  const BuyerCutoffMs: int := 30 * 60 * 1000
  const MaxMatchAttempts: nat := 3

  datatype CancelError =
    | OrderNotFound
    | AlreadyTerminal(status: Status)
    | CancelLimitReached
    | TooCloseToPickup

  /** Which of the four cancellation branches was taken. */
  datatype CancelKind =
    | MarkedFailed          // food already picked up
    | VolunteerRequeued     // volunteer dropped, order back to awaiting_volunteer
    | NoVolunteerCancelled  // volunteer dropped once too often, cancelled by the system
    | StandardCancelled     // pre-pickup cancellation restoring the listing

  datatype CancelOutcome = CancelOutcome(
    kind: CancelKind,
    order: Order,
    listing: Option<Listing>,
    ledger: Ledger,
    effects: Effects)

  /** The id of the cancelling party on this order (`${cancelledBy}Id`). */
  function PartyId(o: Order, role: Role): (id: Option<UserId>)
    ensures role == Buyer ==> id == Some(o.buyerId)
    ensures role == Seller ==> id == Some(o.sellerId)
    ensures role == Volunteer ==> id == o.volunteerId
    ensures role == System ==> id.None?
  {
    match role
    case Buyer => Some(o.buyerId)
    case Seller => Some(o.sellerId)
    case Volunteer => o.volunteerId
    case System => None
  }

  /** An order in the history that counts against `id` cancelling as `role`. */
  predicate CountsAsRecentCancel(o: Order, role: Role, id: UserId, now: Millis) {
    && o.cancellation.Some? && o.cancellation.value.cancelledBy == role
    && PartyId(o, role) == Some(id)
    && o.timeline.cancelledAt.Some? && o.timeline.cancelledAt.value >= now - CancelWindowMs
  }

  /** The store's `countDocuments` over the order history. */
  function RecentCancellations(history: seq<Order>, role: Role, id: UserId, now: Millis): (n: nat)
    ensures n <= |history|
    ensures n == 0 <==> forall i :: 0 <= i < |history| ==> !CountsAsRecentCancel(history[i], role, id, now)
  {
    if |history| == 0 then 0
    else
      RecentCancellations(history[1..], role, id, now)
      + (if CountsAsRecentCancel(history[0], role, id, now) then 1 else 0)
  }

  /** The rate gate: the canceller, if identified, already cancelled the limit in the window. */
  predicate RateLimited(o: Order, role: Role, history: seq<Order>, now: Millis) {
    var id := PartyId(o, role);
    id.Some? && RecentCancellations(history, role, id.value, now) >= CancelLimit
  }

  /** The buyer cut-off: the scheduled pickup is less than 30 minutes away.
      Only `pickup.scheduledAt` is consulted; the listing's window is never reached. */
  predicate TooCloseForBuyer(o: Order, role: Role, now: Millis) {
    role == Buyer && o.scheduledAt.Some? && o.scheduledAt.value - now < BuyerCutoffMs
  }

  /** The listing after a restorative cancellation: quantity back, reopened if completed. */
  function RestoreListing(l: Listing, quantity: int): (l': Listing)
    ensures l'.remainingQuantity == l.remainingQuantity + quantity
    ensures l.status == Completed && l'.remainingQuantity > 0 ==> l'.status == Active
    ensures !(l.status == Completed && l'.remainingQuantity > 0) ==> l'.status == l.status
    ensures l'.id == l.id && l'.sellerId == l.sellerId && l'.pickupWindowTo == l.pickupWindowTo
  {
    var remaining := l.remainingQuantity + quantity;
    l.(remainingQuantity := remaining,
       status := if l.status == Completed && remaining > 0 then Active else l.status)
  }

  /**
   * `cancelOrder`. Gates, in order: terminal status, the per-role rate limit,
   * the buyer cut-off. Then one of four branches: food in transit fails the
   * order; a volunteer dropping an assigned order re-queues it (or, at the
   * attempt cap, cancels it for the system); otherwise the quantity goes back
   * to the listing and the order is cancelled.
   */
  function CancelOrder(order: Option<Order>, cancelledBy: Role, reason: string,
                       listing: Option<Listing>, history: seq<Order>, ledger: Ledger,
                       now: Millis): (r: Result<CancelOutcome, CancelError>)
    ensures order.None? ==> r == Failure(CancelError.OrderNotFound)
    ensures order.Some? && IsTerminal(order.value.status) ==>
      r == Failure(AlreadyTerminal(order.value.status))
    ensures (order.Some? && !IsTerminal(order.value.status)
             && RateLimited(order.value, cancelledBy, history, now)) ==>
      r == Failure(CancelLimitReached)
    ensures (order.Some? && !IsTerminal(order.value.status)
             && !RateLimited(order.value, cancelledBy, history, now)
             && TooCloseForBuyer(order.value, cancelledBy, now)) ==>
      r == Failure(TooCloseToPickup)
    ensures r.Success? <==>
      && order.Some? && !IsTerminal(order.value.status)
      && !RateLimited(order.value, cancelledBy, history, now)
      && !TooCloseForBuyer(order.value, cancelledBy, now)
    ensures r.Success? ==> CancelledAsPromised(order.value, cancelledBy, reason, listing, ledger, now, r.value)
  {
    if order.None? then Failure(CancelError.OrderNotFound)
    else
      var o := order.value;
      if IsTerminal(o.status) then Failure(AlreadyTerminal(o.status))
      else if RateLimited(o, cancelledBy, history, now) then Failure(CancelLimitReached)
      else if TooCloseForBuyer(o, cancelledBy, now) then Failure(TooCloseToPickup)
      else if Carrying(o.status) then
        var o' := o.(status := Failed, cancellation := Some(Cancellation(cancelledBy, reason)),
                     timeline := o.timeline.(cancelledAt := Some(now)),
                     payment := RefundIfPaid(o.payment, now));
        var notify := [o.buyerId, o.sellerId] + VolunteerOf(o);
        Success(CancelOutcome(MarkedFailed, o', listing, ReleaseSlot(ledger, o.volunteerId),
                              Effects(notify, PartiesOf(o), false)))
      else if cancelledBy == Volunteer && o.status == VolunteerAssigned then
        DropVolunteer(o, listing, ledger, now)
      else
        var o' := o.(status := Cancelled, cancellation := Some(Cancellation(cancelledBy, reason)),
                     timeline := o.timeline.(cancelledAt := Some(now)),
                     payment := RefundIfPaid(o.payment, now));
        var l' := if listing.Some? then Some(RestoreListing(listing.value, o.quantityOrdered)) else None;
        var notify := [o.buyerId]
          + (if cancelledBy != Seller then [o.sellerId] else [])
          + (if cancelledBy != Volunteer then VolunteerOf(o) else []);
        Success(CancelOutcome(StandardCancelled, o', l', ReleaseSlot(ledger, o.volunteerId),
                              Effects(notify, PartiesOf(o), false)))
  }

  /** The reason recorded when the attempt cap cancels an order for the system. */
  const NoVolunteerReason: string := "No volunteer available after multiple attempts"

  /** The assigned volunteer, as a list of zero or one ids. */
  function VolunteerOf(o: Order): (vs: seq<UserId>)
    ensures |vs| <= 1 && (|vs| == 1 <==> o.volunteerId.Some?)
    ensures o.volunteerId.Some? ==> vs[0] == o.volunteerId.value
  {
    if o.volunteerId.Some? then [o.volunteerId.value] else []
  }

  /**
   * The volunteer-drop branch of `cancelOrder`: the slot is freed and the attempt
   * counter bumped; below the cap the order goes back to `awaiting_volunteer`
   * with the assignment cleared and matching restarts, at the cap it is
   * cancelled for the system and refunded. Only the dropping volunteer's trust
   * is recomputed, and the listing is never touched.
   */
  function DropVolunteer(o: Order, listing: Option<Listing>, ledger: Ledger, now: Millis)
    : (r: Result<CancelOutcome, CancelError>)
    ensures r.Success?
    ensures r.value.order.volunteerMatchAttempts == o.volunteerMatchAttempts + 1
    ensures r.value.ledger == ReleaseSlot(ledger, o.volunteerId)
    ensures r.value.listing == listing
    ensures r.value.effects.notify == [o.buyerId, o.sellerId]
    ensures r.value.effects.recompute == (if o.volunteerId.Some? then [TrustTarget(Volunteer, o.volunteerId.value)] else [])
    ensures r.value.kind == NoVolunteerCancelled <==> o.volunteerMatchAttempts + 1 >= MaxMatchAttempts
    ensures r.value.kind == VolunteerRequeued <==> o.volunteerMatchAttempts + 1 < MaxMatchAttempts
    ensures r.value.kind == NoVolunteerCancelled ==>
      && r.value.order == o.(volunteerMatchAttempts := o.volunteerMatchAttempts + 1, status := Cancelled,
                             cancellation := Some(Cancellation(System, NoVolunteerReason)),
                             timeline := o.timeline.(cancelledAt := Some(now)),
                             payment := RefundIfPaid(o.payment, now))
      && !r.value.effects.startMatching
    ensures r.value.kind == VolunteerRequeued ==>
      && r.value.order == o.(volunteerMatchAttempts := o.volunteerMatchAttempts + 1, status := AwaitingVolunteer,
                             volunteerId := None, volunteerAssignedAt := None,
                             timeline := o.timeline.(acceptedAt := None))
      && (r.value.effects.startMatching <==> listing.Some?)
  {
    var attempts := o.volunteerMatchAttempts + 1;
    var dropped := if o.volunteerId.Some? then [TrustTarget(Volunteer, o.volunteerId.value)] else [];
    var ledger' := ReleaseSlot(ledger, o.volunteerId);
    if attempts >= MaxMatchAttempts then
      var o' := o.(volunteerMatchAttempts := attempts, status := Cancelled,
                   cancellation := Some(Cancellation(System, NoVolunteerReason)),
                   timeline := o.timeline.(cancelledAt := Some(now)),
                   payment := RefundIfPaid(o.payment, now));
      Success(CancelOutcome(NoVolunteerCancelled, o', listing, ledger',
                            Effects([o.buyerId, o.sellerId], dropped, false)))
    else
      var o' := o.(volunteerMatchAttempts := attempts, status := AwaitingVolunteer,
                   volunteerId := None, volunteerAssignedAt := None,
                   timeline := o.timeline.(acceptedAt := None));
      Success(CancelOutcome(VolunteerRequeued, o', listing, ledger',
                            Effects([o.buyerId, o.sellerId], dropped, listing.Some?)))
  }

  /**
   * What each cancellation branch promises: the whole resulting order (every
   * field not named keeps its value), the listing, the ledger and who is
   * notified and re-scored.
   */
  predicate CancelledAsPromised(o: Order, role: Role, reason: string, listing: Option<Listing>,
                                ledger: Ledger, now: Millis, c: CancelOutcome)
  {
    var o' := c.order;
    && c.ledger == ReleaseSlot(ledger, o.volunteerId)
    && (c.kind == MarkedFailed <==> Carrying(o.status))
    && (c.kind == MarkedFailed ==>
          && o' == o.(status := Failed, cancellation := Some(Cancellation(role, reason)),
                      timeline := o.timeline.(cancelledAt := Some(now)),
                      payment := RefundIfPaid(o.payment, now))
          && c.listing == listing
          && c.effects == Effects([o.buyerId, o.sellerId] + VolunteerOf(o), PartiesOf(o), false))
    && (c.kind == VolunteerRequeued || c.kind == NoVolunteerCancelled <==>
          !Carrying(o.status) && role == Volunteer && o.status == VolunteerAssigned)
    && (c.kind == VolunteerRequeued || c.kind == NoVolunteerCancelled ==>
          Success(c) == DropVolunteer(o, listing, ledger, now))
    && (c.kind == StandardCancelled ==>
          && o' == o.(status := Cancelled, cancellation := Some(Cancellation(role, reason)),
                      timeline := o.timeline.(cancelledAt := Some(now)),
                      payment := RefundIfPaid(o.payment, now))
          && (c.listing.Some? <==> listing.Some?)
          && (listing.Some? ==> c.listing.value == RestoreListing(listing.value, o.quantityOrdered))
          && c.effects.notify == [o.buyerId] + (if role != Seller then [o.sellerId] else [])
                                 + (if role != Volunteer then VolunteerOf(o) else [])
          && c.effects.recompute == PartiesOf(o)
          && !c.effects.startMatching)
  }

  // ---------------------------------------------------------------------------
  // updateOrder
  // ---------------------------------------------------------------------------

  /** A partial payment record merged over the stored one (`{...old, ...patch}`). */
  datatype PaymentPatch = PaymentPatch(status: Option<PaymentStatus>, refundedAt: Option<Millis>)

  /** The request body of `updateOrder`; an empty status string counts as absent. */
  datatype OrderPatch = OrderPatch(
    status: Option<string>,
    fulfillment: Option<Fulfillment>,
    payment: Option<PaymentPatch>)

  datatype UpdateError =
    | OrderNotFound
    | PaymentMissing(ledger: Ledger)  // `order.payment.toObject()` threw; the slot release already happened

  datatype Updated = Updated(order: Order, ledger: Ledger, effects: Effects)

  /** The two statuses `updateOrder` treats as terminal for releasing capacity. */
  predicate UpdateTerminal(st: Status) {
    st == Delivered || st == Cancelled
  }

  /** A payment patch merged over the stored payment: the patch's fields win. */
  function MergePayment(stored: Payment, patch: PaymentPatch): (p: Payment)
    ensures patch.status.Some? ==> p.status == patch.status.value
    ensures patch.status.None? ==> p.status == stored.status
    ensures patch.refundedAt.Some? ==> p.refundedAt == patch.refundedAt
    ensures patch.refundedAt.None? ==> p.refundedAt == stored.refundedAt
  {
    Payment(patch.status.GetOr(stored.status),
            if patch.refundedAt.Some? then patch.refundedAt else stored.refundedAt)
  }

  /** Merging the same patch twice is merging it once, and an empty patch changes nothing. */
  lemma MergePaymentLaws(stored: Payment, patch: PaymentPatch)
    ensures MergePayment(MergePayment(stored, patch), patch) == MergePayment(stored, patch)
    ensures MergePayment(stored, PaymentPatch(None, None)) == stored
  {
  }

  /** The ledger a call to `updateOrder` leaves behind, whether it returned or threw. */
  function CommittedLedger(r: Result<Updated, UpdateError>, ledger: Ledger): Ledger {
    match r
    case Success(u) => u.ledger
    case Failure(PaymentMissing(l)) => l
    case Failure(OrderNotFound) => ledger
  }

  /**
   * `updateOrder`: a generic patch. Any non-empty status string is stored; a
   * patch to `delivered` or `cancelled` from a status other than those two
   * frees the volunteer's slot (`failed` is not among them) before anything is
   * saved. A payment patch on an order without a stored payment then throws,
   * leaving that release committed and the order unsaved. Otherwise the buyer
   * is notified of any status change, the seller too for the two terminal
   * ones, and those two recompute every party's trust.
   */
  function UpdateOrder(order: Option<Order>, patch: OrderPatch, ledger: Ledger)
    : (r: Result<Updated, UpdateError>)
    ensures order.None? ==> r == Failure(UpdateError.OrderNotFound)
    ensures r.Success? <==> order.Some? && (patch.payment.Some? ==> order.value.payment.Some?)
    ensures order.Some? ==>
      var o := order.value;
      var toTerminal := patch.status == Some("delivered") || patch.status == Some("cancelled");
      var released := if toTerminal && !UpdateTerminal(o.status) then ReleaseSlot(ledger, o.volunteerId) else ledger;
      && CommittedLedger(r, ledger) == released
      && (r.Failure? ==> r.error == PaymentMissing(released))
      && (r.Success? ==>
            var o' := r.value.order;
            var changed := patch.status.Some? && patch.status.value != "";
            && (changed ==> StatusName(o'.status) == patch.status.value)
            && (!changed ==> o'.status == o.status)
            && o'.fulfillment == (if patch.fulfillment.Some? then patch.fulfillment.value else o.fulfillment)
            && (patch.payment.Some? ==> o'.payment == Some(MergePayment(o.payment.value, patch.payment.value)))
            && (patch.payment.None? ==> o'.payment == o.payment)
            && o' == o.(status := o'.status, fulfillment := o'.fulfillment, payment := o'.payment)
            && r.value.effects.notify ==
                 (if changed then [o.buyerId] + (if toTerminal then [o.sellerId] else []) else [])
            && r.value.effects.recompute == (if toTerminal then PartiesOf(o) else [])
            && !r.value.effects.startMatching)
  {
    if order.None? then Failure(UpdateError.OrderNotFound)
    else
      var o := order.value;
      var newStatus := if patch.status.Some? && patch.status.value != "" then Some(ParseStatus(patch.status.value)) else None;
      var status := if newStatus.Some? then newStatus.value else o.status;
      var ledger' :=
        if newStatus.Some? && UpdateTerminal(status) && !UpdateTerminal(o.status)
        then ReleaseSlot(ledger, o.volunteerId) else ledger;
      if patch.payment.Some? && o.payment.None? then Failure(PaymentMissing(ledger'))
      else
        var o' := o.(status := status,
                     fulfillment := if patch.fulfillment.Some? then patch.fulfillment.value else o.fulfillment,
                     payment := if patch.payment.Some? then Some(MergePayment(o.payment.value, patch.payment.value)) else o.payment);
        var notify :=
          if newStatus.None? then []
          else [o.buyerId] + (if UpdateTerminal(status) then [o.sellerId] else []);
        var recompute := if newStatus.Some? && UpdateTerminal(status) then PartiesOf(o) else [];
        Success(Updated(o', ledger', Effects(notify, recompute, false)))
  }
}
