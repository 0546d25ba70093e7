/**
 * Records of the food-rescue order lifecycle: orders, listings and the
 * volunteers' capacity ledger, with the status vocabulary the order
 * controller uses (`awaiting_volunteer`, `volunteer_assigned`, ...).
 * Timestamps are integer milliseconds since the epoch.
 */
module OrderModel {
  import opened Wrappers
  import opened JsText

  type UserId = string
  type Millis = int

  /** An order status. The controller stores plain strings and `updateOrder`
      accepts any of them, so an unknown name is carried as `Other`. */
  datatype Status =
    | Placed | AwaitingVolunteer | VolunteerAssigned | PickedUp | InTransit
    | Delivered | Cancelled | Failed
    | Other(name: string)

  function StatusName(st: Status): string {
    match st
    case Placed => "placed"
    case AwaitingVolunteer => "awaiting_volunteer"
    case VolunteerAssigned => "volunteer_assigned"
    case PickedUp => "picked_up"
    case InTransit => "in_transit"
    case Delivered => "delivered"
    case Cancelled => "cancelled"
    case Failed => "failed"
    case Other(name) => name
  }

  /** A status is well formed when an `Other` does not spell a known status. */
  predicate WellFormedStatus(st: Status) {
    st.Other? ==> st.name !in KnownStatusNames
  }

  const KnownStatusNames: set<string> := {
    "placed", "awaiting_volunteer", "volunteer_assigned", "picked_up",
    "in_transit", "delivered", "cancelled", "failed" }

  /** Reading a status string: known names map to their constructor, anything else to `Other`. */
  function ParseStatus(s: string): (st: Status)
    ensures StatusName(st) == s
    ensures WellFormedStatus(st)
  {
    if s == "placed" then Placed
    else if s == "awaiting_volunteer" then AwaitingVolunteer
    else if s == "volunteer_assigned" then VolunteerAssigned
    else if s == "picked_up" then PickedUp
    else if s == "in_transit" then InTransit
    else if s == "delivered" then Delivered
    else if s == "cancelled" then Cancelled
    else if s == "failed" then Failed
    else Other(s)
  }

  /** Writing a well-formed status and reading it back gives the same status. */
  lemma ParseStatusName(st: Status)
    requires WellFormedStatus(st)
    ensures ParseStatus(StatusName(st)) == st
  {
  }

  /** The statuses `cancelOrder` refuses to leave. */
  predicate IsTerminal(st: Status) {
    st == Delivered || st == Cancelled || st == Failed
  }

  datatype Fulfillment = SelfPickup | VolunteerDelivery

  /** The party named in `cancelledBy`. */
  datatype Role = Buyer | Seller | Volunteer | System

  datatype PaymentStatus = Unpaid | Paid | Refunded

  datatype Payment = Payment(status: PaymentStatus, refundedAt: Option<Millis>)

  datatype Cancellation = Cancellation(cancelledBy: Role, reason: string)

  datatype Timeline = Timeline(
    placedAt: Option<Millis>,
    acceptedAt: Option<Millis>,
    pickedUpAt: Option<Millis>,
    deliveredAt: Option<Millis>,
    cancelledAt: Option<Millis>)

  datatype Order = Order(
    id: string,
    listingId: string,
    sellerId: UserId,
    buyerId: UserId,
    volunteerId: Option<UserId>,
    quantityOrdered: int,
    fulfillment: Fulfillment,
    status: Status,
    scheduledAt: Option<Millis>,       // pickup.scheduledAt
    pickupOtp: Option<string>,
    handoverOtp: string,
    timeline: Timeline,
    volunteerAssignedAt: Option<Millis>,
    cancellation: Option<Cancellation>,
    payment: Option<Payment>,
    volunteerMatchAttempts: nat)

  datatype ListingStatus = Active | Completed | Inactive(name: string)

  datatype Listing = Listing(
    id: string,
    sellerId: UserId,
    remainingQuantity: int,
    status: ListingStatus,
    pickupWindowTo: Option<Millis>)   // None: no parsable end time

  /** A volunteer's availability record (`VolunteerProfile.availability`). */
  datatype VolunteerProfile = VolunteerProfile(
    isAvailable: bool,
    activeOrders: int,
    maxConcurrentOrders: int)

  /** The capacity ledger: one availability record per volunteer user id. */
  type Ledger = map<UserId, VolunteerProfile>

  /** A profile within its capacity: at most `maxConcurrentOrders` active orders,
      and not offered for matching when full. */
  predicate WithinCapacity(p: VolunteerProfile) {
    && 0 <= p.activeOrders <= p.maxConcurrentOrders
    && (p.activeOrders == p.maxConcurrentOrders ==> !p.isAvailable)
  }

  predicate LedgerWithinCapacity(l: Ledger) {
    forall v :: v in l ==> WithinCapacity(l[v])
  }

  /** Freeing one slot: `$inc activeOrders -1, $set isAvailable true` on the
      volunteer's profile, when the volunteer is present and has a profile. */
  function ReleaseSlot(l: Ledger, v: Option<UserId>): (l': Ledger)
    ensures l'.Keys == l.Keys
    ensures forall u :: u in l && (v.None? || u != v.value) ==> l'[u] == l[u]
    ensures v.Some? && v.value in l ==>
      && l'[v.value].activeOrders == l[v.value].activeOrders - 1
      && l'[v.value].maxConcurrentOrders == l[v.value].maxConcurrentOrders
      && l'[v.value].isAvailable
  {
    if v.Some? && v.value in l then
      var p := l[v.value];
      l[v.value := p.(activeOrders := p.activeOrders - 1, isAvailable := true)]
    else l
  }

  /** Releasing a slot keeps the ledger within capacity as long as the
      released volunteer actually held one. */
  lemma ReleasePreservesCapacity(l: Ledger, v: Option<UserId>)
    requires LedgerWithinCapacity(l)
    requires v.Some? && v.value in l ==> l[v.value].activeOrders > 0
    ensures LedgerWithinCapacity(ReleaseSlot(l, v))
  {
  }

  /** Flagging a paid order for refund (`paid -> refunded`, stamped `now`);
      any other payment state is left as it is. */
  function RefundIfPaid(p: Option<Payment>, now: Millis): (r: Option<Payment>)
    ensures p.Some? && p.value.status == Paid ==> r == Some(Payment(Refunded, Some(now)))
    ensures !(p.Some? && p.value.status == Paid) ==> r == p
    ensures r.Some? <==> p.Some?
  {
    if p.Some? && p.value.status == Paid then Some(Payment(Refunded, Some(now))) else p
  }

  /** A party whose trust score is recomputed after a transition. */
  datatype TrustTarget = TrustTarget(role: Role, user: UserId)

  /** The secondary effects of a committed transition: who is notified, whose
      trust score is recomputed, and whether volunteer matching is (re)started. */
  datatype Effects = Effects(
    notify: seq<UserId>,
    recompute: seq<TrustTarget>,
    startMatching: bool)

  /** A one-time passcode as `Math.floor(1000 + Math.random() * 9000).toString()` yields. */
  predicate IsOtp(s: string) {
    |s| == 4 && AllAsciiDigits(s) && 1000 <= ParseDecimal(s) <= 9999
  }

  /** Drawing a passcode from one `Math.random()` value. */
  function OtpFromDraw(draw: real): (otp: string)
    requires 0.0 <= draw < 1.0
    ensures IsOtp(otp)
  {
    var n := (1000.0 + draw * 9000.0).Floor;
    assert 1000 <= n <= 9999;
    DecimalOfFourDigits(n);
    ParseDecimalOfDecimal(n);
    Decimal(n)
  }
}
