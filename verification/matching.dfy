/**
 * Volunteer matching (`initiateVolunteerMatching`): which nearby volunteers
 * qualify, how they are ranked, who is notified, the one-minute fallback to
 * self-pickup, and the filter `getVolunteerRescueRequests` applies to a
 * volunteer's unread rescue requests. The geospatial search itself is an
 * input: the candidates arrive with their distances already computed.
 */
module Matching {
  import opened Wrappers
  import opened OrderModel

  const MaxDistanceMetres: real := 7000.0
  const MaxNotified: nat := 10
  const FallbackDelayMs: int := 60000
  const DefaultTrust: int := 50

  /** A location field of a listing: absent, present without coordinates, or a point. */
  datatype GeoField = NoGeo | NoCoordinates | Point(lng: real, lat: real)

  /** The point the search is centred on: `pickupGeo`, else the legacy `geo`
      field, else none (and matching stops silently). */
  function SearchCentre(pickupGeo: GeoField, legacyGeo: GeoField): (c: Option<GeoField>)
    ensures c.Some? <==> pickupGeo.Point? || legacyGeo.Point?
    ensures c.Some? ==> c.value.Point?
    ensures pickupGeo.Point? ==> c == Some(pickupGeo)
    ensures !pickupGeo.Point? && legacyGeo.Point? ==> c == Some(legacyGeo)
  {
    if pickupGeo.Point? then Some(pickupGeo)
    else if legacyGeo.Point? then Some(legacyGeo)
    else None
  }

  /** A user returned by the geospatial search, joined with its volunteer profile. */
  datatype Candidate = Candidate(
    userId: UserId,
    distance: real,              // metres from the pickup point
    isVolunteer: bool,           // `role == "volunteer"`
    isActive: bool,
    trustScore: Option<int>,     // `null` or missing is `None`
    profile: Option<VolunteerProfile>)

  /** The search and join conditions: within 7 km, an active volunteer with a
      profile that is available and below its concurrent-order limit. */
  predicate Qualifies(c: Candidate) {
    && c.distance <= MaxDistanceMetres
    && c.isVolunteer && c.isActive
    && c.profile.Some?
    && c.profile.value.isAvailable
    && c.profile.value.activeOrders < c.profile.value.maxConcurrentOrders
  }

  /** Distance score (70 at the pickup point, 0 at 7 km) plus 0.3 of the trust score. */
  function MatchScore(distance: real, trustScore: Option<int>): (score: real)
    ensures score * 100.0 == 7000.0 - distance + 30.0 * trustScore.GetOr(DefaultTrust) as real
  {
    (1.0 - distance / MaxDistanceMetres) * 70.0 + trustScore.GetOr(DefaultTrust) as real * 0.3
  }

  /** Closer is better at equal trust; more trusted is better at equal distance. */
  lemma MatchScoreOrder(d1: real, d2: real, t1: int, t2: int)
    requires d1 <= d2 && t1 >= t2
    ensures MatchScore(d1, Some(t1)) >= MatchScore(d2, Some(t2))
  {
    assert MatchScore(d1, Some(t1)) * 100.0 >= MatchScore(d2, Some(t2)) * 100.0;
  }

  datatype Ranked = Ranked(userId: UserId, distance: real, score: real)

  function RankOf(c: Candidate): (r: Ranked)
    ensures r.userId == c.userId && r.distance == c.distance
    ensures r.score == MatchScore(c.distance, c.trustScore)
  {
    Ranked(c.userId, c.distance, MatchScore(c.distance, c.trustScore))
  }

  /** The candidates that pass the search and join conditions, in search order:
      each qualified candidate as often as the search returned it, no other. */
  function QualifiedOf(cs: seq<Candidate>): (q: seq<Candidate>)
    ensures |q| <= |cs|
    ensures forall c :: c in q <==> c in cs && Qualifies(c)
    ensures forall c :: multiset(q)[c] == if Qualifies(c) then multiset(cs)[c] else 0
  {
    if |cs| == 0 then []
    else
      var rest := QualifiedOf(cs[1..]);
      assert cs == [cs[0]] + cs[1..];
      assert forall c :: c in cs <==> c == cs[0] || c in cs[1..];
      if Qualifies(cs[0]) then [cs[0]] + rest else rest
  }

  function RanksOf(cs: seq<Candidate>): (rs: seq<Ranked>)
    ensures |rs| == |cs|
    ensures forall i :: 0 <= i < |cs| ==> rs[i] == RankOf(cs[i])
  {
    if |cs| == 0 then [] else [RankOf(cs[0])] + RanksOf(cs[1..])
  }

  predicate SortedByScore(s: seq<Ranked>) {
    forall i, j :: 0 <= i < j < |s| ==> s[i].score >= s[j].score
  }

  /** Putting a volunteer in front of a sorted list that it does not outrank keeps it sorted. */
  lemma ConsSorted(a: Ranked, s: seq<Ranked>)
    requires SortedByScore(s)
    requires |s| > 0 ==> a.score >= s[0].score
    ensures SortedByScore([a] + s)
  {
  }

  /** Insert one ranked volunteer into a list sorted by descending score. */
  function Insert(x: Ranked, s: seq<Ranked>): (r: seq<Ranked>)
    requires SortedByScore(s)
    ensures SortedByScore(r)
    ensures multiset(r) == multiset(s) + multiset{x}
    ensures |r| == |s| + 1
    ensures r[0] == x || (|s| > 0 && r[0] == s[0])
  {
    if |s| == 0 then [x]
    else if x.score >= s[0].score then
      ConsSorted(x, s);
      [x] + s
    else
      var rest := Insert(x, s[1..]);
      assert s == [s[0]] + s[1..];
      ConsSorted(s[0], rest);
      [s[0]] + rest
  }

  /** The ranking stage: descending match score. Ties keep no particular order. */
  function SortByScore(s: seq<Ranked>): (r: seq<Ranked>)
    ensures SortedByScore(r)
    ensures multiset(r) == multiset(s)
    ensures |r| == |s|
  {
    if |s| == 0 then []
    else
      assert s == [s[0]] + s[1..];
      Insert(s[0], SortByScore(s[1..]))
  }

  /** Every qualified volunteer, ranked best first. */
  function Ranking(cs: seq<Candidate>): (r: seq<Ranked>)
    ensures SortedByScore(r)
    ensures multiset(r) == multiset(RanksOf(QualifiedOf(cs)))
    ensures |r| == |QualifiedOf(cs)|
  {
    SortByScore(RanksOf(QualifiedOf(cs)))
  }

  /** The entry is the ranking of some qualified candidate among `cs`. */
  predicate FromQualified(cs: seq<Candidate>, x: Ranked) {
    exists c :: c in cs && Qualifies(c) && x == RankOf(c)
  }

  /** A ranked entry always stands for a qualified candidate. */
  lemma RankedIsQualified(cs: seq<Candidate>, x: Ranked)
    requires x in multiset(Ranking(cs))
    ensures FromQualified(cs, x)
  {
    var q := QualifiedOf(cs);
    assert x in RanksOf(q);
    var m :| 0 <= m < |RanksOf(q)| && RanksOf(q)[m] == x;
    assert q[m] in q;
  }

  /** A prefix of a sorted list is sorted. */
  lemma PrefixSorted(r: seq<Ranked>, m: nat)
    requires SortedByScore(r) && m <= |r|
    ensures SortedByScore(r[..m])
  {
  }

  /** The volunteers who receive a rescue request: the best ten of the ranking,
      each as often as it is ranked. */
  function Notified(cs: seq<Candidate>): (n: seq<Ranked>)
    ensures |n| == if |QualifiedOf(cs)| < MaxNotified then |QualifiedOf(cs)| else MaxNotified
    ensures n == Ranking(cs)[..|n|]
    ensures SortedByScore(n)
    ensures forall k :: 0 <= k < |n| ==> FromQualified(cs, n[k])
  {
    var r := Ranking(cs);
    var m := if |r| < MaxNotified then |r| else MaxNotified;
    PrefixSorted(r, m);
    var n := r[..m];
    forall k | 0 <= k < |n|
      ensures FromQualified(cs, n[k])
    {
      assert n[k] in multiset(r);
      RankedIsQualified(cs, n[k]);
    }
    n
  }

  /** Nobody left out of the notification outranks anybody notified. */
  lemma NotifiedDominate(cs: seq<Candidate>, i: int, j: int)
    requires 0 <= i < |Notified(cs)| <= j < |Ranking(cs)|
    ensures Notified(cs)[i].score >= Ranking(cs)[j].score
  {
    assert Notified(cs)[i] == Ranking(cs)[i];
  }

  /** What a matching run leaves behind. */
  datatype MatchPlan =
    | NoSearch                                        // no coordinates on the listing
    | NoneQualified                                   // nobody notified, no fallback
    | Notify(volunteers: seq<UserId>, fallbackAfterMs: int)

  function IdsOf(rs: seq<Ranked>): (ids: seq<UserId>)
    ensures |ids| == |rs|
    ensures forall k :: 0 <= k < |rs| ==> ids[k] == rs[k].userId
  {
    if |rs| == 0 then [] else [rs[0].userId] + IdsOf(rs[1..])
  }

  /** `initiateVolunteerMatching`, given the search result near the chosen centre. */
  function InitiateMatching(pickupGeo: GeoField, legacyGeo: GeoField, candidates: seq<Candidate>)
    : (plan: MatchPlan)
    ensures plan == NoSearch <==> SearchCentre(pickupGeo, legacyGeo).None?
    ensures plan == NoneQualified <==>
      SearchCentre(pickupGeo, legacyGeo).Some? && forall c :: c in candidates ==> !Qualifies(c)
    ensures plan.Notify? ==>
      && 1 <= |plan.volunteers| <= MaxNotified
      && plan.volunteers == IdsOf(Notified(candidates))
      && plan.fallbackAfterMs == FallbackDelayMs
  {
    if SearchCentre(pickupGeo, legacyGeo).None? then NoSearch
    else
      var n := Notified(candidates);
      if |n| == 0 then
        NoneQualified
      else
        assert QualifiedOf(candidates)[0] in candidates;
        Notify(IdsOf(n), FallbackDelayMs)
  }

  /** The fallback timer's effect on the order as it stands when the timer fires. */
  datatype FallbackResult = FallbackResult(order: Option<Order>, notify: seq<UserId>)

  /** Still awaiting a volunteer: switch to self-pickup and tell the buyer.
      Any other state, or a deleted order, is left alone. */
  function FallbackStep(current: Option<Order>): (r: FallbackResult)
    ensures current.Some? && current.value.status == AwaitingVolunteer ==>
      && r.order == Some(current.value.(status := Placed, fulfillment := SelfPickup))
      && r.notify == [current.value.buyerId]
    ensures !(current.Some? && current.value.status == AwaitingVolunteer) ==>
      r.order == current && r.notify == []
  {
    match current
    case Some(o) =>
      if o.status == AwaitingVolunteer
      then FallbackResult(Some(o.(status := Placed, fulfillment := SelfPickup)), [o.buyerId])
      else FallbackResult(current, [])
    case None => FallbackResult(None, [])
  }

  /** A second firing changes nothing and notifies nobody. */
  lemma FallbackIdempotent(current: Option<Order>)
    ensures FallbackStep(FallbackStep(current).order).order == FallbackStep(current).order
    ensures FallbackStep(FallbackStep(current).order).notify == []
  {
  }

  /** A stored rescue-request notification, as the volunteer's inbox holds it. */
  datatype Notification = Notification(
    id: string,
    userId: UserId,
    kind: string,
    isRead: bool,
    orderId: Option<string>)

  /** The store query: unread rescue requests addressed to this volunteer. */
  predicate InInbox(n: Notification, volunteerId: UserId) {
    n.userId == volunteerId && n.kind == "rescue_request" && !n.isRead
  }

  /** A request without a (truthy) order reference is always shown. */
  predicate HasOrderRef(n: Notification) {
    n.orderId.Some? && n.orderId.value != ""
  }

  /** Shown: no order reference, or the order still awaits a volunteer. */
  predicate StillOpen(n: Notification, statuses: map<string, Status>) {
    !HasOrderRef(n) || (n.orderId.value in statuses && statuses[n.orderId.value] == AwaitingVolunteer)
  }

  /** Marked read: the order exists and no longer awaits a volunteer. A
      reference to a deleted order is neither shown nor marked. */
  predicate Stale(n: Notification, statuses: map<string, Status>) {
    HasOrderRef(n) && n.orderId.value in statuses && statuses[n.orderId.value] != AwaitingVolunteer
  }

  /** Reference definition: the requests to show, in inbox order. */
  function OpenRequests(inbox: seq<Notification>, volunteerId: UserId, statuses: map<string, Status>)
    : (r: seq<Notification>)
    ensures |r| <= |inbox|
    ensures forall k :: 0 <= k < |r| ==> InInbox(r[k], volunteerId) && StillOpen(r[k], statuses)
  {
    if |inbox| == 0 then []
    else
      var init, n := inbox[..|inbox| - 1], inbox[|inbox| - 1];
      OpenRequests(init, volunteerId, statuses)
      + (if InInbox(n, volunteerId) && StillOpen(n, statuses) then [n] else [])
  }

  /** Reference definition: the requests to mark read, in inbox order. */
  function StaleRequests(inbox: seq<Notification>, volunteerId: UserId, statuses: map<string, Status>)
    : (r: seq<Notification>)
    ensures |r| <= |inbox|
    ensures forall k :: 0 <= k < |r| ==> InInbox(r[k], volunteerId) && Stale(r[k], statuses)
  {
    if |inbox| == 0 then []
    else
      var init, n := inbox[..|inbox| - 1], inbox[|inbox| - 1];
      StaleRequests(init, volunteerId, statuses)
      + (if InInbox(n, volunteerId) && Stale(n, statuses) then [n] else [])
  }

  /** The reference filters keep exactly the matching requests of the inbox. */
  lemma {:induction false} RequestsMembers(inbox: seq<Notification>, volunteerId: UserId,
                                           statuses: map<string, Status>)
    ensures forall n :: n in OpenRequests(inbox, volunteerId, statuses)
                        <==> n in inbox && InInbox(n, volunteerId) && StillOpen(n, statuses)
    ensures forall n :: n in StaleRequests(inbox, volunteerId, statuses)
                        <==> n in inbox && InInbox(n, volunteerId) && Stale(n, statuses)
  {
    if |inbox| > 0 {
      var init := inbox[..|inbox| - 1];
      assert inbox == init + [inbox[|inbox| - 1]];
      RequestsMembers(init, volunteerId, statuses);
    }
  }

  /** `getVolunteerRescueRequests`: the unread requests to show, in inbox order,
      and the ones to mark read. `statuses` maps each stored order to its status. */
  method FilterRescueRequests(inbox: seq<Notification>, volunteerId: UserId,
                              statuses: map<string, Status>)
    returns (shown: seq<Notification>, markRead: seq<Notification>)
    ensures shown == OpenRequests(inbox, volunteerId, statuses)
    ensures markRead == StaleRequests(inbox, volunteerId, statuses)
    ensures forall n :: n in shown <==> n in inbox && InInbox(n, volunteerId) && StillOpen(n, statuses)
    ensures forall n :: n in markRead <==> n in inbox && InInbox(n, volunteerId) && Stale(n, statuses)
    ensures forall k :: 0 <= k < |markRead| ==> markRead[k].(isRead := true) != markRead[k]
    ensures |shown| + |markRead| <= |inbox|
  {
    shown, markRead := [], [];
    var i := 0;
    while i < |inbox|
      invariant 0 <= i <= |inbox|
      invariant shown == OpenRequests(inbox[..i], volunteerId, statuses)
      invariant markRead == StaleRequests(inbox[..i], volunteerId, statuses)
      invariant |shown| + |markRead| <= i
    {
      var n := inbox[i];
      ghost var upto := inbox[..i + 1];
      assert upto[..i] == inbox[..i] && upto[i] == n;
      assert OpenRequests(upto, volunteerId, statuses) == OpenRequests(inbox[..i], volunteerId, statuses)
        + (if InInbox(n, volunteerId) && StillOpen(n, statuses) then [n] else []);
      assert StaleRequests(upto, volunteerId, statuses) == StaleRequests(inbox[..i], volunteerId, statuses)
        + (if InInbox(n, volunteerId) && Stale(n, statuses) then [n] else []);
      if InInbox(n, volunteerId) {
        if !HasOrderRef(n) {
          shown := shown + [n];
        } else if n.orderId.value in statuses {
          if statuses[n.orderId.value] == AwaitingVolunteer {
            shown := shown + [n];
          } else {
            markRead := markRead + [n];
          }
        }
      }
      i := i + 1;
    }
    assert inbox[..i] == inbox;
    RequestsMembers(inbox, volunteerId, statuses);
  }
}
