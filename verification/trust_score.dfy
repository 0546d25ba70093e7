/**
 * Trust-score recomputation from order history (`recomputeBuyerTrustScore`,
 * `recomputeSellerTrustScore`, `recomputeVolunteerTrustScore`) and the account
 * standing derived from a score (`applyTrustScore`). Rates are exact rationals;
 * `Math.round` is applied to each weighted term separately.
 */
module TrustScore {
  import opened Wrappers
  import opened OrderModel
  import opened JsMath

  /** A delivery counts as on time up to one hour after the scheduled pickup. */
  const OnTimeToleranceMs: int := 1000 * 60 * 60
  const NeutralScore: int := 50

  /** The orders a role's recomputation reads: every order for a buyer, only
      terminal ones for a seller or a volunteer. */
  predicate Relevant(o: Order, role: Role, id: UserId) {
    match role
    case Buyer => o.buyerId == id
    case Seller => o.sellerId == id && IsTerminal(o.status)
    case Volunteer => o.volunteerId == Some(id) && IsTerminal(o.status)
    case System => false
  }

  /** Orders held against the party: buyer-cancelled for a buyer; cancelled by
      that role, or failed, for a seller or volunteer. */
  predicate Penalised(o: Order, role: Role) {
    var cancelledByRole := o.status == Cancelled && o.cancellation.Some?
                           && o.cancellation.value.cancelledBy == role;
    match role
    case Buyer => cancelledByRole
    case Seller => cancelledByRole || o.status == Failed
    case Volunteer => cancelledByRole || o.status == Failed
    case System => false
  }

  /** A delivered order counts as on time when delivered within the tolerance of
      its scheduled pickup, or delivered with no scheduled pickup at all. */
  predicate OnTime(o: Order) {
    && o.status == Delivered
    && o.timeline.deliveredAt.Some?
    && (o.scheduledAt.None? || o.timeline.deliveredAt.value - o.scheduledAt.value <= OnTimeToleranceMs)
  }

  datatype Tally = Tally(total: nat, completed: nat, penalised: nat, onTime: nat) {
    /** Completed and penalised orders are disjoint parts of the total. */
    predicate Consistent() {
      completed + penalised <= total && onTime <= completed
    }

    function Plus(other: Tally): Tally {
      Tally(total + other.total, completed + other.completed,
            penalised + other.penalised, onTime + other.onTime)
    }
  }

  /** One order's contribution to a party's tally. */
  function TallyOne(o: Order, role: Role, id: UserId): (t: Tally)
    ensures t.Consistent() && t.total <= 1
    ensures t.total == 1 <==> Relevant(o, role, id)
  {
    if !Relevant(o, role, id) then Tally(0, 0, 0, 0)
    else Tally(1, if o.status == Delivered then 1 else 0,
               if Penalised(o, role) then 1 else 0,
               if OnTime(o) then 1 else 0)
  }

  /** The counts the recomputation loop accumulates over the party's orders. */
  function TallyOf(orders: seq<Order>, role: Role, id: UserId): (t: Tally)
    ensures t.Consistent()
    ensures t.total <= |orders|
  {
    if |orders| == 0 then Tally(0, 0, 0, 0)
    else TallyOf(orders[..|orders| - 1], role, id).Plus(TallyOne(orders[|orders| - 1], role, id))
  }

  /** Tallies add up over a split history. */
  lemma {:induction false} TallyOfConcat(a: seq<Order>, b: seq<Order>, role: Role, id: UserId)
    ensures TallyOf(a + b, role, id) == TallyOf(a, role, id).Plus(TallyOf(b, role, id))
    decreases |b|
  {
    if |b| == 0 {
      assert a + b == a;
    } else {
      var ab, b' := a + b, b[..|b| - 1];
      var last := TallyOne(b[|b| - 1], role, id);
      assert ab[..|ab| - 1] == a + b' && ab[|ab| - 1] == b[|b| - 1];
      assert TallyOf(ab, role, id) == TallyOf(a + b', role, id).Plus(last);
      assert TallyOf(b, role, id) == TallyOf(b', role, id).Plus(last);
      TallyOfConcat(a, b', role, id);
      PlusAssociative(TallyOf(a, role, id), TallyOf(b', role, id), last);
    }
  }

  lemma PlusAssociative(x: Tally, y: Tally, z: Tally)
    ensures x.Plus(y).Plus(z) == x.Plus(y.Plus(z))
  {
  }

  /** A history with no order concerning the party leaves the tally empty. */
  lemma {:induction false} NoneRelevantEmptyTally(orders: seq<Order>, role: Role, id: UserId)
    requires forall i :: 0 <= i < |orders| ==> !Relevant(orders[i], role, id)
    ensures TallyOf(orders, role, id).total == 0
  {
    if |orders| > 0 {
      var init := orders[..|orders| - 1];
      assert forall i :: 0 <= i < |init| ==> init[i] == orders[i];
      NoneRelevantEmptyTally(init, role, id);
    }
  }

  /** Any order concerning the party is counted. */
  lemma {:induction false} RelevantCounted(orders: seq<Order>, role: Role, id: UserId, j: int)
    requires 0 <= j < |orders| && Relevant(orders[j], role, id)
    ensures TallyOf(orders, role, id).total > 0
  {
    var init := orders[..|orders| - 1];
    var last := orders[|orders| - 1];
    assert TallyOf(orders, role, id).total
        == TallyOf(init, role, id).total + TallyOne(last, role, id).total;
    if j < |init| {
      assert init[j] == orders[j];
      RelevantCounted(init, role, id, j);
    } else {
      assert TallyOne(last, role, id).total == 1;
    }
  }

  /** A tally is empty exactly when no order in the history concerns the party. */
  lemma TallyEmptyIffNoneRelevant(orders: seq<Order>, role: Role, id: UserId)
    ensures TallyOf(orders, role, id).total == 0 <==>
      forall i :: 0 <= i < |orders| ==> !Relevant(orders[i], role, id)
  {
    if forall i :: 0 <= i < |orders| ==> !Relevant(orders[i], role, id) {
      NoneRelevantEmptyTally(orders, role, id);
    } else {
      var j :| 0 <= j < |orders| && Relevant(orders[j], role, id);
      RelevantCounted(orders, role, id, j);
    }
  }

  /** The weighted score `50 + round(30·c/t) − round(30·x/t) + round(20·o/c)`, clamped to [0, 100]. */
  function ScoreOf(t: Tally): (score: int)
    requires t.total > 0 && t.Consistent()
    ensures 0 <= score <= 100
  {
    var completionTerm := Round(30.0 * t.completed as real / t.total as real);
    var cancelTerm := Round(30.0 * t.penalised as real / t.total as real);
    var onTimeTerm := if t.completed > 0 then Round(20.0 * t.onTime as real / t.completed as real) else 0;
    var raw := NeutralScore + completionTerm - cancelTerm + onTimeTerm;
    if raw > 100 then 100 else if raw < 0 then 0 else raw
  }

  /** The clamped score lies in [20, 100] for every consistent non-empty tally:
      each rounded term lies between 0 and its weight, so the sum is at least
      50 − 30 and at most 50 + 30 + 20 whatever the counts are. */
  lemma ScoreAtLeastTwenty(t: Tally)
    requires t.total > 0 && t.Consistent()
    ensures 20 <= ScoreOf(t) <= 100
  {
    var n := t.total as real;
    assert 0.0 <= 30.0 * t.penalised as real / n <= 30.0;
    RoundMonotone(30.0 * t.penalised as real / n, 30.0);
    RoundOfInt(30);
    RoundMonotone(0.0, 30.0 * t.completed as real / n);
    RoundOfInt(0);
    if t.completed > 0 {
      RoundMonotone(0.0, 20.0 * t.onTime as real / t.completed as real);
    }
  }

  datatype AccountStatus = AccountActive | Warned | Locked

  /** `applyTrustScore`'s thresholds: locked below 10, warned below 20. */
  function AccountStatusFor(score: int): (s: AccountStatus)
    ensures s == Locked <==> score < 10
    ensures s == Warned <==> 10 <= score < 20
    ensures s == AccountActive <==> score >= 20
  {
    if score < 10 then Locked else if score < 20 then Warned else AccountActive
  }

  /** What a recomputation writes to the user record. */
  datatype TrustWrite =
    | NoWrite                                   // no id to recompute for
    | DefaultScoreOnly                          // no relevant orders: `trustScore := 50`
    | ScoreAndStatus(score: int, status: AccountStatus)

  /** The recomputation for one party in one role over the whole order history. */
  function Recompute(history: seq<Order>, role: Role, id: UserId): (w: TrustWrite)
    ensures id == "" || role == System ==> w == NoWrite
    ensures w == DefaultScoreOnly <==>
      id != "" && role != System && forall i :: 0 <= i < |history| ==> !Relevant(history[i], role, id)
    ensures w.ScoreAndStatus? ==> 20 <= w.score <= 100 && w.status == AccountActive
  {
    if id == "" || role == System then NoWrite
    else
      var t := TallyOf(history, role, id);
      TallyEmptyIffNoneRelevant(history, role, id);
      if t.total == 0 then DefaultScoreOnly
      else
        var score := ScoreOf(t);
        ScoreAtLeastTwenty(t);
        ScoreAndStatus(score, AccountStatusFor(score))
  }

  datatype Account = Account(trustScore: int, accountStatus: AccountStatus)

  /** Persisting a write; the default-score write leaves the account status alone. */
  function ApplyWrite(a: Account, w: TrustWrite): (a': Account)
    ensures w.NoWrite? ==> a' == a
    ensures w.DefaultScoreOnly? ==> a' == a.(trustScore := NeutralScore)
    ensures w.ScoreAndStatus? ==> a' == Account(w.score, AccountStatusFor(w.score))
  {
    match w
    case NoWrite => a
    case DefaultScoreOnly => a.(trustScore := NeutralScore)
    case ScoreAndStatus(s, st) => Account(s, AccountStatusFor(s))
  }

  /** Recomputing never locks or warns an account: the `locked` and `warned`
      branches of `applyTrustScore` are unreachable from a recomputation, and an
      account already locked or warned stays so only if it has no relevant orders. */
  lemma RecomputeNeverLocks(a: Account, history: seq<Order>, role: Role, id: UserId)
    ensures var a' := ApplyWrite(a, Recompute(history, role, id));
      a'.accountStatus == a.accountStatus || a'.accountStatus == AccountActive
  {
  }

  /** Taking the same order out of two histories with equal contents leaves
      histories with equal contents. */
  lemma RemoveSame(init: seq<Order>, x: Order, b1: seq<Order>, b2: seq<Order>)
    requires multiset(init + [x]) == multiset(b1 + [x] + b2)
    ensures multiset(init) == multiset(b1 + b2)
  {
    calc {
      multiset(init);
      multiset(init + [x]) - multiset{x};
      multiset(b1 + [x] + b2) - multiset{x};
      multiset(b1) + multiset(b2);
      multiset(b1 + b2);
    }
  }

  lemma PlusSwap(x: Tally, y: Tally, z: Tally)
    ensures x.Plus(y).Plus(z) == x.Plus(z).Plus(y)
  {
  }

  /** An order in the middle of a history counts as if it came last. */
  lemma TallyMiddle(b1: seq<Order>, x: Order, b2: seq<Order>, role: Role, id: UserId)
    ensures TallyOf(b1 + [x] + b2, role, id) == TallyOf(b1 + b2, role, id).Plus(TallyOne(x, role, id))
  {
    var t1, t2, one := TallyOf(b1, role, id), TallyOf(b2, role, id), TallyOne(x, role, id);
    TallyOfConcat(b1 + [x], b2, role, id);
    TallyOfConcat(b1, [x], role, id);
    TallyOfSingleton(x, role, id);
    assert TallyOf(b1 + [x], role, id) == t1.Plus(one);
    TallyOfConcat(b1, b2, role, id);
    PlusSwap(t1, one, t2);
  }

  /** Reordering the history in any way leaves the tally unchanged. */
  lemma {:induction false} TallyPermutation(a: seq<Order>, b: seq<Order>, role: Role, id: UserId)
    requires multiset(a) == multiset(b)
    ensures TallyOf(a, role, id) == TallyOf(b, role, id)
    decreases |a|
  {
    if |a| == 0 {
      assert |b| == |multiset(b)| == 0;
    } else {
      var init, x := a[..|a| - 1], a[|a| - 1];
      assert a == init + [x];
      assert x in multiset(b);
      var j :| 0 <= j < |b| && b[j] == x;
      var b1, b2 := b[..j], b[j + 1..];
      assert b == b1 + [x] + b2;
      RemoveSame(init, x, b1, b2);
      TallyPermutation(init, b1 + b2, role, id);
      TallyMiddle(b1, x, b2, role, id);
    }
  }

  /** The order in which the store returns a party's orders does not change
      what a recomputation writes. */
  lemma RecomputeOrderIndependent(a: seq<Order>, b: seq<Order>, role: Role, id: UserId)
    requires multiset(a) == multiset(b)
    ensures Recompute(a, role, id) == Recompute(b, role, id)
  {
    TallyPermutation(a, b, role, id);
  }

  /** Helper for the examples below: the write for a non-empty tally is its score
      and the standing that score gives. */
  lemma RecomputeFromTally(history: seq<Order>, role: Role, id: UserId, t: Tally, score: int)
    requires id != "" && role != System
    requires TallyOf(history, role, id) == t && t.total > 0 && ScoreOf(t) == score
    ensures Recompute(history, role, id) == ScoreAndStatus(score, AccountStatusFor(score))
  {
  }

  lemma TallyOfSingleton(o: Order, role: Role, id: UserId)
    ensures TallyOf([o], role, id) == TallyOne(o, role, id)
  {
    assert [o][..0] == [];
  }

  /** A buyer whose only order was delivered, with no scheduled pickup, scores 100. */
  lemma SingleDeliveryScoresHundred(o: Order)
    requires o.status == Delivered && o.timeline.deliveredAt.Some? && o.scheduledAt.None?
    requires o.buyerId != ""
    ensures Recompute([o], Buyer, o.buyerId) == ScoreAndStatus(100, AccountActive)
  {
    TallyOfSingleton(o, Buyer, o.buyerId);
    assert TallyOne(o, Buyer, o.buyerId) == Tally(1, 1, 0, 1);
    PerfectTallyScore();
    RecomputeFromTally([o], Buyer, o.buyerId, Tally(1, 1, 0, 1), 100);
  }

  lemma PerfectTallyScore()
    ensures ScoreOf(Tally(1, 1, 0, 1)) == 100
  {
    assert 30.0 * (1 as real) / (1 as real) == 30.0;
    assert 30.0 * (0 as real) / (1 as real) == 0.0;
    assert 20.0 * (1 as real) / (1 as real) == 20.0;
    RoundOfInt(30);
    RoundOfInt(20);
    RoundOfInt(0);
  }

  /** A seller whose orders all failed reaches the floor of 20 and stays active. */
  lemma AllFailedScoresTwenty(o: Order)
    requires o.status == Failed && o.sellerId != ""
    ensures Recompute([o], Seller, o.sellerId) == ScoreAndStatus(20, AccountActive)
  {
    TallyOfSingleton(o, Seller, o.sellerId);
    FailedTallyOne(o);
    FailedTallyScore();
    RecomputeFromTally([o], Seller, o.sellerId, Tally(1, 0, 1, 0), 20);
  }

  lemma FailedTallyOne(o: Order)
    requires o.status == Failed
    ensures TallyOne(o, Seller, o.sellerId) == Tally(1, 0, 1, 0)
  {
    assert Relevant(o, Seller, o.sellerId);
    assert Penalised(o, Seller);
    assert !OnTime(o);
  }

  lemma FailedTallyScore()
    ensures ScoreOf(Tally(1, 0, 1, 0)) == 20
  {
    assert 30.0 * (1 as real) / (1 as real) == 30.0;
    assert 30.0 * (0 as real) / (1 as real) == 0.0;
    RoundOfInt(30);
    RoundOfInt(0);
  }
}
