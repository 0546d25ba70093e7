/**
 * Gamification arithmetic (`addPoints`, `updateTrustScore`): points per
 * action, level every 500 points, two threshold badges, and the
 * verification/performance/feedback trust-score breakdown.
 */
module Gamification {
  import opened Wrappers
  import opened JsMath
  import opened UserModel

  datatype Action = PostDonation | CompleteDonation | CompleteDelivery | ReceiveReview

  function ActionName(a: Action): string {
    match a
    case PostDonation => "POST_DONATION"
    case CompleteDonation => "COMPLETE_DONATION"
    case CompleteDelivery => "COMPLETE_DELIVERY"
    case ReceiveReview => "RECEIVE_REVIEW"
  }

  /** The `switch` over `actionType`: exactly the four names are recognised. */
  function ParseAction(s: string): (a: Option<Action>)
    ensures a.Some? ==> ActionName(a.value) == s
    ensures a.None? ==> forall b: Action :: ActionName(b) != s
  {
    if s == "POST_DONATION" then Some(PostDonation)
    else if s == "COMPLETE_DONATION" then Some(CompleteDonation)
    else if s == "COMPLETE_DELIVERY" then Some(CompleteDelivery)
    else if s == "RECEIVE_REVIEW" then Some(ReceiveReview)
    else None
  }

  lemma ParseActionName(a: Action)
    ensures ParseAction(ActionName(a)) == Some(a)
  {
  }

  /** `POINTS_CONFIG`. */
  function PointsFor(a: Action): (p: nat)
    ensures p == 50 || p == 100 || p == 200 || p == 10
  {
    match a
    case PostDonation => 50
    case CompleteDonation => 100
    case CompleteDelivery => 200
    case ReceiveReview => 10
  }

  const PointsPerLevel: int := 500
  const Newcomer: string := "Newcomer"
  const GenerousGiver: string := "Generous Giver"
  const NewcomerPoints: int := 100
  const GenerousGiverPoints: int := 1000

  /** `Math.floor(points / 500) + 1`: the level whose 500-point band holds `points`. */
  function LevelFor(points: int): (l: int)
    ensures (l - 1) * PointsPerLevel <= points < l * PointsPerLevel
  {
    points / PointsPerLevel + 1
  }

  lemma LevelForMonotone(p: int, q: int)
    requires p <= q
    ensures LevelFor(p) <= LevelFor(q)
  {
  }

  /** Push `badge` when it is earned and not yet held. */
  function Award(badges: seq<string>, badge: string, earned: bool): (r: seq<string>)
    ensures r == badges || r == badges + [badge]
    ensures badge in r <==> badge in badges || earned
    ensures forall b :: b != badge ==> (b in r <==> b in badges)
  {
    if earned && badge !in badges then badges + [badge] else badges
  }

  predicate NoDuplicates(s: seq<string>) {
    forall i, j :: 0 <= i < j < |s| ==> s[i] != s[j]
  }

  lemma AwardKeepsNoDuplicates(badges: seq<string>, badge: string, earned: bool)
    requires NoDuplicates(badges)
    ensures NoDuplicates(Award(badges, badge, earned))
  {
  }

  datatype GameError = UserNotFound | InvalidAction | TrustScoreRejected

  datatype PointsAdded = PointsAdded(user: User, added: nat)

  /** `addPoints`: the user's record after one action, or why nothing changed. */
  function AddPoints(user: Option<User>, actionType: string): (r: Result<PointsAdded, GameError>)
    ensures user.None? ==> r == Failure(UserNotFound)
    ensures user.Some? && ParseAction(actionType).None? ==> r == Failure(InvalidAction)
    ensures r.Success? <==> user.Some? && ParseAction(actionType).Some?
    ensures r.Success? ==>
      var u, u' := user.value, r.value.user;
      && r.value.added == PointsFor(ParseAction(actionType).value)
      && u'.points == u.points + r.value.added
      && u'.level == Max(u.level, LevelFor(u'.points))
      && u.badges <= u'.badges
      && (Newcomer in u'.badges <==> Newcomer in u.badges || u'.points >= NewcomerPoints)
      && (GenerousGiver in u'.badges <==> GenerousGiver in u.badges || u'.points >= GenerousGiverPoints)
      && (forall b :: b in u'.badges ==> b in u.badges || b == Newcomer || b == GenerousGiver)
      && u' == u.(points := u'.points, level := u'.level, badges := u'.badges)
  {
    if user.None? then Failure(UserNotFound)
    else
      var action := ParseAction(actionType);
      if action.None? then Failure(InvalidAction)
      else
        var u := user.value;
        var added := PointsFor(action.value);
        var points := u.points + added;
        var newLevel := LevelFor(points);
        var level := if newLevel > u.level then newLevel else u.level;
        var withNewcomer := Award(u.badges, Newcomer, points >= NewcomerPoints);
        var badges := Award(withNewcomer, GenerousGiver, points >= GenerousGiverPoints);
        Success(PointsAdded(u.(points := points, level := level, badges := badges), added))
  }

  /** Points and level only grow, and no badge is ever held twice. */
  lemma AddPointsMonotone(user: User, actionType: string)
    requires AddPoints(Some(user), actionType).Success?
    ensures var u' := AddPoints(Some(user), actionType).value.user;
      && u'.points > user.points
      && u'.level >= user.level
      && (NoDuplicates(user.badges) ==> NoDuplicates(u'.badges))
  {
    var u := user;
    var points := u.points + PointsFor(ParseAction(actionType).value);
    if NoDuplicates(u.badges) {
      AwardKeepsNoDuplicates(u.badges, Newcomer, points >= NewcomerPoints);
      AwardKeepsNoDuplicates(Award(u.badges, Newcomer, points >= NewcomerPoints), GenerousGiver,
                             points >= GenerousGiverPoints);
    }
  }

  /** A new user's first delivery: 200 points, still level 1, and the Newcomer badge. */
  lemma FirstDeliveryExample(role: AccountRole, phone: string, location: string)
    ensures var r := AddPoints(Some(NewUser(role, phone, location)), "COMPLETE_DELIVERY");
      && r.Success? && r.value.added == 200
      && r.value.user.points == 200 && r.value.user.level == 1
      && r.value.user.badges == [Newcomer]
  {
  }

  /** The optional request fields `updateTrustScore` reads. */
  datatype TrustInputs = TrustInputs(
    isIdVerified: bool,
    reliabilityRate: Option<real>,
    averageRating: Option<real>)

  datatype Breakdown = Breakdown(verification: int, performance: int, feedback: real)

  const PhoneWeight: int := 10
  const IdWeight: int := 20
  const LocationWeight: int := 10
  const ReliabilityBonus: int := 10
  const ReliabilityThreshold: real := 0.95

  /** Up to 40 points for a phone, a verified id and a location. */
  function VerificationScore(u: User, idVerified: bool): (v: int)
    ensures 0 <= v <= PhoneWeight + IdWeight + LocationWeight
    ensures v == PhoneWeight + IdWeight + LocationWeight <==> u.phone != "" && idVerified && u.location != ""
    ensures v == 0 <==> u.phone == "" && !idVerified && u.location == ""
  {
    (if u.phone != "" then PhoneWeight else 0)
    + (if idVerified then IdWeight else 0)
    + (if u.location != "" then LocationWeight else 0)
  }

  /** Two points per hundred earned, capped at 30, plus 10 for reliability above 95%. */
  function PerformanceScore(points: int, reliability: Option<real>): (p: int)
    ensures p <= 40
    ensures points >= 0 ==> p >= 0
    ensures points >= 1500 ==> p >= 30
  {
    var activity := points / 100 * 2;
    (if activity < 30 then activity else 30)
    + (if reliability.Some? && reliability.value > ReliabilityThreshold then ReliabilityBonus else 0)
  }

  /** The average rating scaled from 0..5 to 0..20; a missing or zero rating gives 0. */
  function FeedbackScore(averageRating: Option<real>): (f: real)
    ensures averageRating.Some? && averageRating.value != 0.0 ==> f * 5.0 == averageRating.value * 20.0
    ensures averageRating.None? || averageRating.value == 0.0 ==> f == 0.0
    ensures averageRating.Some? && 0.0 <= averageRating.value <= 5.0 ==> 0.0 <= f <= 20.0
  {
    if averageRating.Some? && averageRating.value != 0.0 then averageRating.value / 5.0 * 20.0
    else 0.0
  }

  datatype TrustUpdated = TrustUpdated(user: User, breakdown: Breakdown)

  /** `updateTrustScore`: the rounded, capped total replaces the stored score.
      A total that rounds below 0 fails the schema's `min` validator on save. */
  function UpdateTrustScore(user: Option<User>, inputs: TrustInputs): (r: Result<TrustUpdated, GameError>)
    ensures user.None? ==> r == Failure(UserNotFound)
    ensures r.Success? ==>
      var b := r.value.breakdown;
      var total := (b.verification + b.performance) as real + b.feedback;
      && b == Breakdown(VerificationScore(user.value, inputs.isIdVerified),
                        PerformanceScore(user.value.points, inputs.reliabilityRate),
                        FeedbackScore(inputs.averageRating))
      && r.value.user == user.value.(trustScore := r.value.user.trustScore)
      && r.value.user.trustScore == Round(if total < 100.0 then total else 100.0)
      && TrustScoreInRange(r.value.user.trustScore)
    ensures user.Some? ==>
      var total := (VerificationScore(user.value, inputs.isIdVerified)
                    + PerformanceScore(user.value.points, inputs.reliabilityRate)) as real
                   + FeedbackScore(inputs.averageRating);
      (r == Failure(TrustScoreRejected) <==> Round(if total < 100.0 then total else 100.0) < MinTrustScore)
    ensures r.Failure? ==> r.error == UserNotFound || r.error == TrustScoreRejected
  {
    if user.None? then Failure(UserNotFound)
    else
      var u := user.value;
      var b := Breakdown(VerificationScore(u, inputs.isIdVerified),
                         PerformanceScore(u.points, inputs.reliabilityRate),
                         FeedbackScore(inputs.averageRating));
      var sum := (b.verification + b.performance) as real + b.feedback;
      var total := if sum < 100.0 then sum else 100.0;
      var score := Round(total);
      RoundMonotone(total, 100.0);
      RoundOfInt(100);
      if score < MinTrustScore then Failure(TrustScoreRejected)
      else Success(TrustUpdated(u.(trustScore := score), b))
  }

  /** With non-negative points and a rating in 0..5 the update always succeeds. */
  lemma UpdateTrustScoreInRange(user: User, inputs: TrustInputs)
    requires user.points >= 0
    requires inputs.averageRating.Some? ==> 0.0 <= inputs.averageRating.value <= 5.0
    ensures UpdateTrustScore(Some(user), inputs).Success?
  {
    var b := Breakdown(VerificationScore(user, inputs.isIdVerified),
                       PerformanceScore(user.points, inputs.reliabilityRate),
                       FeedbackScore(inputs.averageRating));
    var sum := (b.verification + b.performance) as real + b.feedback;
    assert sum >= 0.0;
    RoundMonotone(0.0, if sum < 100.0 then sum else 100.0);
    RoundOfInt(0);
  }

  /** A user with 200 points, no phone or location, a verified id, 96%
      reliability and a 4.5 average rating scores 20 + 14 + 18 = 52. */
  lemma TrustScoreExample(role: AccountRole)
    ensures var u := NewUser(role, "", "").(points := 200);
      var r := UpdateTrustScore(Some(u), TrustInputs(true, Some(0.96), Some(4.5)));
      && r.Success?
      && r.value.breakdown == Breakdown(20, 14, 18.0)
      && r.value.user.trustScore == 52
  {
    RoundOfInt(52);
  }
}
