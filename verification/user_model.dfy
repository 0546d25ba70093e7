/**
 * The user record the gamification and identity-verification controllers
 * read and write (`models/User.js`): role, contact fields, points, level,
 * badges and a trust score the schema keeps within 0..100.
 */
module UserModel {

  /** `role` as stored; the controllers only branch on these two values. */
  datatype AccountRole = VolunteerAccount | SellerAccount | OtherAccount(name: string)

  datatype User = User(
    role: AccountRole,
    phone: string,          // "" when unset
    location: string,       // "" when unset
    points: int,
    level: int,
    badges: seq<string>,
    trustScore: int)

  const DefaultTrustScore: int := 50
  const MinTrustScore: int := 0
  const MaxTrustScore: int := 100

  /** The schema's `min`/`max` validator on `trustScore`, checked on save. */
  predicate TrustScoreInRange(score: int) {
    MinTrustScore <= score <= MaxTrustScore
  }

  /** A freshly created user: schema defaults. */
  function NewUser(role: AccountRole, phone: string, location: string): (u: User)
    ensures u.points == 0 && u.level == 1 && u.badges == []
    ensures TrustScoreInRange(u.trustScore)
  {
    User(role, phone, location, 0, 1, [], DefaultTrustScore)
  }
}
