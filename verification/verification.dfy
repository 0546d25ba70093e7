/**
 * The mock identity check `verifyAadhaar`: which error is reported, the
 * `lastFour` echoed back, and how a matching user's role profile and trust
 * score are upgraded. The user and profile lookups are passed in as values.
 */
module Verification {
  import opened Wrappers
  import opened JsText
  import opened JsMath
  import opened UserModel
  import opened AadhaarValidator

  datatype IdProof = IdProof(submitted: bool, verified: bool, documentUrl: string)

  /** The parts of a volunteer profile this check writes. */
  datatype VolunteerVerification = VolunteerVerification(idProof: IdProof, level: int)

  /** The parts of a seller profile this check writes. */
  datatype Fssai = Fssai(verified: bool, certificateUrl: string)

  /** The records the check may touch: the user found by phone number and
      that user's volunteer or seller profile, each possibly absent. */
  datatype Records = Records(
    user: Option<User>,
    volunteerProfile: Option<VolunteerVerification>,
    sellerProfile: Option<Fssai>)

  datatype VerifyAadhaarError =
    | MissingFields                        // no phone number or no Aadhaar number
    | Invalid(reason: AadhaarError)        // the validator's own error
    | MockRejected                         // the raw input ends in "000"

  datatype Verified = Verified(lastFour: string, records: Records)

  const MockFailureSuffix: string := "000"
  const MinVolunteerLevel: int := 1
  const SellerTrustFloor: int := 60
  const VolunteerDocument: string := "MOCK_AADHAAR_VERIFIED"
  const SellerCertificate: string := "MOCK_AADHAAR_IDENTITY_VERIFIED"

  /** The profile upgrades for the user registered under the phone number. */
  function Upgrade(r: Records): (r': Records)
    ensures r'.user.Some? <==> r.user.Some?
    ensures r.user.Some? && r.user.value.role == VolunteerAccount && r.volunteerProfile.Some? ==>
      && r' == r.(volunteerProfile := r'.volunteerProfile)
      && r'.volunteerProfile.Some?
      && r'.volunteerProfile.value.idProof == IdProof(true, true, VolunteerDocument)
      && r'.volunteerProfile.value.level == Max(r.volunteerProfile.value.level, MinVolunteerLevel)
    ensures r.user.Some? && r.user.value.role == SellerAccount && r.sellerProfile.Some? ==>
      && r'.volunteerProfile == r.volunteerProfile
      && r'.sellerProfile == Some(Fssai(true, SellerCertificate))
      && r'.user == Some(r.user.value.(trustScore := Max(r.user.value.trustScore, SellerTrustFloor)))
    ensures (|| r.user.None?
             || (r.user.value.role == VolunteerAccount && r.volunteerProfile.None?)
             || (r.user.value.role == SellerAccount && r.sellerProfile.None?)
             || r.user.value.role.OtherAccount?) ==> r' == r
  {
    match r.user
    case None => r
    case Some(u) =>
      if u.role == VolunteerAccount then
        match r.volunteerProfile
        case None => r
        case Some(p) =>
          r.(volunteerProfile := Some(VolunteerVerification(
               IdProof(true, true, VolunteerDocument), Max(p.level, MinVolunteerLevel))))
      else if u.role == SellerAccount then
        match r.sellerProfile
        case None => r
        case Some(_) =>
          r.(sellerProfile := Some(Fssai(true, SellerCertificate)),
             user := Some(u.(trustScore := Max(u.trustScore, SellerTrustFloor))))
      else r
  }

  /** `verifyAadhaar`: `None` is a missing request field. */
  function VerifyAadhaar(phoneNumber: Option<string>, aadhaarNumber: Option<string>, records: Records)
    : (r: Result<Verified, VerifyAadhaarError>)
    ensures phoneNumber.None? || phoneNumber == Some("") || aadhaarNumber.None? || aadhaarNumber == Some("")
            <==> r == Failure(MissingFields)
    ensures r.Failure? && r.error.Invalid? <==>
      && phoneNumber.Some? && phoneNumber.value != "" && aadhaarNumber.Some? && aadhaarNumber.value != ""
      && ValidateAadhaar(aadhaarNumber).Failure?
    ensures r.Failure? && r.error.Invalid? ==> ValidateAadhaar(aadhaarNumber) == Failure(r.error.reason)
    ensures r == Failure(MockRejected) <==>
      && phoneNumber.Some? && phoneNumber.value != ""
      && ValidateAadhaar(aadhaarNumber).Success?
      && EndsWith(aadhaarNumber.value, MockFailureSuffix)
    ensures r.Success? <==>
      && phoneNumber.Some? && phoneNumber.value != ""
      && ValidateAadhaar(aadhaarNumber).Success?
      && !EndsWith(aadhaarNumber.value, MockFailureSuffix)
    ensures r.Success? ==>
      && r.value.lastFour == SliceLast(aadhaarNumber.value, 4)
      && r.value.records == Upgrade(records)
  {
    if phoneNumber.None? || phoneNumber.value == "" || aadhaarNumber.None? || aadhaarNumber.value == "" then
      Failure(MissingFields)
    else
      var validation := ValidateAadhaar(aadhaarNumber);
      if validation.Failure? then Failure(Invalid(validation.error))
      else if EndsWith(aadhaarNumber.value, MockFailureSuffix) then Failure(MockRejected)
      else Success(Verified(SliceLast(aadhaarNumber.value, 4), Upgrade(records)))
  }

  /** The validator's "required" error never reaches the caller: an empty
      number is refused before validation. */
  lemma RequiredNeverReported(phoneNumber: Option<string>, aadhaarNumber: Option<string>, records: Records)
    ensures VerifyAadhaar(phoneNumber, aadhaarNumber, records) != Failure(Invalid(Required))
  {
  }

  /** Verification never lowers a score or a level, and repeating it changes nothing more. */
  lemma UpgradeMonotoneAndIdempotent(r: Records)
    ensures Upgrade(Upgrade(r)) == Upgrade(r)
    ensures r.user.Some? ==> Upgrade(r).user.value.trustScore >= r.user.value.trustScore
    ensures r.volunteerProfile.Some? ==> Upgrade(r).volunteerProfile.value.level >= r.volunteerProfile.value.level
  {
  }

  /** A seller already above the floor keeps the exact score. */
  lemma SellerScoreKeptAboveFloor(r: Records)
    requires r.user.Some? && r.user.value.role == SellerAccount && r.sellerProfile.Some?
    requires r.user.value.trustScore >= SellerTrustFloor
    ensures Upgrade(r).user == r.user
  {
  }

  /** On a number typed without spaces, `lastFour` is the last four digits of
      the validated number. */
  lemma LastFourOfPlainNumber(phoneNumber: string, aadhaarNumber: string, records: Records)
    requires VerifyAadhaar(Some(phoneNumber), Some(aadhaarNumber), records).Success?
    requires forall i :: 0 <= i < |aadhaarNumber| ==> !IsJsWhitespace(aadhaarNumber[i])
    ensures var v := VerifyAadhaar(Some(phoneNumber), Some(aadhaarNumber), records).value;
      && |v.lastFour| == 4 && AllAsciiDigits(v.lastFour)
      && v.lastFour == aadhaarNumber[8..]
  {
  }

  /** The mock rejection reads the raw input, so trailing whitespace hides a
      number ending in 000 from it. */
  lemma MockRejectionReadsRawInput(phoneNumber: string, aadhaarNumber: string, records: Records)
    requires phoneNumber != ""
    requires ValidateAadhaar(Some(aadhaarNumber)).Success?
    requires EndsWith(aadhaarNumber, MockFailureSuffix)
    ensures VerifyAadhaar(Some(phoneNumber), Some(aadhaarNumber), records) == Failure(MockRejected)
    ensures VerifyAadhaar(Some(phoneNumber), Some(aadhaarNumber + " "), records).Success?
  {
    var padded := aadhaarNumber + " ";
    assert padded[|padded| - 1] == ' ';
    assert !EndsWith(padded, MockFailureSuffix);
    WhitespaceIgnored(aadhaarNumber, "", ' ');
    assert aadhaarNumber + [' '] + "" == aadhaarNumber + " ";
    assert aadhaarNumber + "" == aadhaarNumber;
  }
}
