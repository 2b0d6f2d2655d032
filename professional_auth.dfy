/** Phone sign-in for professionals: the input guards of `sendOtp` and `verifyOtp`,
    the generated `userId`, the create-with-retry loop, and the first profile step. */
module ProfessionalAuth {
  import opened Wrappers
  import opened Records
  import Text

  /** `sendOtp`: a phone number is required. */
  function SendOtpGuard(phone: Option<string>): (f: Option<Failure>)
    ensures f.Some? <==> !Present(phone)
    ensures f.Some? ==> f.value == Http(400, "Phone number is required")
  {
    if !Present(phone) then Some(Http(400, "Phone number is required")) else None
  }

  /** `verifyOtp`'s checks before the OTP is looked at: every field present, then the
      role exactly `professional`. */
  function VerifyOtpGuard(phone: Option<string>, otp: Option<string>, sessionId: Option<string>, role: Option<string>)
    : (f: Option<Failure>)
    ensures f == Some(Http(400, "All fields are required"))
            <==> !Present(phone) || !Present(otp) || !Present(sessionId) || !Present(role)
    ensures f == Some(Http(400, "Invalid role"))
            <==> Present(phone) && Present(otp) && Present(sessionId) && Present(role) && role.value != "professional"
    ensures f.None? <==> Present(phone) && Present(otp) && Present(sessionId) && role == Some("professional")
  {
    if !Present(phone) || !Present(otp) || !Present(sessionId) || !Present(role) then Some(Http(400, "All fields are required"))
    else if role.value != "professional" then Some(Http(400, "Invalid role"))
    else None
  }

  const UserIdPrefix := "PRO"

  /** `'PRO' + Date.now().toString().slice(-8) + Math.random().toString(36).substring(2, 5).toUpperCase()`,
      with the clock reading `nowMs` and the random number's base-36 text `random36`
      as inputs. */
  function GenerateUserId(nowMs: nat, random36: string): (id: string)
    ensures 3 <= |id| <= 14 && id[..3] == UserIdPrefix
    ensures nowMs >= Text.Pow10(7) ==>
              && |id| >= 11
              && (forall k :: 3 <= k < 11 ==> Text.IsDigit(id[k]))
              && Text.DigitsValue(id[3..11]) == nowMs % Text.Pow10(8)
    ensures nowMs >= Text.Pow10(7) && |random36| >= 5 ==> |id| == 14
    ensures nowMs >= Text.Pow10(7) ==> forall k :: 11 <= k < |id| ==> !('a' <= id[k] <= 'z')
  {
    var digits := Text.LastChars(Text.DecimalString(nowMs), 8);
    var suffix := Text.ToUpper(Text.Substring(random36, 2, 5));
    ClockDigits(nowMs);
    RandomSuffix(random36);
    UserIdLayout(nowMs, digits, suffix, |random36| >= 5);
    UserIdPrefix + digits + suffix
  }

  /** The random part: at most three characters, exactly three when the base-36 text
      has five or more, none of them a lower-case letter. */
  lemma RandomSuffix(random36: string)
    ensures var suffix := Text.ToUpper(Text.Substring(random36, 2, 5));
      && |suffix| <= 3 && (|random36| >= 5 ==> |suffix| == 3)
      && forall k :: 0 <= k < |suffix| ==> !('a' <= suffix[k] <= 'z')
  {
  }

  /** Where the prefix, the clock digits and the random part sit in the id. */
  lemma UserIdLayout(nowMs: nat, digits: string, suffix: string, long: bool)
    requires |digits| <= 8 && (forall k :: 0 <= k < |digits| ==> Text.IsDigit(digits[k]))
    requires Text.DigitsValue(digits) == nowMs % Text.Pow10(8)
    requires nowMs >= Text.Pow10(7) ==> |digits| == 8
    requires |suffix| <= 3 && (long ==> |suffix| == 3)
    requires forall k :: 0 <= k < |suffix| ==> !('a' <= suffix[k] <= 'z')
    ensures var id := UserIdPrefix + digits + suffix;
      && 3 <= |id| <= 14 && id[..3] == UserIdPrefix
      && (nowMs >= Text.Pow10(7) ==>
            && |id| >= 11
            && (forall k :: 3 <= k < 11 ==> Text.IsDigit(id[k]))
            && Text.DigitsValue(id[3..11]) == nowMs % Text.Pow10(8))
      && (nowMs >= Text.Pow10(7) && long ==> |id| == 14)
      && (nowMs >= Text.Pow10(7) ==> forall k :: 11 <= k < |id| ==> !('a' <= id[k] <= 'z'))
  {
    var id := UserIdPrefix + digits + suffix;
    assert id[..3] == UserIdPrefix;
    if |digits| == 8 {
      assert id[3..11] == digits;
      assert forall k :: 11 <= k < |id| ==> id[k] == suffix[k - 11];
    }
  }

  /** A clock reading of eight or more digits contributes exactly its last eight. */
  lemma ClockDigits(nowMs: nat)
    ensures var digits := Text.LastChars(Text.DecimalString(nowMs), 8);
      && Text.DigitsValue(digits) == nowMs % Text.Pow10(8)
      && (nowMs >= Text.Pow10(7) ==> |digits| == 8)
  {
    Text.LastDigitsValue(nowMs, 8);
    if nowMs >= Text.Pow10(7) {
      Text.DecimalStringLength(nowMs, 7);
    }
  }

  /** What one `Professional.create` call does: it inserts, or fails on a duplicate
      key (naming the key's field), or fails otherwise. */
  datatype InsertOutcome = Inserted | DuplicateKey(field: string) | OtherError(message: string)

  /** Only a duplicate `userId` is worth another attempt. */
  predicate Retryable(o: InsertOutcome) {
    o.DuplicateKey? && o.field == "userId"
  }

  datatype CreateResult = Created(attempt: nat) | Rethrown(attempt: nat) | Exhausted

  const MaxRetries: nat := 3

  /** The `while (retryCount < maxRetries)` loop, where `outcome(k)` is the result of
      attempt `k`: it stops at the first attempt that is not a duplicate `userId`,
      creating or rethrowing, and gives up after three duplicates. */
  method CreateWithRetry(outcome: nat -> InsertOutcome) returns (r: CreateResult)
    ensures r.Created? ==> r.attempt < MaxRetries && outcome(r.attempt) == Inserted
    ensures r.Rethrown? ==> r.attempt < MaxRetries && outcome(r.attempt).Inserted? == false && !Retryable(outcome(r.attempt))
    ensures !r.Exhausted? ==> forall k :: 0 <= k < r.attempt ==> Retryable(outcome(k))
    ensures r.Exhausted? <==> forall k :: 0 <= k < MaxRetries ==> Retryable(outcome(k))
  {
    var retryCount := 0;
    while retryCount < MaxRetries
      invariant 0 <= retryCount <= MaxRetries
      invariant forall k :: 0 <= k < retryCount ==> Retryable(outcome(k))
    {
      var o := outcome(retryCount);
      if o == Inserted {
        return Created(retryCount);
      }
      if !Retryable(o) {
        return Rethrown(retryCount);
      }
      retryCount := retryCount + 1;
    }
    r := Exhausted;
  }

  /** The record a first sign-in creates. */
  function NewProfessional(phone: string, userId: string): (p: Professional)
    ensures p.phone == phone && p.userId == userId
    ensures p.status == RegistrationPending && p.onboardingStep == ProfileDetails
    ensures p.name.None? && p.email.None? && p.documents == []
  {
    Professional(userId, phone, "professional", None, None, RegistrationPending, ProfileDetails, [], [], None, [],
                 false, false, None, None, None, [], None, [], None, None)
  }

  /** Attempt `a` is the one the retry loop stops at: it is within the three
      attempts and every earlier one hit a duplicate `userId`. */
  predicate StopsAt(outcome: nat -> InsertOutcome, a: nat) {
    a < MaxRetries && !Retryable(outcome(a)) && forall j :: 0 <= j < a ==> Retryable(outcome(j))
  }

  const FailedUserId := "Failed to generate unique userId"

  /** The catch's `error.message || "Internal server error"` for a rethrown insert. */
  function InsertError(o: InsertOutcome): string {
    if o.OtherError? && o.message != "" then o.message
    else if o.OtherError? then "Internal server error"
    else "E11000 duplicate key error"
  }

  /** Three duplicates answer the same 500 as an insert error that happens to carry
      the loop's own message: the client cannot tell the two apart. */
  predicate SaysFailedUserId(outcome: nat -> InsertOutcome) {
    exists a :: 0 <= a < MaxRetries && StopsAt(outcome, a) && InsertError(outcome(a)) == FailedUserId
  }

  /** The sign-up of an unknown phone, from store `before` to store `after` with
      answer `r`: the attempt the loop stops at decides it; an insert stores the
      new professional under `newKey`, with the `userId` generated from that
      attempt's clock and random readings, and answers it; any other error becomes
      a 500 with its message and no write; three duplicates answer 500 without a
      write. */
  predicate SignUp(before: map<Id, Professional>, phone: string, newKey: Id, clock: nat -> nat, random36: nat -> string,
                   outcome: nat -> InsertOutcome, r: Result<Professional>, after: map<Id, Professional>) {
    && (forall a :: 0 <= a < MaxRetries && StopsAt(outcome, a) && outcome(a) == Inserted ==>
          var p := NewProfessional(phone, GenerateUserId(clock(a), random36(a))); r == Ok(p) && after == before[newKey := p])
    && (forall a :: 0 <= a < MaxRetries && StopsAt(outcome, a) && outcome(a) != Inserted ==>
          r == Err(Http(500, InsertError(outcome(a)))) && after == before)
    && ((forall k :: 0 <= k < MaxRetries ==> Retryable(outcome(k))) ==>
          r == Err(Http(500, FailedUserId)) && after == before)
    && (r == Err(Http(500, FailedUserId)) ==>
          (forall k :: 0 <= k < MaxRetries ==> Retryable(outcome(k))) || SaysFailedUserId(outcome))
  }

  /** What `CreateWithRetry` promises about its result `created`. */
  predicate RetryResult(outcome: nat -> InsertOutcome, created: CreateResult) {
    && (created.Created? ==> created.attempt < MaxRetries && outcome(created.attempt) == Inserted)
    && (created.Rethrown? ==> created.attempt < MaxRetries && outcome(created.attempt) != Inserted
                              && !Retryable(outcome(created.attempt)))
    && (!created.Exhausted? ==> forall k :: 0 <= k < created.attempt ==> Retryable(outcome(k)))
    && (created.Exhausted? <==> forall k :: 0 <= k < MaxRetries ==> Retryable(outcome(k)))
  }

  /** The loop's result decides the sign-up: the attempt it stops at is the only one
      `StopsAt` holds for. */
  lemma SignUpStep(before: map<Id, Professional>, phone: string, newKey: Id, clock: nat -> nat, random36: nat -> string,
                   outcome: nat -> InsertOutcome, created: CreateResult, r: Result<Professional>, after: map<Id, Professional>)
    requires RetryResult(outcome, created)
    requires created.Created? ==>
               var p := NewProfessional(phone, GenerateUserId(clock(created.attempt), random36(created.attempt))); r == Ok(p) && after == before[newKey := p]
    requires created.Rethrown? ==> r == Err(Http(500, InsertError(outcome(created.attempt)))) && after == before
    requires created.Exhausted? ==> r == Err(Http(500, FailedUserId)) && after == before
    ensures SignUp(before, phone, newKey, clock, random36, outcome, r, after)
  {
    forall a | 0 <= a < MaxRetries && StopsAt(outcome, a)
      ensures !created.Exhausted? && created.attempt == a
    {
    }
  }

  /** `verifyOtp`: the guards, then 401 for an OTP the OTP service rejects, each with no
      change. A known phone signs in to its record; an unknown one gets a new record
      under key `newKey`, whose `userId` is generated from the clock reading
      `clock(k)` and the random text `random36(k)` of the attempt `k` that succeeds.
      A failing attempt that is not a duplicate `userId`, or three duplicates, end
      in a 500 with no record, as the handler's catch answers every error. */
  method VerifyOtp(db: Db, phone: Option<string>, otp: Option<string>, sessionId: Option<string>, role: Option<string>,
                   otpValid: bool, newKey: Id, clock: nat -> nat, random36: nat -> string, outcome: nat -> InsertOutcome)
    returns (r: Result<Professional>)
    requires newKey !in db.professionals
    modifies db`professionals
    ensures VerifyOtpGuard(phone, otp, sessionId, role).Some? ==>
              r == Err(VerifyOtpGuard(phone, otp, sessionId, role).value) && db.professionals == old(db.professionals)
    ensures VerifyOtpGuard(phone, otp, sessionId, role).None? && !otpValid ==>
              r == Err(Http(401, "Invalid OTP")) && db.professionals == old(db.professionals)
    ensures r.Ok? ==> otpValid && r.value.phone == phone.value
    ensures r.Ok? && db.professionals != old(db.professionals) ==>
              && (forall k :: k in old(db.professionals) ==> old(db.professionals[k]).phone != phone.value)
              && exists a :: 0 <= a < MaxRetries && db.professionals == old(db.professionals)[newKey := NewProfessional(phone.value, GenerateUserId(clock(a), random36(a)))]
    ensures r.Ok? && (exists k :: k in old(db.professionals) && old(db.professionals[k]).phone == phone.value) ==>
              db.professionals == old(db.professionals)
    ensures r.Err? ==> db.professionals == old(db.professionals)
    ensures r == Err(Http(500, FailedUserId)) ==>
              (forall k :: 0 <= k < MaxRetries ==> Retryable(outcome(k))) || SaysFailedUserId(outcome)
    ensures r.Ok? && db.professionals != old(db.professionals) ==>
              r.value == db.professionals[newKey] && r.value.userId[..3] == UserIdPrefix
    ensures VerifyOtpGuard(phone, otp, sessionId, role).None? && otpValid
            && (exists k :: k in old(db.professionals) && old(db.professionals[k]).phone == phone.value) ==>
              && db.professionals == old(db.professionals)
              && exists k :: k in old(db.professionals) && old(db.professionals[k]).phone == phone.value
                             && r == Ok(old(db.professionals[k]))
    ensures VerifyOtpGuard(phone, otp, sessionId, role).None? && otpValid
            && (forall k :: k in old(db.professionals) ==> old(db.professionals[k]).phone != phone.value) ==>
              SignUp(old(db.professionals), phone.value, newKey, clock, random36, outcome, r, db.professionals)
  {
    var guard := VerifyOtpGuard(phone, otp, sessionId, role);
    if guard.Some? {
      return Err(guard.value);
    }
    if !otpValid {
      return Err(Http(401, "Invalid OTP"));
    }
    if exists k :: k in db.professionals && db.professionals[k].phone == phone.value {
      var k :| k in db.professionals && db.professionals[k].phone == phone.value;
      return Ok(db.professionals[k]);
    }
    var created := CreateWithRetry(outcome);
    match created {
      case Created(a) =>
        var p := NewProfessional(phone.value, GenerateUserId(clock(a), random36(a)));
        db.professionals := db.professionals[newKey := p];
        r := Ok(p);
      case Rethrown(a) =>
        r := Err(Http(500, InsertError(outcome(a))));
      case Exhausted =>
        r := Err(Http(500, FailedUserId));
    }
    SignUpStep(old(db.professionals), phone.value, newKey, clock, random36, outcome, created, r, db.professionals);
  }

  /** The first profile step on the caller's record (or `None` when it does not
      exist): name and email required, then the status must still be
      `registration_pending`; the step moves the record to `document_pending` and
      the `documents` step. */
  function CompleteProfile(p: Option<Professional>, name: Option<string>, email: Option<string>): (r: Result<Professional>)
    ensures !Present(name) || !Present(email) <==> r == Err(Http(400, "Name and email are required"))
    ensures Present(name) && Present(email) && p.None? ==> r == Err(Http(500, NullDocument))
    ensures Present(name) && Present(email) && p.Some? && p.value.status != RegistrationPending
            <==> r == Err(Http(400, "Profile already completed"))
    ensures Present(name) && Present(email) && p.Some? && p.value.status == RegistrationPending ==> r.Ok?
    ensures r.Ok? ==> && p.Some? && p.value.status == RegistrationPending
                      && r.value == p.value.(name := name, email := email, status := DocumentPending, onboardingStep := Documents)
  {
    if !Present(name) || !Present(email) then Err(Http(400, "Name and email are required"))
    else if p.None? then Err(Http(500, NullDocument))
    else if p.value.status != RegistrationPending then Err(Http(400, "Profile already completed"))
    else Ok(p.value.(name := name, email := email, status := DocumentPending, onboardingStep := Documents))
  }

  /** The step happens at most once: a completed profile is refused a second time. */
  lemma CompleteProfileOnce(p: Professional, name: Option<string>, email: Option<string>,
                            name2: Option<string>, email2: Option<string>)
    requires CompleteProfile(Some(p), name, email).Ok?
    requires Present(name2) && Present(email2)
    ensures CompleteProfile(Some(CompleteProfile(Some(p), name, email).value), name2, email2)
            == Err(Http(400, "Profile already completed"))
  {
  }

  /** `updateProfile`: the step saved on the caller's record; a failing welcome mail
      or SMS afterwards turns the response into a 500 although the record is saved. */
  method UpdateProfile(db: Db, callerId: Id, name: Option<string>, email: Option<string>, notifyFails: bool)
    returns (r: Result<Professional>)
    modifies db`professionals
    ensures var step := CompleteProfile(if callerId in old(db.professionals) then Some(old(db.professionals[callerId])) else None, name, email);
      && (step.Err? ==> r == step && db.professionals == old(db.professionals))
      && (step.Ok? ==> db.professionals == old(db.professionals)[callerId := step.value]
                       && r == if notifyFails then Err(Http(500, NotificationFailed)) else step)
  {
    var step := CompleteProfile(if callerId in db.professionals then Some(db.professionals[callerId]) else None, name, email);
    if step.Err? {
      return step;
    }
    db.professionals := db.professionals[callerId := step.value];
    r := if notifyFails then Err(Http(500, NotificationFailed)) else step;
  }
}
