/** The service-layer booking handlers: create, accept, reschedule, assign, record
    a service preference, verify completion and complete. Where the source runs a
    handler inside a Mongo transaction that is aborted on any error, the method
    writes all or nothing; where it saves before a later step fails, the write stays. */
module BookingService {
  import opened Wrappers
  import opened Records
  import ServiceModel

  /** `createBooking`: validates, then saves a new pending booking under `newId`.
      The professional lookup that follows is not awaited and writes nothing. */
  method CreateBooking(db: Db, user: Id, req: CreateRequest, newId: Id, rand: real, now: Time) returns (r: Result<Id>)
    requires 0.0 <= rand < 1.0
    requires newId !in db.bookings
    modifies db`bookings
    ensures CreateGuard(req, db.services).Some? ==>
              r == Err(CreateGuard(req, db.services).value) && db.bookings == old(db.bookings)
    ensures CreateGuard(req, db.services).None? ==>
              && r == Ok(newId)
              && db.bookings == old(db.bookings)[newId := NewBooking(user, req, db.services[req.serviceId.value], rand, now)]
  {
    var guard := CreateGuard(req, db.services);
    if guard.Some? {
      return Err(guard.value);
    }
    var booking := NewBooking(user, req, db.services[req.serviceId.value], rand, now);
    db.bookings := db.bookings[newId := booking];
    r := Ok(newId);
  }

  /** The assignment a professional holds after accepting `bookingId`. */
  function AssignedTo(bookingId: Id): Assignment {
    Assignment(Some(bookingId), PhaseAssigned)
  }

  /** `acceptBooking` (the later of the two definitions, which is the one in effect):
      only a pending booking can be accepted. It records the professional, marks the
      booking accepted and sets the professional's current booking; it neither checks
      nor changes `isAvailable`. A failed notification aborts the transaction. */
  method AcceptBooking(db: Db, bookingId: Id, professionalId: Id, notifyFails: bool) returns (r: Result<Booking>)
    modifies db`bookings, db`professionals
    ensures bookingId !in old(db.bookings) ==> r == Err(Thrown(NullDocument))
    ensures bookingId in old(db.bookings) && old(db.bookings[bookingId].status) != Pending ==>
              r == Err(Thrown("Booking already accepted or cancelled"))
    ensures r.Ok? <==> bookingId in old(db.bookings) && old(db.bookings[bookingId].status) == Pending && !notifyFails
    ensures r.Err? ==> db.bookings == old(db.bookings) && db.professionals == old(db.professionals)
    ensures r.Ok? ==>
              var b := old(db.bookings[bookingId]).(professional := Some(professionalId), status := Accepted);
              && r.value == b
              && db.bookings == old(db.bookings)[bookingId := b]
              && db.professionals == UpdateProfessional(old(db.professionals), Some(professionalId),
                                                        (p: Professional) => p.(currentBooking := Some(AssignedTo(bookingId))))
  {
    if bookingId !in db.bookings {
      return Err(Thrown(NullDocument));
    }
    var booking := db.bookings[bookingId];
    if booking.status != Pending {
      return Err(Thrown("Booking already accepted or cancelled"));
    }
    var accepted := booking.(professional := Some(professionalId), status := Accepted);
    var pros := UpdateProfessional(db.professionals, Some(professionalId),
                                   (p: Professional) => p.(currentBooking := Some(AssignedTo(bookingId))));
    if notifyFails {
      // abortTransaction: neither write becomes visible
      return Err(Thrown(NotificationFailed));
    }
    db.bookings := db.bookings[bookingId := accepted];
    db.professionals := pros;
    r := Ok(accepted);
  }

  /** The booking after `rescheduleBooking` as written: the date is overwritten first,
      so the history entry's `oldDate` is the new date. */
  function RescheduledAsWritten(b: Booking, newDate: Time, reason: string): (c: Booking)
    ensures c.scheduledDate == newDate
    ensures |c.reschedulingHistory| == |b.reschedulingHistory| + 1
    ensures c.reschedulingHistory[..|b.reschedulingHistory|] == b.reschedulingHistory
    ensures c.reschedulingHistory[|b.reschedulingHistory|] == Reschedule(newDate, newDate, reason, b.user)
    ensures c.(scheduledDate := b.scheduledDate, reschedulingHistory := b.reschedulingHistory) == b
  {
    b.(scheduledDate := newDate,
       reschedulingHistory := b.reschedulingHistory + [Reschedule(newDate, newDate, reason, b.user)])
  }

  /** The evidently intended reschedule: the entry records the date being replaced. */
  function Rescheduled(b: Booking, newDate: Time, reason: string): (c: Booking)
    ensures c.scheduledDate == newDate
    ensures c.reschedulingHistory == b.reschedulingHistory + [Reschedule(b.scheduledDate, newDate, reason, b.user)]
    ensures c.(scheduledDate := b.scheduledDate, reschedulingHistory := b.reschedulingHistory) == b
  {
    b.(scheduledDate := newDate,
       reschedulingHistory := b.reschedulingHistory + [Reschedule(b.scheduledDate, newDate, reason, b.user)])
  }

  /** The history is a chain of moves from `first` to `last`: each entry starts where
      the previous one ended. */
  ghost predicate Chained(h: seq<Reschedule>, first: Time, last: Time) {
    if h == [] then first == last
    else && h[0].oldDate == first
         && h[|h| - 1].newDate == last
         && forall k :: 0 <= k < |h| - 1 ==> h[k].newDate == h[k + 1].oldDate
  }

  /** With the intended entry, the history always leads from the original date to
      the current one. */
  lemma ReschedulePreservesChain(b: Booking, original: Time, newDate: Time, reason: string)
    requires Chained(b.reschedulingHistory, original, b.scheduledDate)
    ensures Chained(Rescheduled(b, newDate, reason).reschedulingHistory, original, newDate)
  {
    var h := b.reschedulingHistory;
    var h' := Rescheduled(b, newDate, reason).reschedulingHistory;
    if h != [] {
      assert h'[|h| - 1] == h[|h| - 1];
      assert forall k :: 0 <= k < |h| ==> h'[k] == h[k];
    }
  }

  /** As written, the chain breaks as soon as the date actually changes. */
  lemma RescheduleAsWrittenBreaksChain(b: Booking, original: Time, newDate: Time, reason: string)
    requires Chained(b.reschedulingHistory, original, b.scheduledDate)
    requires newDate != b.scheduledDate
    ensures !Chained(RescheduledAsWritten(b, newDate, reason).reschedulingHistory, original, newDate)
  {
    var h := b.reschedulingHistory;
    var h' := RescheduledAsWritten(b, newDate, reason).reschedulingHistory;
    if h == [] {
      assert h'[0].oldDate == newDate;
      assert original == b.scheduledDate;
    } else {
      assert h'[|h| - 1] == h[|h| - 1];
      assert h'[|h| - 1].newDate == b.scheduledDate;
      assert h'[|h|].oldDate == newDate;
    }
  }

  /** `rescheduleBooking`: refuses an unknown booking, a booking that is neither
      pending nor accepted, and a time the professional is not available at
      (`professionalAvailable` is the answer of the availability check). There is no
      transaction: the booking is saved before the notifications, so a failed
      notification reports an error over a booking that has already changed. */
  method RescheduleBooking(db: Db, bookingId: Id, newDate: Time, reason: string,
                           professionalAvailable: bool, notifyFails: bool) returns (r: Result<Booking>)
    modifies db`bookings
    ensures bookingId !in old(db.bookings) ==> r == Err(Thrown("Booking not found")) && db.bookings == old(db.bookings)
    ensures bookingId in old(db.bookings) && old(db.bookings[bookingId].status) !in {Pending, Accepted} ==>
              r == Err(Thrown("Cannot reschedule this booking")) && db.bookings == old(db.bookings)
    ensures bookingId in old(db.bookings) && old(db.bookings[bookingId].status) in {Pending, Accepted} && !professionalAvailable ==>
              r == Err(Thrown("Professional not available at requested time")) && db.bookings == old(db.bookings)
    ensures bookingId in old(db.bookings) && old(db.bookings[bookingId].status) in {Pending, Accepted} && professionalAvailable ==>
              var c := RescheduledAsWritten(old(db.bookings[bookingId]), newDate, reason);
              && db.bookings == old(db.bookings)[bookingId := c]
              && r == (if notifyFails then Err(Thrown(NotificationFailed)) else Ok(c))
  {
    if bookingId !in db.bookings {
      return Err(Thrown("Booking not found"));
    }
    var booking := db.bookings[bookingId];
    if booking.status !in {Pending, Accepted} {
      return Err(Thrown("Cannot reschedule this booking"));
    }
    if !professionalAvailable {
      return Err(Thrown("Professional not available at requested time"));
    }
    var c := RescheduledAsWritten(booking, newDate, reason);
    db.bookings := db.bookings[bookingId := c];
    r := if notifyFails then Err(Thrown(NotificationFailed)) else Ok(c);
  }

  /** `rescheduleBooking` as written: the service never defines
      `checkProfessionalAvailability`, so once a booking passes the status check the
      call throws a `TypeError`, before anything is written. Nothing is ever
      rescheduled. */
  method RescheduleBookingAsWritten(db: Db, bookingId: Id, newDate: Time, reason: string) returns (r: Result<Booking>)
    ensures bookingId !in db.bookings <==> r == Err(Thrown("Booking not found"))
    ensures bookingId in db.bookings && db.bookings[bookingId].status !in {Pending, Accepted}
            <==> r == Err(Thrown("Cannot reschedule this booking"))
    ensures bookingId in db.bookings && db.bookings[bookingId].status in {Pending, Accepted}
            <==> r == Err(Thrown("this.checkProfessionalAvailability is not a function"))
    ensures r.Err?
  {
    if bookingId !in db.bookings {
      return Err(Thrown("Booking not found"));
    }
    var booking := db.bookings[bookingId];
    if booking.status !in {Pending, Accepted} {
      return Err(Thrown("Cannot reschedule this booking"));
    }
    r := Err(Thrown("this.checkProfessionalAvailability is not a function"));
  }

  /** `assignProfessional`: `matching` is the ranked answer of the matching query.
      With no candidate it throws and writes nothing; otherwise the booking document
      is saved with the first candidate and status `assigned`, before the notification. */
  method AssignProfessional(db: Db, bookingId: Id, booking: Booking, matching: seq<Id>, notifyFails: bool)
    returns (r: Result<Booking>)
    modifies db`bookings
    ensures matching == [] ==>
              r == Err(Thrown("No professionals available for this service")) && db.bookings == old(db.bookings)
    ensures matching != [] ==>
              var b := booking.(professional := Some(matching[0]), status := Assigned);
              && db.bookings == old(db.bookings)[bookingId := b]
              && r == (if notifyFails then Err(Thrown(NotificationFailed)) else Ok(b))
  {
    if |matching| == 0 {
      return Err(Thrown("No professionals available for this service"));
    }
    var b := booking.(professional := Some(matching[0]), status := Assigned);
    db.bookings := db.bookings[bookingId := b];
    r := if notifyFails then Err(Thrown(NotificationFailed)) else Ok(b);
  }

  predicate HasPreference(prefs: seq<Preference>, serviceId: Id) {
    exists k :: 0 <= k < |prefs| && prefs[k].serviceCategory == serviceId
  }

  /** The preferences after `updateUserServicePreferences`: an `occasional` entry is
      appended only when the service has none yet. */
  function WithPreference(prefs: seq<Preference>, serviceId: Id): (r: seq<Preference>)
    ensures HasPreference(r, serviceId)
    ensures HasPreference(prefs, serviceId) ==> r == prefs
    ensures !HasPreference(prefs, serviceId) ==> r == prefs + [Preference(serviceId, "occasional")]
  {
    if HasPreference(prefs, serviceId) then prefs
    else
      var r := prefs + [Preference(serviceId, "occasional")];
      assert r[|prefs|].serviceCategory == serviceId;
      r
  }

  ghost predicate DistinctCategories(prefs: seq<Preference>) {
    forall i, j :: 0 <= i < j < |prefs| ==> prefs[i].serviceCategory != prefs[j].serviceCategory
  }

  /** Recording a preference twice is the same as once, and never duplicates a service. */
  lemma WithPreferenceIdempotent(prefs: seq<Preference>, serviceId: Id)
    ensures WithPreference(WithPreference(prefs, serviceId), serviceId) == WithPreference(prefs, serviceId)
    ensures DistinctCategories(prefs) ==> DistinctCategories(WithPreference(prefs, serviceId))
  {
  }

  /** `updateUserServicePreferences` on the stored user; no user document means the
      property access throws. */
  method UpdateUserServicePreferences(db: Db, userId: Id, serviceId: Id) returns (r: Result<()>)
    modifies db`users
    ensures userId !in old(db.users) ==> r == Err(Thrown(NullDocument)) && db.users == old(db.users)
    ensures userId in old(db.users) ==>
              && r == Ok(())
              && db.users == old(db.users)[userId := old(db.users[userId]).(
                   servicePreferences := WithPreference(old(db.users[userId].servicePreferences), serviceId))]
  {
    if userId !in db.users {
      return Err(Thrown(NullDocument));
    }
    var user := db.users[userId];
    db.users := db.users[userId := user.(servicePreferences := WithPreference(user.servicePreferences, serviceId))];
    r := Ok(());
  }

  /** What completion leaves on the professional in the service layer. */
  const Released := Assignment(None, PhaseNone)

  /** `verifyServiceCompletion` (the later definition, the one in effect): the code is
      compared with strict inequality and there is no status precondition. A match
      completes the booking and releases the professional, inside one transaction. */
  method VerifyServiceCompletion(db: Db, bookingId: Id, code: Js, notifyFails: bool, now: Time) returns (r: Result<Booking>)
    modifies db`bookings, db`professionals
    ensures bookingId !in old(db.bookings) ==> r == Err(Thrown(NullDocument))
    ensures bookingId in old(db.bookings) && !StrictEquals(old(db.bookings[bookingId].verificationCode), code) ==>
              r == Err(Thrown("Invalid verification code"))
    ensures r.Ok? <==> bookingId in old(db.bookings) && StrictEquals(old(db.bookings[bookingId].verificationCode), code) && !notifyFails
    ensures r.Err? ==> db.bookings == old(db.bookings) && db.professionals == old(db.professionals)
    ensures r.Ok? ==>
              var b := CompletedAt(old(db.bookings[bookingId]), now);
              && r.value == b
              && db.bookings == old(db.bookings)[bookingId := b]
              && db.professionals == UpdateProfessional(old(db.professionals), b.professional,
                                                        (p: Professional) => p.(currentBooking := Some(Released)))
  {
    if bookingId !in db.bookings {
      return Err(Thrown(NullDocument));
    }
    var booking := db.bookings[bookingId];
    if !StrictEquals(booking.verificationCode, code) {
      return Err(Thrown("Invalid verification code"));
    }
    var b := CompletedAt(booking, now);
    var pros := UpdateProfessional(db.professionals, b.professional, (p: Professional) => p.(currentBooking := Some(Released)));
    if notifyFails {
      return Err(Thrown(NotificationFailed));
    }
    db.bookings := db.bookings[bookingId := b];
    db.professionals := pros;
    r := Ok(b);
  }

  /** `completeBooking`: checks that the booking exists, that it is exactly
      `confirmed`, then the code; only then completes it and releases the
      professional. Any failure aborts the transaction. */
  method CompleteBooking(db: Db, bookingId: Id, code: Js, notifyFails: bool, now: Time) returns (r: Result<Booking>)
    modifies db`bookings, db`professionals
    ensures bookingId !in old(db.bookings) ==> r == Err(Thrown("Booking not found"))
    ensures bookingId in old(db.bookings) && old(db.bookings[bookingId].status) != Confirmed ==>
              r == Err(Thrown("Booking is not in progress"))
    ensures bookingId in old(db.bookings) && old(db.bookings[bookingId].status) == Confirmed
            && !StrictEquals(old(db.bookings[bookingId].verificationCode), code) ==>
              r == Err(Thrown("Invalid verification code"))
    ensures r.Ok? <==> && bookingId in old(db.bookings)
                       && old(db.bookings[bookingId].status) == Confirmed
                       && StrictEquals(old(db.bookings[bookingId].verificationCode), code)
                       && !notifyFails
    ensures r.Err? ==> db.bookings == old(db.bookings) && db.professionals == old(db.professionals)
    ensures r.Ok? ==>
              var b := CompletedAt(old(db.bookings[bookingId]), now);
              && r.value == b
              && db.bookings == old(db.bookings)[bookingId := b]
              && db.professionals == UpdateProfessional(old(db.professionals), b.professional,
                                                        (p: Professional) => p.(currentBooking := Some(Released)))
  {
    if bookingId !in db.bookings {
      return Err(Thrown("Booking not found"));
    }
    var booking := db.bookings[bookingId];
    if booking.status != Confirmed {
      return Err(Thrown("Booking is not in progress"));
    }
    if !StrictEquals(booking.verificationCode, code) {
      return Err(Thrown("Invalid verification code"));
    }
    var b := CompletedAt(booking, now);
    var pros := UpdateProfessional(db.professionals, b.professional, (p: Professional) => p.(currentBooking := Some(Released)));
    if notifyFails {
      return Err(Thrown(NotificationFailed));
    }
    db.bookings := db.bookings[bookingId := b];
    db.professionals := pros;
    r := Ok(b);
  }
}
