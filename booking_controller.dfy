/** The HTTP booking handlers: create, accept and complete (the later definition of
    `completeBooking`, which replaces the earlier one in the class body), and the
    read-only active-booking, history and tracking queries. */
module BookingController {
  import opened Wrappers
  import opened Records
  import ServiceModel
  import Ordering

  /** The professionals the create handler counts: verified, available and
      specialised in the service's category. */
  predicate CanTake(p: Professional, service: ServiceModel.Service) {
    && ServiceModel.CategoryName(service.category) in p.specializations
    && p.status == Verified
    && p.isAvailable
  }

  datatype CreateResponse = CreateResponse(bookingId: Id, availableProfessionals: nat)

  /** `createBooking`: the same checks and the same new booking as the service layer,
      and the response reports how many professionals could take it, at most 5
      (the query's `.limit(5)`). */
  method CreateBooking(db: Db, user: Id, req: CreateRequest, newId: Id, rand: real, now: Time)
    returns (r: Result<CreateResponse>)
    requires 0.0 <= rand < 1.0
    requires newId !in db.bookings
    modifies db`bookings
    ensures CreateGuard(req, db.services).Some? ==>
              r == Err(CreateGuard(req, db.services).value) && db.bookings == old(db.bookings)
    ensures CreateGuard(req, db.services).None? ==>
              var service := db.services[req.serviceId.value];
              var able := set id | id in db.professionals && CanTake(db.professionals[id], service);
              && r.Ok? && r.value.bookingId == newId
              && r.value.availableProfessionals == (if |able| < 5 then |able| else 5)
              && db.bookings == old(db.bookings)[newId := NewBooking(user, req, service, rand, now)]
  {
    var guard := CreateGuard(req, db.services);
    if guard.Some? {
      return Err(guard.value);
    }
    var service := db.services[req.serviceId.value];
    db.bookings := db.bookings[newId := NewBooking(user, req, service, rand, now)];
    var able := set id | id in db.professionals && CanTake(db.professionals[id], service);
    r := Ok(CreateResponse(newId, if |able| < 5 then |able| else 5));
  }

  /** `acceptBooking`: 404 for an unknown booking and 400 for one that is not pending,
      both without a write. Otherwise the caller becomes the booking's professional,
      the booking is accepted and the caller's `isAvailable` is cleared. */
  method AcceptBooking(db: Db, bookingId: Id, caller: Id) returns (r: Result<Booking>)
    modifies db`bookings, db`professionals
    ensures bookingId !in old(db.bookings) ==> r == Err(Http(404, "Booking not found"))
    ensures bookingId in old(db.bookings) && old(db.bookings[bookingId].status) != Pending ==>
              r == Err(Http(400, "Booking already processed"))
    ensures r.Err? ==> db.bookings == old(db.bookings) && db.professionals == old(db.professionals)
    ensures bookingId in old(db.bookings) && old(db.bookings[bookingId].status) == Pending ==>
              var b := old(db.bookings[bookingId]).(professional := Some(caller), status := Accepted);
              && r == Ok(b)
              && db.bookings == old(db.bookings)[bookingId := b]
              && db.professionals == UpdateProfessional(old(db.professionals), Some(caller),
                                                        (p: Professional) => p.(isAvailable := false))
  {
    if bookingId !in db.bookings {
      return Err(Http(404, "Booking not found"));
    }
    var booking := db.bookings[bookingId];
    if booking.status != Pending {
      return Err(Http(400, "Booking already processed"));
    }
    var b := booking.(professional := Some(caller), status := Accepted);
    db.bookings := db.bookings[bookingId := b];
    db.professionals := UpdateProfessional(db.professionals, Some(caller), (p: Professional) => p.(isAvailable := false));
    r := Ok(b);
  }

  /** `completeBooking` (the definition in effect): 404 for an unknown booking and 400
      when the code is not strictly equal, both without a write. There is no status
      guard. A match completes the booking and frees the professional; a failed
      notification aborts the transaction and answers 500. */
  method CompleteBooking(db: Db, bookingId: Id, code: Js, notifyFails: bool, now: Time) returns (r: Result<Booking>)
    modifies db`bookings, db`professionals
    ensures bookingId !in old(db.bookings) ==> r == Err(Http(404, "Booking not found"))
    ensures bookingId in old(db.bookings) && !StrictEquals(old(db.bookings[bookingId].verificationCode), code) ==>
              r == Err(Http(400, "Invalid verification code"))
    ensures bookingId in old(db.bookings) && StrictEquals(old(db.bookings[bookingId].verificationCode), code) && notifyFails ==>
              r == Err(Http(500, "Failed to complete booking"))
    ensures r.Err? ==> db.bookings == old(db.bookings) && db.professionals == old(db.professionals)
    ensures bookingId in old(db.bookings) && StrictEquals(old(db.bookings[bookingId].verificationCode), code) && !notifyFails ==>
              var b := CompletedAt(old(db.bookings[bookingId]), now);
              && r == Ok(b)
              && db.bookings == old(db.bookings)[bookingId := b]
              && db.professionals == UpdateProfessional(old(db.professionals), b.professional,
                                                        (p: Professional) => p.(isAvailable := true, currentBooking := None))
  {
    if bookingId !in db.bookings {
      return Err(Http(404, "Booking not found"));
    }
    var booking := db.bookings[bookingId];
    if !StrictEquals(booking.verificationCode, code) {
      return Err(Http(400, "Invalid verification code"));
    }
    var b := CompletedAt(booking, now);
    var pros := UpdateProfessional(db.professionals, b.professional,
                                   (p: Professional) => p.(isAvailable := true, currentBooking := None));
    if notifyFails {
      return Err(Http(500, "Failed to complete booking"));
    }
    db.bookings := db.bookings[bookingId := b];
    db.professionals := pros;
    r := Ok(b);
  }

  predicate IsActive(b: Booking) {
    b.status in {Pending, Accepted, InProgress}
  }

  predicate ActiveFor(b: Booking, user: Id) {
    b.user == user && IsActive(b)
  }

  /** `getActiveBooking`: the first booking, in the collection's order, of this
      customer whose status is pending, accepted or in progress; 404 when none is. */
  function ActiveBooking(bookings: seq<Booking>, user: Id): (r: Result<Booking>)
    ensures r.Err? <==> forall k :: 0 <= k < |bookings| ==> !ActiveFor(bookings[k], user)
    ensures r.Err? ==> r == Err(Http(404, "No active booking found"))
    ensures r.Ok? ==> exists k :: && 0 <= k < |bookings| && bookings[k] == r.value && ActiveFor(r.value, user)
                                  && forall j :: 0 <= j < k ==> !ActiveFor(bookings[j], user)
  {
    if bookings == [] then Err(Http(404, "No active booking found"))
    else if ActiveFor(bookings[0], user) then Ok(bookings[0])
    else
      var r := ActiveBooking(bookings[1..], user);
      if r.Ok? then
        var k :| 0 <= k < |bookings| - 1 && bookings[1..][k] == r.value && ActiveFor(r.value, user)
                 && forall j :: 0 <= j < k ==> !ActiveFor(bookings[1..][j], user);
        assert bookings[k + 1] == r.value;
        assert forall j :: 0 <= j < k + 1 ==> !ActiveFor(bookings[j], user) by {
          forall j | 0 <= j < k + 1 ensures !ActiveFor(bookings[j], user) {
            if j > 0 { assert bookings[j] == bookings[1..][j - 1]; }
          }
        }
        r
      else
        assert forall k :: 1 <= k < |bookings| ==> bookings[k] == bookings[1..][k - 1];
        r
  }

  predicate NewerOrSame(a: Booking, b: Booking) {
    a.createdAt >= b.createdAt
  }

  lemma NewerOrSameIsOrder()
    ensures Ordering.Total(NewerOrSame) && Ordering.Transitive(NewerOrSame)
  {
  }

  const HistoryLimit: nat := 10

  /** The bookings of one customer, in the collection's order. */
  function OwnBookings(bookings: seq<Booking>, user: Id): (r: seq<Booking>)
    ensures forall k :: 0 <= k < |r| ==> r[k].user == user && r[k] in bookings
    ensures forall b :: b in bookings && b.user == user ==> b in r
    ensures multiset(r) <= multiset(bookings)
  {
    Ordering.Filter(bookings, (b: Booking) => b.user == user)
  }

  /** `getBookingHistory`: the customer's bookings, newest `createdAt` first, at most 10. */
  function BookingHistory(bookings: seq<Booking>, user: Id): (r: seq<Booking>)
    ensures |r| <= HistoryLimit
    ensures forall k :: 0 <= k < |r| ==> r[k].user == user && r[k] in bookings
    ensures forall i, j :: 0 <= i < j < |r| ==> r[i].createdAt >= r[j].createdAt
  {
    NewerOrSameIsOrder();
    Ordering.SortTakeFacts(OwnBookings(bookings, user), NewerOrSame, HistoryLimit);
    Ordering.Take(Ordering.Sort(OwnBookings(bookings, user), NewerOrSame), HistoryLimit)
  }

  /** Nothing newer is left out of the history: with fewer than 10 bookings every one
      of the customer's bookings is listed, each exactly as often as it is stored, and
      with 10 every booking newer than the last one listed is among them. */
  lemma BookingHistoryNewest(bookings: seq<Booking>, user: Id)
    ensures var r := BookingHistory(bookings, user);
      && multiset(r) <= multiset(OwnBookings(bookings, user))
      && (|r| < HistoryLimit ==> multiset(r) == multiset(OwnBookings(bookings, user)))
      && (|r| == HistoryLimit ==>
            forall b :: b in bookings && b.user == user && b.createdAt > r[|r| - 1].createdAt ==> b in r)
  {
    NewerOrSameIsOrder();
    Ordering.TopBest(OwnBookings(bookings, user), NewerOrSame, HistoryLimit);
  }

  datatype TrackingView = TrackingView(
    status: BookingStatus,
    professionalLocation: Option<CurrentLocation>,
    destination: Coordinates,
    eta: Option<int>)

  /** The current location of the booking's professional, if it has one and that
      professional's record exists (`populate` gives `null` otherwise). */
  function ProfessionalLocation(b: Booking, pros: map<Id, Professional>): Option<CurrentLocation> {
    if b.professional.Some? && b.professional.value in pros then pros[b.professional.value].currentLocation
    else None
  }

  /** `getTrackingInfo`: 404 for an unknown booking. A known professional location
      without `coordinates` (the REST location handler stores the point under
      `location` only) cannot be taken apart for the distance, so the request fails
      with a 500. Otherwise the ETA is `null` exactly when no professional location is
      known, and is computed from `distanceKm`, the distance to the destination. */
  function TrackingInfo(bookings: map<Id, Booking>, pros: map<Id, Professional>, bookingId: Id, distanceKm: real)
    : (r: Result<TrackingView>)
    ensures bookingId !in bookings <==> r == Err(Http(404, "Booking not found"))
    ensures r == Err(Http(500, "Failed to get tracking info")) <==>
              bookingId in bookings && NoCoordinates(ProfessionalLocation(bookings[bookingId], pros))
    ensures bookingId in bookings && !NoCoordinates(ProfessionalLocation(bookings[bookingId], pros)) ==> r.Ok?
    ensures r.Ok? ==> && r.value.status == bookings[bookingId].status
                      && r.value.destination == bookings[bookingId].location
                      && r.value.professionalLocation == ProfessionalLocation(bookings[bookingId], pros)
                      && (r.value.eta.None? <==> ProfessionalLocation(bookings[bookingId], pros).None?)
                      && (r.value.eta.Some? ==> r.value.eta.value == EtaMinutes(distanceKm))
  {
    if bookingId !in bookings then Err(Http(404, "Booking not found"))
    else
      var b := bookings[bookingId];
      var loc := ProfessionalLocation(b, pros);
      if NoCoordinates(loc) then Err(Http(500, "Failed to get tracking info"))
      else Ok(TrackingView(b.status, loc, b.location, if loc.Some? then Some(EtaMinutes(distanceKm)) else None))
  }

  /** A location is known but has no `coordinates` to destructure. */
  predicate NoCoordinates(loc: Option<CurrentLocation>) {
    loc.Some? && loc.value.coordinates.None?
  }
}
