/** Matching professionals to a service: the qualification filter and the recorded
    match list of `findMatchingProfessionals`, and `bookService`'s capability check
    and the booking it builds. */
module ServiceMatching {
  import opened Wrappers
  import opened Records
  import ServiceModel
  import Ordering

  /** Some specialization of the professional is one of the service's professional types. */
  predicate Capable(p: Professional, service: ServiceModel.Service) {
    exists k :: 0 <= k < |p.specializations| && p.specializations[k] in service.professionalTypes
  }

  const MatchRadius: int := 10000

  /** `currentLocation.coordinates` exists and is not `[0, 0]`. */
  predicate HasCoordinates(p: Professional) {
    p.currentLocation.Some? && p.currentLocation.value.coordinates.Some?
    && p.currentLocation.value.coordinates.value != [0.0, 0.0]
  }

  /** The query of `findMatchingProfessionals`: verified, capable, located and within
      10 km. */
  predicate Qualifies(c: Candidate, service: ServiceModel.Service) {
    && c.pro.status == Verified
    && Capable(c.pro, service)
    && HasCoordinates(c.pro)
    && c.distance <= MatchRadius
  }

  /** The `$near` result: every qualifying candidate, each as often as it occurs, and
      nothing else, nearest first. */
  function Matching(service: ServiceModel.Service, candidates: seq<Candidate>): (r: seq<Candidate>)
    ensures forall c :: multiset(r)[c] == if Qualifies(c, service) then multiset(candidates)[c] else 0
    ensures forall i, j :: 0 <= i < j < |r| ==> r[i].distance <= r[j].distance
    ensures forall k :: 0 <= k < |r| ==> Qualifies(r[k], service) && r[k] in candidates
  {
    Records.CloserOrSameIsOrder();
    var qualifies := (c: Candidate) => Qualifies(c, service);
    var q := Ordering.Filter(candidates, qualifies);
    forall c
      ensures multiset(q)[c] == if Qualifies(c, service) then multiset(candidates)[c] else 0
    {
      Ordering.FilterCount(candidates, qualifies, c);
    }
    Ordering.SortTakeFacts(q, Records.CloserOrSame, |q|);
    Ordering.Sort(q, Records.CloserOrSame)
  }

  function Ids(cs: seq<Candidate>): (ids: seq<Id>)
    ensures |ids| == |cs| && forall k :: 0 <= k < |cs| ==> ids[k] == cs[k].id
  {
    seq(|cs|, k requires 0 <= k < |cs| => cs[k].id)
  }

  /** `findMatchingProfessionals` over the professionals `candidates`, each with its
      distance from `location`: 404 for an unknown service, 500 without a location
      (reading `location.coordinates` fails), each with no change; otherwise the
      matches, whose ids, in order, become the service's `matchingProfessionals`. */
  method FindMatchingProfessionals(db: Db, serviceId: Option<Id>, location: Option<Coordinates>, candidates: seq<Candidate>)
    returns (r: Result<seq<Candidate>>)
    modifies db`services
    ensures serviceId.None? || serviceId.value !in old(db.services) ==>
              r == Err(Http(404, "Service not found")) && db.services == old(db.services)
    ensures serviceId.Some? && serviceId.value in old(db.services) && location.None? ==>
              r == Err(Http(500, "Failed to find matching professionals")) && db.services == old(db.services)
    ensures serviceId.Some? && serviceId.value in old(db.services) && location.Some? ==>
              var service := old(db.services[serviceId.value]);
              var found := Matching(service, candidates);
              && r == Ok(found)
              && db.services == old(db.services)[serviceId.value := service.(matchingProfessionals := Ids(found))]
  {
    if serviceId.None? || serviceId.value !in db.services {
      return Err(Http(404, "Service not found"));
    }
    if location.None? {
      return Err(Http(500, "Failed to find matching professionals"));
    }
    var service := db.services[serviceId.value];
    var found := Matching(service, candidates);
    db.services := db.services[serviceId.value := service.(matchingProfessionals := Ids(found))];
    r := Ok(found);
  }

  /** The booking `bookService` means to save. */
  datatype ServiceBooking = ServiceBooking(service: Id, professional: Id, customer: Id, status: BookingStatus)

  /** `bookService` as intended: 404 unless both the service and the professional
      exist, 400 unless the professional is capable, otherwise a pending booking
      of that service with that professional for the caller. */
  function BookService(services: map<Id, ServiceModel.Service>, pros: map<Id, Professional>, userId: Id,
                       serviceId: Option<Id>, professionalId: Option<Id>): (r: Result<ServiceBooking>)
    ensures serviceId.None? || serviceId.value !in services || professionalId.None? || professionalId.value !in pros
            <==> r == Err(Http(404, "Service or Professional not found"))
    ensures r == Err(Http(400, "Professional specialization does not match service type")) <==>
              && serviceId.Some? && serviceId.value in services && professionalId.Some? && professionalId.value in pros
              && !Capable(pros[professionalId.value], services[serviceId.value])
    ensures r.Ok? ==> && Capable(pros[professionalId.value], services[serviceId.value])
                      && r.value == ServiceBooking(serviceId.value, professionalId.value, userId, Pending)
  {
    if serviceId.None? || serviceId.value !in services || professionalId.None? || professionalId.value !in pros then
      Err(Http(404, "Service or Professional not found"))
    else if !Capable(pros[professionalId.value], services[serviceId.value]) then
      Err(Http(400, "Professional specialization does not match service type"))
    else Ok(ServiceBooking(serviceId.value, professionalId.value, userId, Pending))
  }

  /** Any professional the matcher found (as stored) can be booked for that service. */
  lemma MatchedCanBeBooked(services: map<Id, ServiceModel.Service>, pros: map<Id, Professional>, userId: Id,
                           serviceId: Id, candidates: seq<Candidate>, c: Candidate)
    requires serviceId in services && c in Matching(services[serviceId], candidates)
    requires c.id in pros && pros[c.id] == c.pro
    ensures BookService(services, pros, userId, Some(serviceId), Some(c.id))
            == Ok(ServiceBooking(serviceId, c.id, userId, Pending))
  {
    var r := Matching(services[serviceId], candidates);
    assert multiset(r)[c] > 0;
  }

  /** `bookService` as written: `Booking` and `NotificationService` are never
      imported, so once the checks pass `new Booking(...)` throws and the catch
      answers 500. */
  function BookServiceAsWritten(services: map<Id, ServiceModel.Service>, pros: map<Id, Professional>, userId: Id,
                                serviceId: Option<Id>, professionalId: Option<Id>): (r: Result<ServiceBooking>)
    ensures r.Err?
    ensures BookService(services, pros, userId, serviceId, professionalId).Err? ==>
              r == BookService(services, pros, userId, serviceId, professionalId)
  {
    var checked := BookService(services, pros, userId, serviceId, professionalId);
    if checked.Err? then checked else Err(Http(500, "Booking failed"))
  }

  /** No request ever books: a capable professional still gets a 500. */
  lemma BookServiceAsWrittenNeverBooks(service: ServiceModel.Service, p: Professional)
    requires Capable(p, service)
    ensures BookService(map["s" := service], map["p" := p], "u", Some("s"), Some("p")).Ok?
    ensures BookServiceAsWritten(map["s" := service], map["p" := p], "u", Some("s"), Some("p"))
            == Err(Http(500, "Booking failed"))
  {
  }
}
