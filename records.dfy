/** The records the handlers read and write, and the store that holds them: the
    Mongo collections of bookings, professionals, services and users, and the
    Redis cache of professional locations. Each handler is modelled as one atomic
    step on a `Db`. */
module Records {
  import opened Wrappers
  import ServiceModel
  import Ordering

  /** Document ids, user ids and cache keys are text. */
  type Id = string

  /** A point in time in milliseconds, in the server's local time zone. */
  type Time = int

  const SecondMs: int := 1000
  const HourMs: int := 3600000
  const DayMs: int := 86400000

  /** A stored point as the handlers write it: `[longitude, latitude]`. */
  type Coordinates = seq<real>

  datatype BookingStatus =
    Pending | Accepted | Assigned | Confirmed | InProgress | Started | Completed | Cancelled | Rejected

  datatype Reschedule = Reschedule(oldDate: Time, newDate: Time, reason: string, requestedBy: Id)

  /** `booking.tracking`: the last position reported for the booking, the ETA in
      minutes, and the time of each phase reported over the socket. */
  datatype Tracking = Tracking(
    lastLocation: Option<Coordinates>,
    lastLocationAt: Option<Time>,
    eta: Option<int>,
    arrivedAt: Option<Time>,
    startedAt: Option<Time>,
    completedAt: Option<Time>)

  const NoTracking := Tracking(None, None, None, None, None, None)

  datatype Booking = Booking(
    user: Id,
    service: Id,
    professional: Option<Id>,
    location: Coordinates,
    scheduledDate: Time,
    status: BookingStatus,
    totalAmount: real,
    verificationCode: Js,
    reschedulingHistory: seq<Reschedule>,
    tracking: Tracking,
    createdAt: Time,
    completedAt: Option<Time>)

  datatype ProStatus = RegistrationPending | DocumentPending | UnderReview | Verified | RejectedPro | Active

  datatype OnboardingStep = ProfileDetails | Documents

  /** `professional.currentLocation`. The REST controller writes the point under
      `location`; the socket handler writes it under `coordinates`. */
  datatype CurrentLocation = CurrentLocation(
    location: Option<Coordinates>,
    coordinates: Option<Coordinates>,
    accuracy: Option<real>,
    heading: Option<real>,
    speed: Option<real>,
    timestamp: Option<Time>,
    updatedAt: Option<Time>,
    isAvailable: Option<bool>)

  const NoLocation := CurrentLocation(None, None, None, None, None, None, None, None)

  datatype HistoryEntry = HistoryEntry(location: Coordinates, accuracy: Option<real>, timestamp: Time, source: string)

  datatype Phase = PhaseAssigned | PhaseOngoing | PhaseNone

  /** `professional.currentBooking`. */
  datatype Assignment = Assignment(bookingId: Option<Id>, phase: Phase)

  datatype Document = Document(id: Id, docType: string, verified: bool, verifiedAt: Option<Time>, verifiedBy: Option<Id>)

  datatype Professional = Professional(
    userId: string,
    phone: string,
    role: string,
    name: Option<string>,
    email: Option<string>,
    status: ProStatus,
    onboardingStep: OnboardingStep,
    specializations: seq<string>,
    serviceCategories: seq<string>,
    experience: Option<int>,
    qualifications: seq<string>,
    isAvailable: bool,
    isOnline: bool,
    lastSeen: Option<Time>,
    lastLocationUpdate: Option<Time>,
    currentLocation: Option<CurrentLocation>,
    locationHistory: seq<HistoryEntry>,
    currentBooking: Option<Assignment>,
    documents: seq<Document>,
    rating: Option<real>,
    ratingsAverage: Option<real>)

  datatype AddressDetails = AddressDetails(
    houseNo: Option<string>,
    street: Option<string>,
    landmark: Option<string>,
    city: Option<string>,
    state: Option<string>,
    zipCode: Option<string>,
    addressType: Option<string>)

  datatype Address = Address(id: Id, details: AddressDetails, isDefault: bool)

  datatype Preference = Preference(serviceCategory: Id, frequency: string)

  datatype UserLocation = UserLocation(coordinates: Coordinates, lastUpdated: Time)

  datatype User = User(addresses: seq<Address>, currentLocation: Option<UserLocation>, servicePreferences: seq<Preference>)

  /** A Redis entry `location:<id>` and the time it expires. */
  datatype CachedLocation = CachedLocation(coordinates: Coordinates, timestamp: Time, expiresAt: Time)

  /** The message a handler's `catch` sees when it dereferences a document that
      `findById` did not find. */
  const NullDocument := "TypeError: cannot read properties of null"

  /** `Math.round(distance / 30 * 60)`: minutes to cover `distanceKm` at 30 km/h,
      rounded half up. */
  function EtaMinutes(distanceKm: real): (eta: int)
    ensures distanceKm >= 0.0 ==> eta >= 0
    ensures (eta as real) - 0.5 <= distanceKm * 2.0 < (eta as real) + 0.5
  {
    (distanceKm / 30.0 * 60.0 + 0.5).Floor
  }

  /** A notification call that rejects; where it is awaited inside a transaction the
      transaction is aborted. */
  const NotificationFailed := "notification delivery failed"

  /** `Professional.findByIdAndUpdate(id, update)`: applies `update` to that one record
      and to nothing else; an id with no record (or `null`) changes nothing. */
  function UpdateProfessional(pros: map<Id, Professional>, id: Option<Id>, update: Professional -> Professional): (r: map<Id, Professional>)
    ensures r.Keys == pros.Keys
    ensures forall k :: k in pros && id != Some(k) ==> r[k] == pros[k]
    ensures id.Some? && id.value in pros ==> r[id.value] == update(pros[id.value])
  {
    if id.Some? && id.value in pros then pros[id.value := update(pros[id.value])] else pros
  }

  /** The body of a create-booking request; an absent field is `None`. */
  datatype CreateRequest = CreateRequest(serviceId: Option<Id>, coordinates: Option<Coordinates>, scheduledDate: Option<Time>)

  /** The checks both create-booking handlers make before writing: 400 when a
      required field is missing, then 404 when the service is unknown. */
  function CreateGuard(req: CreateRequest, services: map<Id, ServiceModel.Service>): (f: Option<Failure>)
    ensures f == Some(Http(400, "Missing required fields"))
            <==> !Present(req.serviceId) || req.coordinates.None? || req.scheduledDate.None?
    ensures f == Some(Http(404, "Service not found"))
            <==> Present(req.serviceId) && req.coordinates.Some? && req.scheduledDate.Some? && req.serviceId.value !in services
    ensures f.None? ==> req.serviceId.Some? && req.serviceId.value in services && req.coordinates.Some? && req.scheduledDate.Some?
  {
    if !Present(req.serviceId) || req.coordinates.None? || req.scheduledDate.None? then
      Some(Http(400, "Missing required fields"))
    else if req.serviceId.value !in services then
      Some(Http(404, "Service not found"))
    else None
  }

  /** `Math.floor(100000 + Math.random() * 900000)` for a draw `rand` in [0, 1):
      always a six-digit number. */
  function VerificationCode(rand: real): (code: int)
    requires 0.0 <= rand < 1.0
    ensures 100000 <= code <= 999999
  {
    (100000.0 + rand * 900000.0).Floor
  }

  /** Every six-digit code is the outcome of some draw. */
  lemma VerificationCodeOnto(code: int)
    requires 100000 <= code <= 999999
    ensures var rand := (code - 100000) as real / 900000.0;
      0.0 <= rand < 1.0 && VerificationCode(rand) == code
  {
    var rand := (code - 100000) as real / 900000.0;
    assert 100000.0 + rand * 900000.0 == code as real;
  }

  /** The booking a create handler saves: pending, unassigned, priced at the
      service's base price and carrying a six-digit verification code. */
  function NewBooking(user: Id, req: CreateRequest, service: ServiceModel.Service, rand: real, now: Time): (b: Booking)
    requires req.serviceId.Some? && req.coordinates.Some? && req.scheduledDate.Some?
    requires 0.0 <= rand < 1.0
    ensures b.status == Pending && b.professional.None?
    ensures b.user == user && b.service == req.serviceId.value
    ensures b.location == req.coordinates.value && b.scheduledDate == req.scheduledDate.value
    ensures b.totalAmount == service.basePrice
    ensures b.verificationCode.Num? && 100000 <= b.verificationCode.n <= 999999
    ensures b.reschedulingHistory == [] && b.completedAt.None? && b.createdAt == now
  {
    Booking(user, req.serviceId.value, None, req.coordinates.value, req.scheduledDate.value, Pending,
            service.basePrice, Num(VerificationCode(rand)), [], NoTracking, now, None)
  }

  /** A booking marked completed at `now`. */
  function CompletedAt(b: Booking, now: Time): (c: Booking)
    ensures c.status == Completed && c.completedAt == Some(now)
    ensures c.(status := b.status, completedAt := b.completedAt) == b
  {
    b.(status := Completed, completedAt := Some(now))
  }

  /** A professional a geo query may return, with its distance in metres from the
      query point; distances are given, not computed. */
  datatype Candidate = Candidate(id: Id, pro: Professional, distance: int)

  /** The order of a `$near` result: nearer first. */
  predicate CloserOrSame(a: Candidate, b: Candidate) {
    a.distance <= b.distance
  }

  lemma CloserOrSameIsOrder()
    ensures Ordering.Total(CloserOrSame) && Ordering.Transitive(CloserOrSame)
  {
  }

  class Db {
    var bookings: map<Id, Booking>
    var professionals: map<Id, Professional>
    var services: map<Id, ServiceModel.Service>
    var users: map<Id, User>
    var locationCache: map<string, CachedLocation>

    constructor ()
      ensures bookings == map[] && professionals == map[] && services == map[]
      ensures users == map[] && locationCache == map[]
    {
      bookings, professionals, services, users, locationCache := map[], map[], map[], map[], map[];
    }
  }
}
