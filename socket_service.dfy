/** The real-time event handlers, without the socket transport: what
    `update_location`, `status_update`, `send_message` and `disconnect` check and
    write, and the five-minute location cache. */
module SocketService {
  import opened Wrappers
  import opened Records

  const ProfessionalRole := "professional"

  /** Redis `EX 300`: a cached location lives for 300 seconds. */
  const LocationTtlSeconds: int := 300

  function LocationKey(userId: Id): string {
    "location:" + userId
  }

  /** Distinct professionals never share a cache entry. */
  lemma LocationKeyInjective(a: Id, b: Id)
    ensures LocationKey(a) == LocationKey(b) ==> a == b
  {
    if LocationKey(a) == LocationKey(b) {
      assert a == LocationKey(a)[9..];
      assert b == LocationKey(b)[9..];
    }
  }

  /** A Redis read at `now`: the entry counts only before it expires. */
  function CachedAt(cache: map<string, CachedLocation>, key: string, now: Time): Option<Coordinates> {
    if key in cache && now < cache[key].expiresAt then Some(cache[key].coordinates) else None
  }

  /** The entry `update_location` writes. */
  function CacheEntry(coordinates: Coordinates, now: Time): CachedLocation {
    CachedLocation(coordinates, now, now + LocationTtlSeconds * SecondMs)
  }

  /** A location written at `t` reads back for the next 300 seconds and is gone after. */
  lemma CacheEntryExpires(cache: map<string, CachedLocation>, userId: Id, coordinates: Coordinates, t: Time, now: Time)
    requires t <= now
    ensures var c := cache[LocationKey(userId) := CacheEntry(coordinates, t)];
      CachedAt(c, LocationKey(userId), now) == if now < t + 300000 then Some(coordinates) else None
  {
  }

  /** The socket path writes `currentLocation.coordinates` and `currentLocation.updatedAt`. */
  function WithSocketLocation(p: Professional, coordinates: Coordinates, now: Time): (q: Professional)
    ensures q.currentLocation.Some? && q.currentLocation.value.coordinates == Some(coordinates)
    ensures q.currentLocation.value.updatedAt == Some(now)
    ensures q.(currentLocation := p.currentLocation) == p
  {
    var loc := p.currentLocation.GetOr(NoLocation);
    p.(currentLocation := Some(loc.(coordinates := Some(coordinates), updatedAt := Some(now))))
  }

  /** Tracking is written only for a named booking that exists and is exactly `accepted`. */
  predicate Tracked(bookings: map<Id, Booking>, bookingId: Option<Id>) {
    Present(bookingId) && bookingId.value in bookings && bookings[bookingId.value].status == Accepted
  }

  function WithTracking(b: Booking, coordinates: Coordinates, eta: int, now: Time): Booking {
    b.(tracking := b.tracking.(lastLocation := Some(coordinates), lastLocationAt := Some(now), eta := Some(eta)))
  }

  /** `update_location`: only a professional may send it. It writes the professional's
      location, then, for an accepted booking, the booking's tracking (the ETA
      emitted to the customer is returned), then the cache entry. */
  method UpdateLocation(db: Db, role: string, userId: Id, coordinates: Coordinates, bookingId: Option<Id>,
                        distanceKm: real, now: Time) returns (r: Result<Option<int>>)
    modifies db`professionals, db`bookings, db`locationCache
    ensures role != ProfessionalRole ==>
              && r == Err(Thrown("Unauthorized: Only professionals can update location"))
              && db.professionals == old(db.professionals) && db.bookings == old(db.bookings)
              && db.locationCache == old(db.locationCache)
    ensures role == ProfessionalRole ==>
              && db.professionals == UpdateProfessional(old(db.professionals), Some(userId),
                                                        (p: Professional) => WithSocketLocation(p, coordinates, now))
              && db.locationCache == old(db.locationCache)[LocationKey(userId) := CacheEntry(coordinates, now)]
    ensures role == ProfessionalRole && Tracked(old(db.bookings), bookingId) ==>
              var eta := EtaMinutes(distanceKm);
              && r == Ok(Some(eta))
              && db.bookings == old(db.bookings)[bookingId.value := WithTracking(old(db.bookings[bookingId.value]), coordinates, eta, now)]
    ensures role == ProfessionalRole && !Tracked(old(db.bookings), bookingId) ==>
              r == Ok(None) && db.bookings == old(db.bookings)
  {
    if role != ProfessionalRole {
      return Err(Thrown("Unauthorized: Only professionals can update location"));
    }
    db.professionals := UpdateProfessional(db.professionals, Some(userId),
                                           (p: Professional) => WithSocketLocation(p, coordinates, now));
    r := Ok(None);
    if Present(bookingId) && bookingId.value in db.bookings && db.bookings[bookingId.value].status == Accepted {
      var eta := EtaMinutes(distanceKm);
      db.bookings := db.bookings[bookingId.value := WithTracking(db.bookings[bookingId.value], coordinates, eta, now)];
      r := Ok(Some(eta));
    }
    db.locationCache := db.locationCache[LocationKey(userId) := CacheEntry(coordinates, now)];
  }

  /** The phases a professional may report. */
  predicate ReportablePhase(status: string) {
    status in {"arrived", "started", "completed"}
  }

  /** The status stored for a reported phase: `arrived` becomes `in_progress`, the
      other two are stored as they are. */
  function StoredStatus(status: string): (s: BookingStatus)
    requires ReportablePhase(status)
    ensures status == "arrived" <==> s == InProgress
    ensures status == "started" <==> s == Started
    ensures status == "completed" <==> s == Completed
  {
    if status == "arrived" then InProgress else if status == "started" then Started else Completed
  }

  /** `booking.tracking[status + 'At'] = now`. */
  function Stamped(t: Tracking, status: string, now: Time): (u: Tracking)
    requires ReportablePhase(status)
    ensures status == "arrived" ==> u == t.(arrivedAt := Some(now))
    ensures status == "started" ==> u == t.(startedAt := Some(now))
    ensures status == "completed" ==> u == t.(completedAt := Some(now))
  {
    if status == "arrived" then t.(arrivedAt := Some(now))
    else if status == "started" then t.(startedAt := Some(now))
    else t.(completedAt := Some(now))
  }

  /** `status_update`: rejects any other phase, then an unknown booking. It applies
      the phase whatever the booking's current status and whoever sends it. */
  method StatusUpdate(db: Db, status: string, bookingId: Id, now: Time) returns (r: Result<BookingStatus>)
    modifies db`bookings
    ensures !ReportablePhase(status) ==> r == Err(Thrown("Invalid status")) && db.bookings == old(db.bookings)
    ensures ReportablePhase(status) && bookingId !in old(db.bookings) ==>
              r == Err(Thrown("Booking not found")) && db.bookings == old(db.bookings)
    ensures ReportablePhase(status) && bookingId in old(db.bookings) ==>
              var b := old(db.bookings[bookingId]);
              && r == Ok(StoredStatus(status))
              && db.bookings == old(db.bookings)[bookingId := b.(status := StoredStatus(status),
                                                                 tracking := Stamped(b.tracking, status, now))]
  {
    if !ReportablePhase(status) {
      return Err(Thrown("Invalid status"));
    }
    if bookingId !in db.bookings {
      return Err(Thrown("Booking not found"));
    }
    var b := db.bookings[bookingId];
    db.bookings := db.bookings[bookingId := b.(status := StoredStatus(status), tracking := Stamped(b.tracking, status, now))];
    r := Ok(StoredStatus(status));
  }

  /** `send_message`: the room a message goes to. A professional writes to the
      booking's customer; anyone else writes to the booking's professional, who may
      not be set. */
  function MessageRecipient(bookings: map<Id, Booking>, role: string, bookingId: Id): (r: Result<Option<Id>>)
    ensures bookingId !in bookings <==> r == Err(Thrown("Booking not found"))
    ensures bookingId in bookings && role == ProfessionalRole ==> r == Ok(Some(bookings[bookingId].user))
    ensures bookingId in bookings && role != ProfessionalRole ==> r == Ok(bookings[bookingId].professional)
  {
    if bookingId !in bookings then Err(Thrown("Booking not found"))
    else if role == ProfessionalRole then Ok(Some(bookings[bookingId].user))
    else Ok(bookings[bookingId].professional)
  }

  /** On an accepted booking the two parties reach each other: the professional's
      message goes to the customer and the customer's to the professional. */
  lemma MessagesReachOtherParty(bookings: map<Id, Booking>, bookingId: Id, customerRole: string)
    requires bookingId in bookings && bookings[bookingId].professional.Some?
    requires customerRole != ProfessionalRole
    ensures MessageRecipient(bookings, ProfessionalRole, bookingId) == Ok(Some(bookings[bookingId].user))
    ensures MessageRecipient(bookings, customerRole, bookingId) == Ok(bookings[bookingId].professional)
  {
  }

  /** `disconnect`: a professional goes offline and its cached location is dropped;
      any other role changes nothing. */
  method Disconnect(db: Db, role: string, userId: Id, now: Time)
    modifies db`professionals, db`locationCache
    ensures role == ProfessionalRole ==>
              && db.professionals == UpdateProfessional(old(db.professionals), Some(userId),
                                                        (p: Professional) => p.(isOnline := false, lastSeen := Some(now)))
              && db.locationCache == old(db.locationCache) - {LocationKey(userId)}
    ensures role != ProfessionalRole ==>
              db.professionals == old(db.professionals) && db.locationCache == old(db.locationCache)
  {
    if role == ProfessionalRole {
      db.professionals := UpdateProfessional(db.professionals, Some(userId),
                                             (p: Professional) => p.(isOnline := false, lastSeen := Some(now)));
      db.locationCache := db.locationCache - {LocationKey(userId)};
    }
  }
}
